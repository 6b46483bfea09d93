/** The application's entry page: a fixed sequence of lines joined by newlines. The same
    renderer gives the development page (one tag per asset) and the production page (the two
    override blocks that point at the combined files). */
module RootDocument {
  import opened Js
  import opened Assets

  /** The application settings the page reads. */
  datatype Page = Page(
    buildLanguage: string,
    htmlHead: Option<string>,
    htmlStylesheets: Option<string>,
    htmlBeforeScripts: Option<string>,
    htmlAfterScripts: Option<string>,
    urlPrefix: string,
    theme: string)

  /** The `lang` attribute: empty when the language has no (truthy) short code. */
  function LangAttribute(code: Option<string>): string {
    if Truthy(code) then " lang=\"" + code.value + "\"" else ""
  }

  function StylesheetLink(href: string): string {
    "<link href=\"" + href + "\" rel=\"stylesheet\" type=\"text/css\">"
  }

  function ScriptTag(src: string): string {
    "<script type=\"text/javascript\" src=\"" + src + "\"></script>"
  }

  /** The optional line of a nullable setting. */
  function Optional(line: Option<string>): seq<string> {
    if line.Some? then [line.value] else []
  }

  /** One link per stylesheet of `sheets` (in order) that `fw` itself owns. */
  function OwnedLinks(fw: Framework, sheets: seq<File>, urlPrefix: string, url: File -> string): seq<string>
  {
    if sheets == [] then []
    else
      var last := sheets[|sheets| - 1];
      OwnedLinks(fw, sheets[..|sheets| - 1], urlPrefix, url)
        + (if last.owner == fw then [StylesheetLink(urlPrefix + url(last))] else [])
  }

  /** The stylesheet links of every framework, frameworks in list order. */
  function StylesheetLinks(fws: seq<Framework>, urlPrefix: string, url: File -> string): seq<string>
  {
    if fws == [] then []
    else
      var last := fws[|fws| - 1];
      StylesheetLinks(fws[..|fws| - 1], urlPrefix, url) + OwnedLinks(last, last.orderedStylesheets, urlPrefix, url)
  }

  function Tags(scripts: seq<File>, urlPrefix: string, url: File -> string): seq<string>
  {
    if scripts == [] then []
    else Tags(scripts[..|scripts| - 1], urlPrefix, url) + [ScriptTag(urlPrefix + url(scripts[|scripts| - 1]))]
  }

  /** One script tag per script of every framework, with no owner filter. */
  function ScriptTags(fws: seq<Framework>, urlPrefix: string, url: File -> string): seq<string>
  {
    if fws == [] then []
    else
      var last := fws[|fws| - 1];
      ScriptTags(fws[..|fws| - 1], urlPrefix, url) + Tags(last.orderedScripts, urlPrefix, url)
  }

  /** The fixed lines of the page. */
  const Doctype: string := "<!DOCTYPE html>"
  const HeadOpen: string := "<head>"
  const Charset: string := "<meta charset=\"utf-8\">"
  const Compatible: string := "<meta http-equiv=\"X-UA-Compatible\" content=\"IE=edge,chrome=1\">"
  const HeadClose: string := "</head>"
  const BodyClose: string := "</body>"
  const HtmlClose: string := "</html>"

  function HtmlOpen(lang: Option<string>): string {
    "<html" + LangAttribute(lang) + ">"
  }

  function BodyOpen(theme: string): string {
    "<body class=\"" + theme + " focus\">"
  }

  function PreferredLanguage(buildLanguage: string): string {
    "<script type=\"text/javascript\">String.preferredLanguage = \"" + buildLanguage + "\";</script>"
  }

  /** Everything between the `<html>` tag and the closing `</body>`. */
  function Middle(page: Page, fws: seq<Framework>, stylesheets: Option<string>,
                  scripts: Option<string>, env: Collaborators): seq<string>
  {
    [HeadOpen, Charset, Compatible]
    + Optional(page.htmlHead)
    + Optional(page.htmlStylesheets)
    + (if stylesheets.None? then StylesheetLinks(fws, page.urlPrefix, env.url) else [stylesheets.value])
    + [HeadClose, BodyOpen(page.theme)]
    + Optional(page.htmlBeforeScripts)
    + [PreferredLanguage(page.buildLanguage)]
    + (if scripts.None? then ScriptTags(fws, page.urlPrefix, env.url) else [scripts.value])
    + Optional(page.htmlAfterScripts)
  }

  /** The page as lines, or None when the frameworks list is undefined and the renderer has to
      walk it (the source then dies with a TypeError). */
  function Lines(page: Page, frameworks: Option<seq<Framework>>, stylesheets: Option<string>,
                 scripts: Option<string>, env: Collaborators): Option<seq<string>>
  {
    if frameworks.None? && (stylesheets.None? || scripts.None?) then None
    else
      Some(
        [Doctype, HtmlOpen(env.shortLanguage(page.buildLanguage))]
        + Middle(page, frameworks.GetOr([]), stylesheets, scripts, env)
        + [BodyClose, HtmlClose])
  }

  /** The rendered page: its lines joined by newlines. */
  function Render(page: Page, frameworks: Option<seq<Framework>>, stylesheets: Option<string>,
                  scripts: Option<string>, env: Collaborators): (r: Result<string>)
    ensures r.Success? <==> frameworks.Some? || (stylesheets.Some? && scripts.Some?)
  {
    match Lines(page, frameworks, stylesheets, scripts, env)
    case None => Failure("TypeError: frameworks is undefined")
    case Some(lines) => Success(Join(lines, "\n"))
  }

  /** The page opens with the doctype line and an `<html>` line that carries ` lang="c"`
      exactly when the language has a short code `c`, and closes with `</body>` and `</html>`. */
  lemma PageFrame(page: Page, frameworks: Option<seq<Framework>>, stylesheets: Option<string>,
                  scripts: Option<string>, env: Collaborators)
    requires Render(page, frameworks, stylesheets, scripts, env).Success?
    ensures var html := Render(page, frameworks, stylesheets, scripts, env).value;
      var open := Doctype + "\n" + HtmlOpen(env.shortLanguage(page.buildLanguage)) + "\n";
      var close := BodyClose + "\n" + HtmlClose;
      StartsWith(html, open) && |close| <= |html| && html[|html| - |close|..] == close
  {
    var lines := Lines(page, frameworks, stylesheets, scripts, env).value;
    var middle := Middle(page, frameworks.GetOr([]), stylesheets, scripts, env);
    var html := HtmlOpen(env.shortLanguage(page.buildLanguage));
    assert lines == [Doctype, html] + middle + [BodyClose, HtmlClose];
    JoinFrame(Doctype, html, middle, BodyClose, HtmlClose, "\n");
  }

  /** A supplied override block appears verbatim as one line of the page, in place of the
      per-asset links or tags. */
  lemma OverridesVerbatim(page: Page, frameworks: Option<seq<Framework>>, stylesheets: Option<string>,
                          scripts: Option<string>, env: Collaborators)
    requires stylesheets.Some? && scripts.Some?
    ensures var lines := Lines(page, frameworks, stylesheets, scripts, env);
      lines.Some? && stylesheets.value in lines.value && scripts.value in lines.value
      && |lines.value| == 12 + |Optional(page.htmlHead)| + |Optional(page.htmlStylesheets)|
           + |Optional(page.htmlBeforeScripts)| + |Optional(page.htmlAfterScripts)|
  {
  }

  /** Frameworks are visited in list order: the links of a concatenation are the links of
      the first list followed by those of the second. */
  lemma {:induction false} StylesheetLinksAppend(a: seq<Framework>, b: seq<Framework>, urlPrefix: string, url: File -> string)
    ensures StylesheetLinks(a + b, urlPrefix, url) == StylesheetLinks(a, urlPrefix, url) + StylesheetLinks(b, urlPrefix, url)
    decreases |b|
  {
    if b == [] {
      assert a + b == a;
    } else {
      var init, last := b[..|b| - 1], b[|b| - 1];
      calc {
        StylesheetLinks(a + b, urlPrefix, url);
        { assert a + b == (a + init) + [last]; }
        StylesheetLinks((a + init) + [last], urlPrefix, url);
        { StylesheetLinksSnoc(a + init, last, urlPrefix, url); }
        StylesheetLinks(a + init, urlPrefix, url) + OwnedLinks(last, last.orderedStylesheets, urlPrefix, url);
        { StylesheetLinksAppend(a, init, urlPrefix, url); }
        StylesheetLinks(a, urlPrefix, url) + StylesheetLinks(init, urlPrefix, url) + OwnedLinks(last, last.orderedStylesheets, urlPrefix, url);
        { ConcatAssoc(StylesheetLinks(a, urlPrefix, url), StylesheetLinks(init, urlPrefix, url), OwnedLinks(last, last.orderedStylesheets, urlPrefix, url)); }
        StylesheetLinks(a, urlPrefix, url) + (StylesheetLinks(init, urlPrefix, url) + OwnedLinks(last, last.orderedStylesheets, urlPrefix, url));
        StylesheetLinks(a, urlPrefix, url) + StylesheetLinks(b, urlPrefix, url);
      }
    }
  }

  lemma StylesheetLinksSnoc(fws: seq<Framework>, fw: Framework, urlPrefix: string, url: File -> string)
    ensures StylesheetLinks(fws + [fw], urlPrefix, url)
      == StylesheetLinks(fws, urlPrefix, url) + OwnedLinks(fw, fw.orderedStylesheets, urlPrefix, url)
  {
    assert (fws + [fw])[..|fws|] == fws;
  }

  /** Every stylesheet that a listed framework owns gets a link. */
  lemma {:induction false} OwnedStylesheetLinked(fws: seq<Framework>, i: nat, j: nat, urlPrefix: string, url: File -> string)
    requires i < |fws| && j < |fws[i].orderedStylesheets|
    requires fws[i].orderedStylesheets[j].owner == fws[i]
    ensures StylesheetLink(urlPrefix + url(fws[i].orderedStylesheets[j])) in StylesheetLinks(fws, urlPrefix, url)
    decreases |fws|
  {
    var n := |fws|;
    if i < n - 1 {
      OwnedStylesheetLinked(fws[..n - 1], i, j, urlPrefix, url);
    } else {
      OwnedLinkPresent(fws[i], fws[i].orderedStylesheets, j, urlPrefix, url);
    }
  }

  lemma {:induction false} OwnedLinkPresent(fw: Framework, sheets: seq<File>, j: nat, urlPrefix: string, url: File -> string)
    requires j < |sheets| && sheets[j].owner == fw
    ensures StylesheetLink(urlPrefix + url(sheets[j])) in OwnedLinks(fw, sheets, urlPrefix, url)
    decreases |sheets|
  {
    if j < |sheets| - 1 {
      OwnedLinkPresent(fw, sheets[..|sheets| - 1], j, urlPrefix, url);
    }
  }

  /** Conversely, every link belongs to a stylesheet that a listed framework owns. */
  lemma {:induction false} LinkedStylesheetOwned(fws: seq<Framework>, line: string, urlPrefix: string, url: File -> string)
    requires line in StylesheetLinks(fws, urlPrefix, url)
    ensures exists i, j :: (0 <= i < |fws| && 0 <= j < |fws[i].orderedStylesheets|
                            && fws[i].orderedStylesheets[j].owner == fws[i]
                            && line == StylesheetLink(urlPrefix + url(fws[i].orderedStylesheets[j])))
    decreases |fws|
  {
    var n := |fws|;
    var rest := StylesheetLinks(fws[..n - 1], urlPrefix, url);
    if line in rest {
      LinkedStylesheetOwned(fws[..n - 1], line, urlPrefix, url);
      var i, j :| 0 <= i < n - 1 && 0 <= j < |fws[..n - 1][i].orderedStylesheets|
        && fws[..n - 1][i].orderedStylesheets[j].owner == fws[..n - 1][i]
        && line == StylesheetLink(urlPrefix + url(fws[..n - 1][i].orderedStylesheets[j]));
      assert fws[..n - 1][i] == fws[i];
    } else {
      var j := LinkOwner(fws[n - 1], fws[n - 1].orderedStylesheets, line, urlPrefix, url);
    }
  }

  lemma {:induction false} LinkOwner(fw: Framework, sheets: seq<File>, line: string, urlPrefix: string, url: File -> string)
    returns (j: nat)
    requires line in OwnedLinks(fw, sheets, urlPrefix, url)
    ensures j < |sheets| && sheets[j].owner == fw && line == StylesheetLink(urlPrefix + url(sheets[j]))
    decreases |sheets|
  {
    var n := |sheets|;
    if line in OwnedLinks(fw, sheets[..n - 1], urlPrefix, url) {
      j := LinkOwner(fw, sheets[..n - 1], line, urlPrefix, url);
    } else {
      j := n - 1;
    }
  }

  /** Scripts are not filtered: one tag per entry of every framework's script list. */
  lemma {:induction false} ScriptTagCount(fws: seq<Framework>, urlPrefix: string, url: File -> string)
    ensures |ScriptTags(fws, urlPrefix, url)| == ScriptCount(fws)
    decreases |fws|
  {
    if fws != [] {
      ScriptTagCount(fws[..|fws| - 1], urlPrefix, url);
      TagsLength(fws[|fws| - 1].orderedScripts, urlPrefix, url);
    }
  }

  lemma {:induction false} TagsLength(scripts: seq<File>, urlPrefix: string, url: File -> string)
    ensures |Tags(scripts, urlPrefix, url)| == |scripts|
    ensures forall k :: 0 <= k < |scripts| ==> Tags(scripts, urlPrefix, url)[k] == ScriptTag(urlPrefix + url(scripts[k]))
    decreases |scripts|
  {
    if scripts != [] {
      TagsLength(scripts[..|scripts| - 1], urlPrefix, url);
    }
  }

  /** The number of scripts over all frameworks. */
  function ScriptCount(fws: seq<Framework>): nat {
    if fws == [] then 0 else ScriptCount(fws[..|fws| - 1]) + |fws[|fws| - 1].orderedScripts|
  }
}
