/** The two objects of the build pipeline whose fields are updated in place: the application
    (settings, frameworks, build, save, manifest) and the development server (settings,
    applications, the URL-to-file map, request handling). They refer to each other, so they
    share one module. */
module Garcon {
  import opened Js
  import opened Assets
  import RootDocument
  import Countdown
  import Saving
  import ManifestScan
  import Routing

  /** The settings `new App(options)` copies over its defaults; `None` keeps the default, and a
      flag left false keeps the default false. */
  datatype AppOptions = AppOptions(
    name: Option<string>,
    buildVersion: Option<string>,
    buildLanguage: Option<string>,
    flags: BuildFlags,
    htmlHead: Option<string>,
    htmlStylesheets: Option<string>,
    htmlBeforeScripts: Option<string>,
    htmlAfterScripts: Option<string>,
    urlPrefix: Option<string>,
    theme: Option<string>,
    savePath: Option<string>)

  /** The settings `new Server(options)` copies over its defaults. */
  datatype ServerOptions = ServerOptions(
    port: Option<int>,
    hostname: Option<string>,
    proxyHost: Option<string>,
    proxyPort: Option<int>,
    proxyPrefix: Option<string>,
    proxyRemovePrefix: Option<string>,
    allowCrossSiteRequests: Option<bool>)

  /** The root document file of an application: the page rendered with no overrides. */
  function RootFile(name: Option<string>, app: object): File {
    File(name, app, ["cache", "contentType", "file"], RootPage(None, None), true, None, [])
  }

  /** The file registered under the application's bare name: a symlink to its root document. */
  function RootLink(target: File): File {
    File(None, null, ["symlink"], Source, false, Some(target), [])
  }

  /** Every flag key is visited by `addFramework`. */
  lemma EveryFlagKeyListed(k: FlagKey)
    ensures k in FlagKeys
  {
    match k
    case CombineScripts => assert FlagKeys[0] == k;
    case CombineStylesheets => assert FlagKeys[1] == k;
    case ValidateScripts => assert FlagKeys[2] == k;
    case MinifyScripts => assert FlagKeys[3] == k;
    case MinifyStylesheets => assert FlagKeys[4] == k;
  }

  class App {
    var name: Option<string>
    var server: Server?
    var buildVersion: string
    var buildLanguage: string
    var flags: BuildFlags
    var htmlHead: Option<string>
    var htmlStylesheets: Option<string>
    var htmlBeforeScripts: Option<string>
    var htmlAfterScripts: Option<string>
    var urlPrefix: string
    var theme: string
    var savePath: string
    var frameworks: Option<seq<Framework>>
    var files: Option<FileMap>
    var rootDir: Option<string>

    /** `new App(options)` at clock time `now` (milliseconds): the build version defaults to
        the clock reading. */
    constructor (options: AppOptions, now: nat)
      ensures Configured(options, now) && server == null
    {
      name := options.name;
      server := null;
      buildVersion := options.buildVersion.GetOr(NatToDecimal(now));
      buildLanguage := options.buildLanguage.GetOr("english");
      flags := options.flags;
      htmlHead, htmlStylesheets := options.htmlHead, options.htmlStylesheets;
      htmlBeforeScripts, htmlAfterScripts := options.htmlBeforeScripts, options.htmlAfterScripts;
      urlPrefix := options.urlPrefix.GetOr("../");
      theme := options.theme.GetOr("sc-theme");
      savePath := options.savePath.GetOr("build");
      frameworks, files, rootDir := None, None, None;
    }

    /** The state `new App(options)` leaves at clock time `now`, the server aside: every
        option given, the build version defaulting to the clock reading, the language to
        `english`, the URL prefix to `../`, the theme to `sc-theme`, the save path to `build`;
        no frameworks, files or build directory yet. */
    ghost predicate Configured(options: AppOptions, now: nat)
      reads this
    {
      && name == options.name
      && buildVersion == options.buildVersion.GetOr(NatToDecimal(now))
      && buildLanguage == options.buildLanguage.GetOr("english")
      && flags == options.flags
      && htmlHead == options.htmlHead && htmlStylesheets == options.htmlStylesheets
      && htmlBeforeScripts == options.htmlBeforeScripts && htmlAfterScripts == options.htmlAfterScripts
      && urlPrefix == options.urlPrefix.GetOr("../") && theme == options.theme.GetOr("sc-theme")
      && savePath == options.savePath.GetOr("build")
      && frameworks == None && files == None && rootDir == None
    }

    /** The settings the root document reads. */
    function Page(): RootDocument.Page
      reads this
    {
      RootDocument.Page(buildLanguage, htmlHead, htmlStylesheets, htmlBeforeScripts, htmlAfterScripts, urlPrefix, theme)
    }

    /** `addFramework`: the framework joins the list (created on first use), takes the
        application's server, takes its build version if it has none, and has every flag
        raised that the application has raised; flags already raised stay raised. */
    method AddFramework(fw: Framework) returns (added: Framework)
      modifies this`frameworks, fw
      ensures added == fw
      ensures frameworks == Some(old(frameworks).GetOr([]) + [fw])
      ensures fw.server == server
      ensures fw.buildVersion == if old(fw.buildVersion).None? then Some(buildVersion) else old(fw.buildVersion)
      ensures forall k :: fw.flags.Get(k) == (old(fw.flags).Get(k) || flags.Get(k))
    {
      if frameworks.None? {
        frameworks := Some([]);
      }
      fw.server := server;
      if fw.buildVersion.None? {
        fw.buildVersion := Some(buildVersion);
      }
      var i := 0;
      while i < |FlagKeys|
        invariant i <= |FlagKeys|
        invariant frameworks.Some? && frameworks.value == old(frameworks).GetOr([])
        invariant fw.server == server
        invariant fw.buildVersion == if old(fw.buildVersion).None? then Some(buildVersion) else old(fw.buildVersion)
        invariant forall k :: fw.flags.Get(k) == (old(fw.flags).Get(k) || (flags.Get(k) && k in FlagKeys[..i]))
      {
        var key := FlagKeys[i];
        if flags.Get(key) {
          fw.flags := fw.flags.Raise(key);
        }
        assert FlagKeys[..i + 1] == FlagKeys[..i] + [key];
        i := i + 1;
      }
      forall k ensures k in FlagKeys[..i] {
        EveryFlagKeyListed(k);
      }
      frameworks := Some(frameworks.value + [fw]);
      added := fw;
    }

    /** `addFrameworks`: `addFramework` on each, in order. */
    method AddFrameworks(fws: seq<Framework>)
      modifies this`frameworks, fws
      ensures frameworks == if fws == [] then old(frameworks) else Some(old(frameworks).GetOr([]) + fws)
      ensures forall f :: f in fws ==>
        && f.server == server
        && f.buildVersion == (if old(f.buildVersion).None? then Some(buildVersion) else old(f.buildVersion))
        && forall k :: f.flags.Get(k) == (old(f.flags).Get(k) || flags.Get(k))
    {
      var i := 0;
      while i < |fws|
        invariant i <= |fws|
        invariant i == 0 ==> frameworks == old(frameworks)
        invariant i > 0 ==> frameworks == Some(old(frameworks).GetOr([]) + fws[..i])
        invariant forall f :: f in fws && f !in fws[..i] ==>
          f.server == old(f.server) && f.buildVersion == old(f.buildVersion) && f.flags == old(f.flags)
        invariant forall f :: f in fws[..i] ==>
          && f.server == server
          && f.buildVersion == (if old(f.buildVersion).None? then Some(buildVersion) else old(f.buildVersion))
          && forall k :: f.flags.Get(k) == (old(f.flags).Get(k) || flags.Get(k))
      {
        var fw := fws[i];
        ghost var listed := old(frameworks).GetOr([]) + fws[..i];
        assert frameworks.GetOr([]) == listed;
        var _ := AddFramework(fw);
        assert fws[..i + 1] == fws[..i] + [fw];
        assert listed + [fw] == old(frameworks).GetOr([]) + fws[..i + 1];
        i := i + 1;
      }
      assert fws[..i] == fws;
    }

    /** `rootContent(htmlStylesheets, htmlScripts)`: the root document, or the TypeError of
        walking an undefined frameworks list. */
    function RootContent(stylesheets: Option<string>, scripts: Option<string>, env: Collaborators): (r: Result<string>)
      reads this
      ensures r.Success? <==> frameworks.Some? || (stylesheets.Some? && scripts.Some?)
    {
      RootDocument.Render(Page(), frameworks, stylesheets, scripts, env)
    }

    /** `buildRoot`: the root document goes under its URL and a symlink to it under the bare
        name (`null` reads "null"); without a server this dies. */
    method BuildRoot(env: Collaborators) returns (ok: bool)
      modifies (if server == null then {} else {server})`files
      ensures ok <==> server != null
      ensures ok ==>
        var root := RootFile(name, this);
        && server.files == Put(Put(old(server.files), env.url(root), root), Str(name), RootLink(root))
        && Lookup(server.files, Str(name)) == Some(RootLink(root))
        && KeysKept(old(server.files), server.files)
        && (UniqueKeys(old(server.files)) ==> UniqueKeys(server.files))
    {
      if server == null {
        return false;
      }
      var root := RootFile(name, this);
      PutKeys(server.files, env.url(root), root);
      server.files := Put(server.files, env.url(root), root);
      PutKeys(server.files, Str(name), RootLink(root));
      PutLookup(server.files, Str(name), RootLink(root), Str(name));
      server.files := Put(server.files, Str(name), RootLink(root));
      ok := true;
    }

    /** `build(callback)`: resets the application's own file map, registers the root document,
        and starts every framework's build; each framework registers its files on the server
        when it completes, completions arriving in any order, and each completion counts down.
        Answers how many times the callback ran: once, on the last completion, when there is a
        callback and at least one framework; never otherwise. Dies without a frameworks list
        or a server. */
    method Build(hasCallback: bool, completed: seq<Framework>, env: Collaborators) returns (outcome: Result<nat>)
      requires frameworks.Some? ==> CompletionOrder(completed, frameworks.value)
      modifies this`files, (if server == null then {} else {server})`files
      ensures outcome.Success? <==> frameworks.Some? && server != null
      ensures frameworks.None? ==> files == old(files)
      ensures frameworks.Some? ==> files == Some([])
      ensures outcome.Success? ==>
        var root := RootFile(name, this);
        && files == Some([])
        && server.files == Registered(Put(Put(old(server.files), env.url(root), root), Str(name), RootLink(root)),
                                      completed)
        && outcome.value == (if hasCallback && |frameworks.value| > 0 then 1 else 0)
        && KeysKept(old(server.files), server.files)
        && Str(name) in Keys(server.files)
        && (forall f :: f in frameworks.value ==> KeysKept(f.builtFiles, server.files))
        && (UniqueKeys(old(server.files)) ==> UniqueKeys(server.files))
    {
      if frameworks.None? {
        return Failure("TypeError: frameworks is undefined");
      }
      files := Some([]);
      var ok := BuildRoot(env);
      if !ok {
        return Failure("TypeError: server is null");
      }
      ghost var rooted := server.files;
      var runs := server.BuildFrameworks(frameworks.value, hasCallback, completed);
      BuiltKeys(old(server.files), rooted, completed, frameworks.value, Str(name));
      outcome := Success(runs);
    }

    /** `save`: partitions the server's map, one framework at a time in map order, into
        stylesheets, scripts and resources, saving each resource as it is met; then saves the
        combined stylesheet, the combined script and the production page. Dies without a
        frameworks list, or without a server when there is a framework to walk. */
    method Save(env: Collaborators) returns (outcome: Result<seq<Saving.Write>>)
      ensures frameworks.None? ==> outcome.Failure?
      ensures frameworks.Some? && |frameworks.value| > 0 && server == null ==> outcome.Failure?
      ensures frameworks.Some? && (|frameworks.value| == 0 || server != null) ==>
        outcome == Saving.Outcome(Saving.SavePlan(name, this, frameworks.value,
                                                  if server == null then [] else server.files,
                                                  savePath, Page(), env))
    {
      if frameworks.None? {
        return Failure("TypeError: frameworks is undefined");
      }
      var fws := frameworks.value;
      if |fws| > 0 && server == null {
        return Failure("TypeError: server is null");
      }
      var m: FileMap := if server == null then [] else server.files;
      var stylesheets: seq<File> := [];
      var scripts: seq<File> := [];
      var steps: seq<Saving.SaveStep> := [];
      var i := 0;
      while i < |fws|
        invariant i <= |fws|
        invariant stylesheets == Saving.Gather(fws[..i], m, env.isStylesheet)
        invariant scripts == Saving.Gather(fws[..i], m, env.isScript)
        invariant steps == Saving.SaveAll(Saving.Gather(fws[..i], m, env.isResource), savePath, env)
      {
        var ss, sc, st := Saving.Partition(fws[i], m, savePath, env);
        assert fws[..i + 1][..i] == fws[..i] && fws[..i + 1][i] == fws[i];
        Saving.SaveAllAppend(Saving.Gather(fws[..i], m, env.isResource),
                             Saving.OwnedIn(m, fws[i], env.isResource), savePath, env);
        stylesheets, scripts, steps := stylesheets + ss, scripts + sc, steps + st;
        i := i + 1;
      }
      assert fws[..i] == fws;
      var css := Saving.Combined(Str(name) + ".css", this, stylesheets);
      var js := Saving.Combined(Str(name) + ".js", this, scripts);
      var link := RootDocument.StylesheetLink(urlPrefix + env.url(css));
      var tag := RootDocument.ScriptTag(urlPrefix + env.url(js));
      var html := Saving.ProductionPage(name, this, link, tag);
      var text := RootContent(Some(link), Some(tag), env);
      steps := steps + [ Saving.SaveFile(css, savePath, env),
                         Saving.SaveFile(js, savePath, env),
                         Saving.SaverStep(Response(Some(text.value), None, None, None),
                                          env.pathJoin(savePath, env.savePath(html))) ];
      outcome := Saving.Outcome(steps);
    }

    /** `manifest`: the build directory `<savePath>/<buildVersion>` (`tree`, absent when it
        does not exist) is walked; once no call is pending, the manifest listing every file
        reached, in completion order, is written as `app.manifest` in that directory. */
    method Manifest(tree: Option<ManifestScan.Node>, env: Collaborators)
      returns (outcome: Result<Saving.Write>, collected: seq<string>)
      modifies this`rootDir
      ensures rootDir == Some(env.pathJoin(savePath, buildVersion))
      ensures outcome.Success? <==> tree.Some?
      ensures tree.Some? ==>
        && multiset(collected) == multiset(ManifestScan.Reachable("", tree.value))
        && outcome.value == Saving.Write(env.pathJoin(rootDir.value, "app.manifest"),
                                  ManifestScan.ManifestText(buildVersion, collected))
      ensures tree.Some? && ManifestScan.PlainNames(tree.value) ==>
        forall p :: p in collected ==> ManifestScan.NoHiddenSegment(p, 0)
    {
      var dir := env.pathJoin(savePath, buildVersion);
      rootDir := Some(dir);
      if tree.None? {
        return Failure("ENOENT: no such file or directory"), [];
      }
      var scanner := new ManifestScan.Scanner(dir, tree.value);
      scanner.Run();
      collected := scanner.reports[0];
      if ManifestScan.PlainNames(tree.value) {
        ManifestScan.CollectedShape(tree.value, collected);
      }
      outcome := Success(Saving.Write(env.pathJoin(dir, "app.manifest"),
                               ManifestScan.ManifestText(buildVersion, collected)));
    }
  }

  /** An order in which the asynchronous builds of `fws` can complete: each framework exactly
      once. */
  predicate CompletionOrder(completed: seq<Framework>, fws: seq<Framework>) {
    multiset(completed) == multiset(fws)
  }

  /** The server map once the frameworks of `done` have each registered their files over
      `m`, one after another in that order. */
  function Registered(m: FileMap, done: seq<Framework>): FileMap
    decreases |done|
  {
    if done == [] then m
    else PutAll(Registered(m, done[..|done| - 1]), done[|done| - 1].builtFiles)
  }

  /** Registering keeps every key already there, adds the keys of every framework that
      completed, and repeats none. */
  lemma {:induction false} RegisteredKeys(m: FileMap, done: seq<Framework>)
    ensures KeysKept(m, Registered(m, done))
    ensures forall f :: f in done ==> KeysKept(f.builtFiles, Registered(m, done))
    ensures UniqueKeys(m) ==> UniqueKeys(Registered(m, done))
    decreases |done|
  {
    if done != [] {
      var n := |done|;
      var rest, last := done[..n - 1], done[n - 1];
      var prev, next := Registered(m, rest), Registered(m, done);
      RegisteredKeys(m, rest);
      PutAllKeys(prev, last.builtFiles);
      KeysKeptTrans(m, prev, next);
      assert done == rest + [last];
      forall f | f in rest
        ensures KeysKept(f.builtFiles, next)
      {
        KeysKeptTrans(f.builtFiles, prev, next);
      }
    }
  }

  /** After the root document and its link were put over `before` (giving `rooted`) and every
      framework's build registered: every key of `before`, the link's key and every
      framework's keys are there, and none is repeated if none was. */
  lemma BuiltKeys(before: FileMap, rooted: FileMap, completed: seq<Framework>, fws: seq<Framework>, link: string)
    requires CompletionOrder(completed, fws)
    requires KeysKept(before, rooted) && link in Keys(rooted)
    requires UniqueKeys(before) ==> UniqueKeys(rooted)
    ensures KeysKept(before, Registered(rooted, completed))
    ensures link in Keys(Registered(rooted, completed))
    ensures forall f :: f in fws ==> KeysKept(f.builtFiles, Registered(rooted, completed))
    ensures UniqueKeys(before) ==> UniqueKeys(Registered(rooted, completed))
  {
    RegisteredKeys(rooted, completed);
    KeysKeptTrans(before, rooted, Registered(rooted, completed));
    forall f | f in fws
      ensures f in completed
    {
      assert f in multiset(fws);
    }
  }

  /** Frameworks whose builds each register a key at most once and share no key. */
  predicate SeparateBuilds(fws: seq<Framework>) {
    && (forall f :: f in fws ==> UniqueKeys(f.builtFiles))
    && (forall f, g, k :: f in fws && g in fws && f != g && k in Keys(f.builtFiles)
          ==> k !in Keys(g.builtFiles))
  }

  /** With separate builds, a key registered by a framework that completed finds that
      framework's file, whatever completed after it. */
  lemma {:induction false} RegisteredOwn(m: FileMap, done: seq<Framework>, f: Framework, k: string)
    requires SeparateBuilds(done) && f in done && k in Keys(f.builtFiles)
    ensures Lookup(Registered(m, done), k) == Lookup(f.builtFiles, k)
    decreases |done|
  {
    var n := |done|;
    var rest, last := done[..n - 1], done[n - 1];
    assert done == rest + [last];
    PutAllLookup(Registered(m, rest), last.builtFiles, k);
    if f != last {
      assert SeparateBuilds(rest);
      RegisteredOwn(m, rest, f, k);
    }
  }

  /** A key that no framework of `done` registers finds what it found before, whether or not
      the frameworks share keys among themselves. */
  lemma {:induction false} RegisteredUntouched(m: FileMap, done: seq<Framework>, k: string)
    requires forall f :: f in done ==> k !in Keys(f.builtFiles)
    ensures Lookup(Registered(m, done), k) == Lookup(m, k)
    decreases |done|
  {
    if done != [] {
      var n := |done|;
      var rest, last := done[..n - 1], done[n - 1];
      assert done == rest + [last];
      PutAllAbsent(Registered(m, rest), last.builtFiles, k);
      RegisteredUntouched(m, rest, k);
    }
  }

  /** Once every framework has completed, in any order, and no two of them register the same
      key: each framework's key finds that framework's file, and a key no framework registers
      finds what it found before the builds. */
  lemma RegisteredAll(m: FileMap, fws: seq<Framework>, completed: seq<Framework>, k: string)
    requires CompletionOrder(completed, fws) && SeparateBuilds(fws)
    ensures forall f :: f in fws && k in Keys(f.builtFiles) ==>
      Lookup(Registered(m, completed), k) == Lookup(f.builtFiles, k)
    ensures (forall f :: f in fws ==> k !in Keys(f.builtFiles)) ==>
      Lookup(Registered(m, completed), k) == Lookup(m, k)
  {
    assert forall f :: f in completed <==> f in fws by {
      forall f ensures f in completed <==> f in fws {
        assert f in completed <==> f in multiset(completed);
        assert f in fws <==> f in multiset(fws);
      }
    }
    assert SeparateBuilds(completed);
    forall f | f in fws && k in Keys(f.builtFiles)
      ensures Lookup(Registered(m, completed), k) == Lookup(f.builtFiles, k)
    {
      RegisteredOwn(m, completed, f, k);
    }
    if forall f :: f in fws ==> k !in Keys(f.builtFiles) {
      RegisteredUntouched(m, completed, k);
    }
  }

  /** The argument of `addApp`: an application, or the settings to create one with. */
  datatype AppArgument = Existing(app: App) | Settings(options: AppOptions)

  class Server {
    var port: int
    var hostname: Option<string>
    var proxyHost: Option<string>
    var proxyPort: Option<int>
    var proxyPrefix: string
    var proxyRemovePrefix: Option<string>
    var allowCrossSiteRequests: bool
    var apps: seq<App>
    var files: FileMap

    /** `new Server(options)`: port 8000, no proxy, no cross-site requests, nothing registered. */
    constructor (options: ServerOptions)
      ensures port == options.port.GetOr(8000) && hostname == options.hostname
      ensures proxyHost == options.proxyHost && proxyPort == options.proxyPort
      ensures proxyPrefix == options.proxyPrefix.GetOr("") && proxyRemovePrefix == options.proxyRemovePrefix
      ensures allowCrossSiteRequests == options.allowCrossSiteRequests.GetOr(false)
      ensures apps == [] && files == []
    {
      port := options.port.GetOr(8000);
      hostname := options.hostname;
      proxyHost, proxyPort := options.proxyHost, options.proxyPort;
      proxyPrefix := options.proxyPrefix.GetOr("");
      proxyRemovePrefix := options.proxyRemovePrefix;
      allowCrossSiteRequests := options.allowCrossSiteRequests.GetOr(false);
      apps, files := [], [];
    }

    /** `shouldProxy`: both a proxy host and a proxy port are set; a request for no registered
        file then goes to the proxy, and otherwise to 404. */
    predicate ShouldProxy()
      reads this
      ensures forall pathname :: Routing.FileKey(pathname) !in Keys(files) ==>
        (Routing.RouteOf(files, pathname, ShouldProxy()).ToProxy? <==> proxyHost.Some? && proxyPort.Some?)
    {
      proxyHost.Some? && proxyPort.Some?
    }

    /** A framework's build registering its files: `files[url] = file` for each entry, in
        order. Registered keys stay, new keys are added, none is repeated. */
    method Register(entries: FileMap)
      modifies this`files
      ensures files == PutAll(old(files), entries)
      ensures KeysKept(old(files), files) && KeysKept(entries, files)
      ensures UniqueKeys(old(files)) ==> UniqueKeys(files)
    {
      PutAllKeys(files, entries);
      files := PutAll(files, entries);
    }

    /** One framework's build finishing: its files are registered, then its callback counts
        the builder down (`that.count -= 1; that.callbackIfDone()`). */
    method BuildDone(entries: FileMap, builder: Countdown.Builder)
      requires builder.Valid()
      modifies this`files, builder
      ensures builder.Valid() && builder.completions == old(builder.completions) + 1
      ensures files == PutAll(old(files), entries)
      ensures KeysKept(old(files), files) && KeysKept(entries, files)
      ensures UniqueKeys(old(files)) ==> UniqueKeys(files)
    {
      Register(entries);
      builder.Completed();
    }

    /** The frameworks' builds completing in the order `completed`: each registers its files
        and counts the builder down once. */
    method AwaitBuilds(fws: seq<Framework>, builder: Countdown.Builder, completed: seq<Framework>)
      requires builder.Valid() && builder.completions == 0 && builder.start == |fws|
      requires CompletionOrder(completed, fws)
      modifies this`files, builder
      ensures builder.Valid() && builder.completions == |fws|
      ensures files == Registered(old(files), completed)
    {
      assert |completed| == |multiset(completed)| == |multiset(fws)| == |fws|;
      var t := 0;
      while t < |completed|
        invariant t <= |completed|
        invariant builder.Valid() && builder.start == |fws| && builder.completions == t
        invariant files == Registered(old(files), completed[..t])
      {
        assert completed[..t + 1][..t] == completed[..t];
        BuildDone(completed[t].builtFiles, builder);
        t := t + 1;
      }
      assert completed[..t] == completed;
    }

    /** The builds of `fws` under one countdown, completing in the order `completed`: every
        framework's files end up registered, and the callback runs exactly once, on the last
        completion, when there is a callback and at least one framework. */
    method BuildFrameworks(fws: seq<Framework>, hasCallback: bool, completed: seq<Framework>) returns (runs: nat)
      requires CompletionOrder(completed, fws)
      modifies this`files
      ensures files == Registered(old(files), completed)
      ensures runs == if hasCallback && |fws| > 0 then 1 else 0
    {
      var builder := new Countdown.Builder(|fws|, hasCallback);
      AwaitBuilds(fws, builder, completed);
      Countdown.ExactlyOnceOnLast(|fws|, hasCallback);
      runs := |builder.runs|;
    }

    /** `addApp`: the application (created from settings at clock time `now` if need be) is
        attached to this server and appended to its list. */
    method AddApp(arg: AppArgument, now: nat) returns (app: App)
      modifies this`apps, (if arg.Existing? then {arg.app} else {})`server
      ensures arg.Existing? ==> app == arg.app
      ensures arg.Settings? ==> fresh(app) && app.Configured(arg.options, now)
      ensures app.server == this
      ensures apps == old(apps) + [app]
    {
      if arg.Existing? {
        app := arg.app;
      } else {
        app := new App(arg.options, now);
      }
      app.server := this;
      apps := apps + [app];
    }

    /** `serve`: the reply to a registered file, filled in field by field from its
        pipeline's response to the request (`handle`): status 200 unless the response sets one, the content
        type and modification date when given, the cross-site headers when allowed, and the
        response data as the body. */
    method Serve(file: File, request: Request, env: Collaborators) returns (reply: Routing.Reply)
      ensures var r := env.handle(file, Some(request));
        && reply == Routing.ServeReply(r, request.headers, allowCrossSiteRequests, env.httpDateTime)
        && reply.status == (if r.status.Some? then r.status.value else 200)
        && reply.body == r.data
        && UniqueKeys(reply.headers)
        && forall name :: Lookup(reply.headers, name)
             == Routing.ExpectedHeader(r, request.headers, allowCrossSiteRequests, env.httpDateTime, name)
    {
      var r := env.handle(file, Some(request));
      var headers: Headers := [];
      var status := 200;
      if r.contentType.Some? {
        headers := Put(headers, "Content-Type", r.contentType.value);
      }
      if r.lastModified.Some? {
        headers := Put(headers, "Last-Modified", env.httpDateTime(r.lastModified.value));
      }
      if r.status.Some? {
        status := r.status.value;
      }
      if allowCrossSiteRequests {
        headers := Put(headers, "Access-Control-Allow-Origin", "*");
        var asked := Lookup(request.headers, "access-control-request-headers");
        if Truthy(asked) {
          headers := Put(headers, "Access-Control-Allow-Headers", asked.value);
        }
      }
      reply := Routing.Reply(status, headers, r.data);
      Routing.ServeHeadersUnique(r, request.headers, allowCrossSiteRequests, env.httpDateTime);
      forall name
        ensures Lookup(reply.headers, name)
          == Routing.ExpectedHeader(r, request.headers, allowCrossSiteRequests, env.httpDateTime, name)
      {
        Routing.ServeReplyFields(r, request.headers, allowCrossSiteRequests, env.httpDateTime, name);
      }
    }

    /** The reply to a request: a registered file is served through its pipeline (`handle`, given
        the request);
        otherwise the request is forwarded when a proxy is set (`upstream` is the proxy's
        answer, `None` for a connection error), else it gets 404. */
    function Respond(req: Request, env: Collaborators,
                     upstream: Routing.Outbound -> Option<Routing.Reply>): (reply: Routing.Reply)
      reads this
      ensures var key := Routing.FileKey(req.pathname);
        && (key in Keys(files) ==>
              reply == Routing.ServeReply(env.handle(Lookup(files, key).value, Some(req)), req.headers,
                                          allowCrossSiteRequests, env.httpDateTime))
        && (key !in Keys(files) && proxyHost.Some? && proxyPort.Some? ==>
              reply == Routing.ProxyReply(upstream(Routing.Forward(req, proxyHost.value, proxyPort.value,
                                                                   proxyPrefix, proxyRemovePrefix))))
        && (key !in Keys(files) && !(proxyHost.Some? && proxyPort.Some?) ==> reply == Routing.NotFound)
    {
      match Routing.RouteOf(files, req.pathname, ShouldProxy())
      case ServeFile(f) =>
        Routing.ServeReply(env.handle(f, Some(req)), req.headers, allowCrossSiteRequests, env.httpDateTime)
      case ToProxy =>
        Routing.ProxyReply(upstream(Routing.Forward(req, proxyHost.value, proxyPort.value, proxyPrefix, proxyRemovePrefix)))
      case Missing => Routing.NotFound
    }
  }
}
