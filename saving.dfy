/** What `save` writes: the server's URL-to-file map partitioned, one framework at a time,
    into stylesheets, scripts and resources; one Saver per resource, one per combined file
    (`<name>.css`, `<name>.js`) and one for the production page (`<name>/index`). A Saver runs
    its file's pipeline and writes the data when it is non-empty. */
module Saving {
  import opened Js
  import opened Assets
  import RootDocument

  /** A file written to disk: its path and its data. */
  datatype Write = Write(path: string, data: string)

  /** What one Saver does: nothing (empty data), one write, or a crash (`r.data.length` on
      undefined data throws). */
  datatype SaveStep = Skip | Emit(write: Write) | Crash

  /** The Saver's decision on its pipeline's response. */
  function SaverStep(r: Response, path: string): (s: SaveStep)
    ensures s.Crash? <==> r.data.None?
    ensures s.Emit? <==> r.data.Some? && |r.data.value| > 0
    ensures s.Emit? ==> s.write == Write(path, r.data.value)
  {
    if r.data.None? then Crash
    else if |r.data.value| > 0 then Emit(Write(path, r.data.value))
    else Skip
  }

  /** The Saver of one file: run its pipeline with no request (`null`), write under the
      application's save path. */
  function SaveFile(f: File, savePath: string, env: Collaborators): SaveStep {
    SaverStep(env.handle(f, None), env.pathJoin(savePath, env.savePath(f)))
  }

  /** The files of `m`, in map order, that `owner` owns and that `keep` accepts. */
  function OwnedIn(m: FileMap, owner: object, keep: File -> bool): seq<File>
  {
    if m == [] then []
    else
      var f := m[|m| - 1].1;
      OwnedIn(m[..|m| - 1], owner, keep) + (if f.owner == owner && keep(f) then [f] else [])
  }

  /** One group of `save`: frameworks in list order, and within a framework the map order. */
  function Gather(fws: seq<Framework>, m: FileMap, keep: File -> bool): seq<File>
  {
    if fws == [] then []
    else Gather(fws[..|fws| - 1], m, keep) + OwnedIn(m, fws[|fws| - 1], keep)
  }

  /** The steps of the Savers of `files`, in order. */
  function SaveAll(files: seq<File>, savePath: string, env: Collaborators): seq<SaveStep>
  {
    if files == [] then []
    else SaveAll(files[..|files| - 1], savePath, env) + [SaveFile(files[|files| - 1], savePath, env)]
  }

  /** A combined file: its children are joined by the `join` stage. */
  function Combined(path: string, app: object, children: seq<File>): File {
    File(Some(path), app, ["join"], Source, false, None, children)
  }

  /** The production page: the root document with the two combined files linked in. */
  function ProductionPage(name: Option<string>, app: object, stylesheetLink: string, scriptTag: string): File {
    File(Some(Str(name) + "/index"), app, [], RootPage(Some(stylesheetLink), Some(scriptTag)), true, None, [])
  }

  /** The outcome of a run of Savers: a crash if any of them crashes, else their writes in order. */
  function Outcome(steps: seq<SaveStep>): Result<seq<Write>>
  {
    if steps == [] then Success([])
    else
      match Outcome(steps[..|steps| - 1])
      case Failure(e) => Failure(e)
      case Success(ws) =>
        match steps[|steps| - 1]
        case Crash => Failure("TypeError: response data is undefined")
        case Skip => Success(ws)
        case Emit(w) => Success(ws + [w])
  }

  /** A run of Savers crashes exactly when one of them does; otherwise every write carries
      non-empty data and comes from a Saver that emitted it. */
  lemma {:induction false} OutcomeFacts(steps: seq<SaveStep>)
    ensures Outcome(steps).Failure? <==> Crash in steps
    ensures Outcome(steps).Success? ==>
      (forall w :: w in Outcome(steps).value ==> Emit(w) in steps)
      && (forall s :: s in steps && s.Emit? ==> s.write in Outcome(steps).value)
    decreases |steps|
  {
    if steps != [] {
      var n := |steps|;
      var init, last := steps[..n - 1], steps[n - 1];
      OutcomeFacts(init);
      assert steps == init + [last];
      assert Crash in steps <==> Crash in init || last == Crash;
      var r := Outcome(steps);
      if r.Success? {
        var ws := Outcome(init).value;
        assert r.value == ws + (if last.Emit? then [last.write] else []);
        forall w | w in r.value
          ensures Emit(w) in steps
        {
          if w in ws {
            assert Emit(w) in init;
          }
        }
        forall s | s in steps && s.Emit?
          ensures s.write in r.value
        {
          if s in init {
            assert s.write in ws;
          }
        }
      }
    }
  }

  /** A file of a group belongs to one of the frameworks, in the map, and passes the filter;
      and every such file is in the group. */
  lemma {:induction false} GatherMembers(fws: seq<Framework>, m: FileMap, keep: File -> bool, f: File)
    ensures f in Gather(fws, m, keep) <==>
      (keep(f) && f in Values(m) && exists fw :: fw in fws && f.owner == fw)
    decreases |fws|
  {
    if fws != [] {
      var n := |fws|;
      GatherMembers(fws[..n - 1], m, keep, f);
      OwnedInMembers(m, fws[n - 1], keep, f);
      assert fws == fws[..n - 1] + [fws[n - 1]];
      if f in Gather(fws[..n - 1], m, keep) {
        var fw :| fw in fws[..n - 1] && f.owner == fw;
        assert fw in fws;
      } else if f in OwnedIn(m, fws[n - 1], keep) {
        assert fws[n - 1] in fws;
      }
      if keep(f) && f in Values(m) && f.owner != fws[n - 1] && exists fw :: fw in fws && f.owner == fw {
        var fw :| fw in fws && f.owner == fw;
        assert fw in fws[..n - 1];
      }
    }
  }

  /** The files of a map, in map order. */
  function Values(m: FileMap): seq<File> {
    if m == [] then [] else Values(m[..|m| - 1]) + [m[|m| - 1].1]
  }

  lemma {:induction false} OwnedInMembers(m: FileMap, owner: object, keep: File -> bool, f: File)
    ensures f in OwnedIn(m, owner, keep) <==> f in Values(m) && f.owner == owner && keep(f)
    decreases |m|
  {
    if m != [] {
      OwnedInMembers(m[..|m| - 1], owner, keep, f);
    }
  }

  /** Groups respect framework order: the group over a concatenation is the group over the
      first list followed by the group over the second. */
  lemma {:induction false} GatherAppend(a: seq<Framework>, b: seq<Framework>, m: FileMap, keep: File -> bool)
    ensures Gather(a + b, m, keep) == Gather(a, m, keep) + Gather(b, m, keep)
    decreases |b|
  {
    if b == [] {
      assert a + b == a;
    } else {
      var init, last := b[..|b| - 1], b[|b| - 1];
      calc {
        Gather(a + b, m, keep);
        { assert a + b == (a + init) + [last]; }
        Gather((a + init) + [last], m, keep);
        { GatherSnoc(a + init, last, m, keep); }
        Gather(a + init, m, keep) + OwnedIn(m, last, keep);
        { GatherAppend(a, init, m, keep); }
        Gather(a, m, keep) + Gather(init, m, keep) + OwnedIn(m, last, keep);
        { ConcatAssoc(Gather(a, m, keep), Gather(init, m, keep), OwnedIn(m, last, keep)); }
        Gather(a, m, keep) + (Gather(init, m, keep) + OwnedIn(m, last, keep));
        Gather(a, m, keep) + Gather(b, m, keep);
      }
    }
  }

  lemma GatherSnoc(fws: seq<Framework>, fw: Framework, m: FileMap, keep: File -> bool)
    ensures Gather(fws + [fw], m, keep) == Gather(fws, m, keep) + OwnedIn(m, fw, keep)
  {
    assert (fws + [fw])[..|fws|] == fws;
  }

  /** Savers run in order: the steps of a concatenation are the steps of each part. */
  lemma {:induction false} SaveAllAppend(a: seq<File>, b: seq<File>, savePath: string, env: Collaborators)
    ensures SaveAll(a + b, savePath, env) == SaveAll(a, savePath, env) + SaveAll(b, savePath, env)
    decreases |b|
  {
    if b == [] {
      assert a + b == a;
    } else {
      var init, last := b[..|b| - 1], b[|b| - 1];
      calc {
        SaveAll(a + b, savePath, env);
        { assert a + b == (a + init) + [last]; }
        SaveAll((a + init) + [last], savePath, env);
        { SaveAllSnoc(a + init, last, savePath, env); }
        SaveAll(a + init, savePath, env) + [SaveFile(last, savePath, env)];
        { SaveAllAppend(a, init, savePath, env); }
        SaveAll(a, savePath, env) + SaveAll(init, savePath, env) + [SaveFile(last, savePath, env)];
        { ConcatAssoc(SaveAll(a, savePath, env), SaveAll(init, savePath, env), [SaveFile(last, savePath, env)]); }
        SaveAll(a, savePath, env) + (SaveAll(init, savePath, env) + [SaveFile(last, savePath, env)]);
        SaveAll(a, savePath, env) + SaveAll(b, savePath, env);
      }
    }
  }

  lemma SaveAllSnoc(files: seq<File>, f: File, savePath: string, env: Collaborators)
    ensures SaveAll(files + [f], savePath, env) == SaveAll(files, savePath, env) + [SaveFile(f, savePath, env)]
  {
    assert (files + [f])[..|files|] == files;
  }

  /** Each file's Saver step is among the steps of a run over a list that holds it. */
  lemma {:induction false} SaveAllHas(files: seq<File>, f: File, savePath: string, env: Collaborators)
    requires f in files
    ensures SaveFile(f, savePath, env) in SaveAll(files, savePath, env)
    decreases |files|
  {
    var n := |files|;
    if files[n - 1] != f {
      assert f in files[..n - 1] by {
        assert files == files[..n - 1] + [files[n - 1]];
      }
      SaveAllHas(files[..n - 1], f, savePath, env);
    }
  }

  /** One framework's pass over the server's map in `save`: its stylesheets and scripts are
      set aside in map order, and each of its resources is handed to a Saver on the spot. */
  method Partition(fw: Framework, m: FileMap, savePath: string, env: Collaborators)
    returns (stylesheets: seq<File>, scripts: seq<File>, steps: seq<SaveStep>)
    ensures stylesheets == OwnedIn(m, fw, env.isStylesheet)
    ensures scripts == OwnedIn(m, fw, env.isScript)
    ensures steps == SaveAll(OwnedIn(m, fw, env.isResource), savePath, env)
  {
    stylesheets, scripts, steps := [], [], [];
    ghost var resources: seq<File> := [];
    var j := 0;
    while j < |m|
      invariant j <= |m|
      invariant stylesheets == OwnedIn(m[..j], fw, env.isStylesheet)
      invariant scripts == OwnedIn(m[..j], fw, env.isScript)
      invariant resources == OwnedIn(m[..j], fw, env.isResource)
      invariant steps == SaveAll(resources, savePath, env)
    {
      var file := m[j].1;
      OwnedInNext(m, j, fw, env.isStylesheet);
      OwnedInNext(m, j, fw, env.isScript);
      OwnedInNext(m, j, fw, env.isResource);
      if file.owner == fw {
        if env.isStylesheet(file) {
          stylesheets := stylesheets + [file];
        }
        if env.isScript(file) {
          scripts := scripts + [file];
        }
        if env.isResource(file) {
          SaveAllSnoc(resources, file, savePath, env);
          resources := resources + [file];
          steps := steps + [SaveFile(file, savePath, env)];
        }
      }
      j := j + 1;
    }
    assert m[..j] == m;
  }

  lemma OwnedInNext(m: FileMap, j: nat, owner: object, keep: File -> bool)
    requires j < |m|
    ensures OwnedIn(m[..j + 1], owner, keep)
      == OwnedIn(m[..j], owner, keep) + (if m[j].1.owner == owner && keep(m[j].1) then [m[j].1] else [])
  {
    assert m[..j + 1][..j] == m[..j];
  }

  /** Everything `save` hands to Savers, in order: the resources as the partition meets them,
      then the combined stylesheet, the combined script, and the production page, whose
      handler answers with the page rendered around links to the two combined files. */
  function SavePlan(name: Option<string>, app: object, fws: seq<Framework>, m: FileMap,
                    savePath: string, page: RootDocument.Page, env: Collaborators): seq<SaveStep>
  {
    var css := Combined(Str(name) + ".css", app, Gather(fws, m, env.isStylesheet));
    var js := Combined(Str(name) + ".js", app, Gather(fws, m, env.isScript));
    var link := RootDocument.StylesheetLink(page.urlPrefix + env.url(css));
    var tag := RootDocument.ScriptTag(page.urlPrefix + env.url(js));
    var html := ProductionPage(name, app, link, tag);
    var text := RootDocument.Render(page, Some(fws), Some(link), Some(tag), env).value;
    SaveAll(Gather(fws, m, env.isResource), savePath, env)
      + [ SaveFile(css, savePath, env),
          SaveFile(js, savePath, env),
          SaverStep(Response(Some(text), None, None, None), env.pathJoin(savePath, env.savePath(html))) ]
  }

  /** The plan saves each owned resource once per map entry, and then exactly three more files:
      the stylesheets owned by the frameworks joined, the scripts owned by the frameworks
      joined, and the production page. */
  lemma SavePlanShape(name: Option<string>, app: object, fws: seq<Framework>, m: FileMap,
                      savePath: string, page: RootDocument.Page, env: Collaborators, f: File)
    ensures var plan := SavePlan(name, app, fws, m, savePath, page, env);
      var resources := Gather(fws, m, env.isResource);
      var css := Combined(Str(name) + ".css", app, Gather(fws, m, env.isStylesheet));
      var js := Combined(Str(name) + ".js", app, Gather(fws, m, env.isScript));
      && |plan| == |resources| + 3
      && plan[|plan| - 3] == SaveFile(css, savePath, env)
      && plan[|plan| - 2] == SaveFile(js, savePath, env)
      && (f in resources ==> SaveFile(f, savePath, env) in plan)
      && (f in resources <==> env.isResource(f) && f in Values(m) && exists fw :: fw in fws && f.owner == fw)
  {
    var resources := Gather(fws, m, env.isResource);
    PlanResources(name, app, fws, m, savePath, page, env);
    if f in resources {
      SaveAllHas(resources, f, savePath, env);
    }
    assert f in resources <==> env.isResource(f) && f in Values(m) && exists fw :: fw in fws && f.owner == fw by {
      GatherMembers(fws, m, env.isResource, f);
    }
  }

  /** The plan is the resource Savers followed by three more steps, the two bundles first. */
  lemma PlanResources(name: Option<string>, app: object, fws: seq<Framework>, m: FileMap,
                      savePath: string, page: RootDocument.Page, env: Collaborators)
    ensures var plan := SavePlan(name, app, fws, m, savePath, page, env);
      var resources := Gather(fws, m, env.isResource);
      var css := Combined(Str(name) + ".css", app, Gather(fws, m, env.isStylesheet));
      var js := Combined(Str(name) + ".js", app, Gather(fws, m, env.isScript));
      && |plan| == |resources| + 3
      && plan[..|resources|] == SaveAll(resources, savePath, env)
      && plan[|plan| - 3] == SaveFile(css, savePath, env)
      && plan[|plan| - 2] == SaveFile(js, savePath, env)
  {
    SaveAllLength(Gather(fws, m, env.isResource), savePath, env);
  }

  /** The production page links both combined files, and it is always written: its text is
      the page rendered around the two links, under the page's save path, and it is never
      empty. */
  lemma SavedPage(name: Option<string>, app: object, fws: seq<Framework>, m: FileMap,
                  savePath: string, page: RootDocument.Page, env: Collaborators)
    ensures var plan := SavePlan(name, app, fws, m, savePath, page, env);
      var css := Combined(Str(name) + ".css", app, Gather(fws, m, env.isStylesheet));
      var js := Combined(Str(name) + ".js", app, Gather(fws, m, env.isScript));
      var link := RootDocument.StylesheetLink(page.urlPrefix + env.url(css));
      var tag := RootDocument.ScriptTag(page.urlPrefix + env.url(js));
      var html := ProductionPage(name, app, link, tag);
      var lines := RootDocument.Lines(page, Some(fws), Some(link), Some(tag), env);
      && |plan| > 0
      && lines.Some? && link in lines.value && tag in lines.value
      && |Join(lines.value, "\n")| > 0
      && plan[|plan| - 1] == Emit(Write(env.pathJoin(savePath, env.savePath(html)), Join(lines.value, "\n")))
  {
    var css := Combined(Str(name) + ".css", app, Gather(fws, m, env.isStylesheet));
    var js := Combined(Str(name) + ".js", app, Gather(fws, m, env.isScript));
    var link := RootDocument.StylesheetLink(page.urlPrefix + env.url(css));
    var tag := RootDocument.ScriptTag(page.urlPrefix + env.url(js));
    var html := ProductionPage(name, app, link, tag);
    var text := RootDocument.Render(page, Some(fws), Some(link), Some(tag), env).value;
    RootDocument.OverridesVerbatim(page, Some(fws), Some(link), Some(tag), env);
    RootDocument.PageFrame(page, Some(fws), Some(link), Some(tag), env);
    assert |text| > 0;
    var plan := SavePlan(name, app, fws, m, savePath, page, env);
    assert plan[|plan| - 1] == SaverStep(Response(Some(text), None, None, None), env.pathJoin(savePath, env.savePath(html)));
  }

  /** The two bundles `save` writes hold exactly the framework-owned stylesheets and scripts
      of the server's file map. */
  lemma BundleMembers(name: Option<string>, app: object, fws: seq<Framework>, m: FileMap,
                      env: Collaborators, f: File)
    ensures var css := Combined(Str(name) + ".css", app, Gather(fws, m, env.isStylesheet));
      var js := Combined(Str(name) + ".js", app, Gather(fws, m, env.isScript));
      && (f in css.children <==>
            env.isStylesheet(f) && f in Values(m) && exists fw :: fw in fws && f.owner == fw)
      && (f in js.children <==>
            env.isScript(f) && f in Values(m) && exists fw :: fw in fws && f.owner == fw)
  {
    GatherMembers(fws, m, env.isStylesheet, f);
    GatherMembers(fws, m, env.isScript, f);
  }

  lemma {:induction false} SaveAllLength(files: seq<File>, savePath: string, env: Collaborators)
    ensures |SaveAll(files, savePath, env)| == |files|
    decreases |files|
  {
    if files != [] {
      SaveAllLength(files[..|files| - 1], savePath, env);
    }
  }
}
