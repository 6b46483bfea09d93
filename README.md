# Garcon, modelled in Dafny

Garcon is a development server and build tool for SproutCore applications. An **application**
(`lib/app.js`) holds a list of **frameworks**, its build settings and a reference to a
**server**. It can do four things:

- register its files and a root document on the server (`build`);
- render the HTML root page (`rootContent`);
- write the production files to disk (`save`);
- write an offline-cache manifest of the build directory (`manifest`).

The **server** (`lib/server.js`) keeps a URL-to-file map. A request either:

- gets the file registered under its path, through that file's handler pipeline;
- is forwarded to a proxy;
- or gets 404.

This project models that core. Values are datatypes and functions; the objects whose fields
the code updates are classes:

- `Garcon.App`, `Garcon.Server`;
- `Assets.Framework` (the fields the application writes);
- `Countdown.Builder`, the completion counter of `build`;
- `ManifestScan.Scanner`, the walk of the build directory.

The modules:

| module | file | contents |
|---|---|---|
| `Js` | `js.dfy` | JavaScript operations the code relies on: `indexOf`, `replace` of a first match, `join`, decimal rendering of numbers; an insertion-ordered string-keyed dictionary (`Dict`) for object and array maps |
| `Assets` | `assets.dfy` | files, pipeline responses, build flags, frameworks, and the `Collaborators` record of functions the core calls but does not define |
| `RootDocument` | `root_document.dfy` | the root page, line by line |
| `Countdown` | `countdown.dfy` | the fan-in of `build` |
| `Saving` | `saving.dfy` | what `save` writes and in which order |
| `ManifestScan` | `manifest_scan.dfy` | the walk of `manifest` and the manifest text |
| `Routing` | `routing.dfy` | dispatch, served replies and proxied requests |
| `Garcon` | `garcon.dfy` | the `App` and `Server` classes |

`App` and `Server` share a module because each refers to the other.

Asynchronous callbacks are modelled as a sequential state machine:

- In `build`, the order in which frameworks complete is a parameter (`completed`, any
  rearrangement of the frameworks list).
- In `manifest`, the event loop completes one outstanding file-system call at a time. It picks
  any of them (`Scanner.Run`), and everything proved holds whichever it picks.

## Model

| member | source | states |
|---|---|---|
| Garcon.App.constructor | lib/app.js:14-37 | Each modelled option that is given replaces its default (`Configured` lists the resulting fields). The build version defaults to the decimal digits of the current time. The build language defaults to `english`, the URL prefix to `../`, the theme to `sc-theme` and the save path to `build`. There are no frameworks and no files yet, and there is no server. |
| Garcon.App.AddFramework | lib/app.js:44-68 | The framework is appended to the list (which is created when missing) and returned. It gets the application's server. It gets the application's build version only when it has none of its own. Afterwards each build flag is raised exactly when the framework or the application had it raised. |
| Garcon.EveryFlagKeyListed | lib/app.js:59-63 | The flag loop visits every build flag. |
| Garcon.App.AddFrameworks | lib/app.js:70-80 | An empty list leaves the frameworks untouched. Otherwise the list is appended in order, and each framework gets the server, the build version and the flags as `AddFramework` gives them. |
| Garcon.App.RootContent | lib/app.js:88-156 | The root page renders exactly when there is a frameworks list, or when both the stylesheet and the script overrides are supplied. Otherwise the render dies on the missing list. |
| RootDocument.Render | lib/app.js:88-156 | The same if-and-only-if, stated on the page settings alone. |
| RootDocument.PageFrame | lib/app.js:95-152 | A rendered page opens with the doctype line and the `<html>` line carrying the short language code. It closes with `</body>` and `</html>`. |
| RootDocument.OverridesVerbatim | lib/app.js:111-145 | Supplied stylesheet and script overrides each appear verbatim as one line, in place of the per-asset lines. The page then has exactly 12 lines plus one per optional HTML fragment. |
| RootDocument.StylesheetLinksAppend | lib/app.js:111-121 | Frameworks are visited in list order. The links of two lists of frameworks, one after the other, are the links of the first list followed by those of the second. |
| RootDocument.OwnedStylesheetLinked | lib/app.js:114-120 | Every stylesheet a framework lists and owns gets a `<link>` line in the page. |
| RootDocument.LinkedStylesheetOwned | lib/app.js:114-120 | Every `<link>` line of the page belongs to a stylesheet that some framework lists and owns. |
| RootDocument.ScriptTagCount | lib/app.js:135-145 | The page has one `<script>` line for each script of each framework, with no ownership filter. |
| RootDocument.TagsLength | lib/app.js:137-139 | The script lines of a framework are its ordered scripts, one tag each, in order. |
| Garcon.App.BuildRoot | lib/app.js:158-168 | Succeeds exactly when there is a server. On success the root document is registered under its URL. A link to it is registered under the application name, and that name then looks up the link. Every key already on the server is kept, and keys stay unique. Only the server's file map can change. |
| Garcon.App.Build | lib/app.js:170-195 | Dies exactly when the frameworks list or the server is missing. With a frameworks list, the application's own file map is reset to empty, even when the server is then found missing. The server's map becomes the old map with the root document put under its URL and the link under the application name, then each framework's entries put over it in completion order (`Registered`). No earlier key is lost, the name and every framework's keys are present, and keys stay unique. The callback runs exactly once when there is a callback and at least one framework, and never otherwise. Only the two file maps can change. |
| Garcon.Server.Register | lib/app.js:185-189 | A completed framework's entries are put into the server map: old and new keys are all present, and keys stay unique. |
| Garcon.Server.BuildDone | lib/app.js:183-190 | A completion puts the entries into the server map, one after another, and counts down once. |
| Garcon.Server.AwaitBuilds | lib/app.js:180-191 | After every framework completes once, in the given order, the countdown has seen all completions. The server map is the old map with each framework's entries put over it in that order. |
| Garcon.Server.BuildFrameworks | lib/app.js:174-191 | Under one countdown, the server map becomes the registration of every framework in completion order. The callback runs exactly once when there is a callback and at least one framework, and never otherwise. |
| Garcon.RegisteredKeys | lib/app.js:185-189 | Registering keeps every key already in the map, adds every key of every completed framework, and keeps keys unique. |
| Garcon.RegisteredOwn | lib/app.js:185-189 | When no two frameworks share a URL, a key registered by a completed framework finds that framework's file, whatever completed after it. |
| Garcon.RegisteredUntouched | lib/app.js:185-189 | A key that no completed framework registers finds what it found before, whether or not the frameworks share keys among themselves. |
| Js.PutAllAbsent | lib/app.js:187-189 | Copying entries into a map leaves a key that none of them carries as it was, repeated keys among the entries or not. |
| Garcon.RegisteredAll | lib/app.js:180-191 | When no two frameworks share a URL, after all of them complete in any order each framework's URL finds that framework's file, and every other key finds what it found before the builds. |
| Garcon.BuiltKeys | lib/app.js:158-191 | After the root document, its link and every framework are registered, every earlier key, the link's key and every framework's keys are present, and keys stay unique. |
| Js.PutAllLookup | lib/app.js:187-189 | After copying entries with unique keys into a map, a key of the entries finds that entry's value, and any other key finds what it found before. |
| Countdown.ExactlyOnceOnLast | lib/app.js:174-191 | With `n` frameworks each completing once, the callback runs once, at count 0, when there is a callback and `n > 0`. It never runs otherwise: with zero frameworks no completion ever happens, so `build` never calls back. |
| Countdown.SilentBeforeZero | lib/app.js:176-178 | While the count is still positive the callback has not run. |
| Countdown.ExtraCompletionsFire | lib/app.js:176-189 | The test is `count <= 0`, so every completion past the last one runs the callback again. |
| Countdown.Builder.Completed | lib/app.js:186-189 | One completion lowers the count by one. It runs the callback exactly when the count is then at zero or below. |
| Saving.SaverStep | lib/app.js:203-220 | A Saver crashes exactly when its response carries no data. It writes exactly when the data is non-empty, and the write is that data at the Saver's path. |
| Saving.OutcomeFacts | lib/app.js:203-278 | A run of Savers fails exactly when one of them crashes. Otherwise every write comes from a Saver that emitted it, and every emitted write is performed. |
| Saving.GatherMembers | lib/app.js:224-236 | A file is in a group exactly when the group's filter accepts it, it is in the server map and one of the frameworks owns it. |
| Saving.OwnedInMembers | lib/app.js:226-235 | The same for one framework. |
| Saving.GatherAppend | lib/app.js:224-236 | Groups respect framework order. |
| Saving.SaveAllHas | lib/app.js:232-233 | Every resource of the group gets a Saver. |
| Saving.SaveAllLength | lib/app.js:232-233 | There is one Saver per resource. |
| Saving.Partition | lib/app.js:225-236 | The walk of the server map for one framework yields, in map order, the stylesheets and scripts it owns, plus the Saver steps of the resources it owns. |
| Garcon.App.Save | lib/app.js:197-278 | Dies without a frameworks list. Dies without a server when there is a framework to walk. Otherwise its outcome is that of the save plan: the resource Savers, then the combined stylesheet, the combined script and the production page. |
| Saving.SavePlanShape | lib/app.js:224-277 | The plan has exactly three Savers more than there are resources. The third- and second-to-last save the combined stylesheet and the combined script. The resources given Savers are exactly the resources of the map that one of the frameworks owns, and each of them gets its Saver. |
| Saving.SavedPage | lib/app.js:238-277 | The production page contains the `<link>` of the combined stylesheet and the `<script>` of the combined script. It is always written: the last step writes the rendered page, which is never empty, at the page's save path. |
| Saving.BundleMembers | lib/app.js:224-256 | The combined stylesheet holds exactly the framework-owned stylesheets of the server map, and the combined script exactly the framework-owned scripts. |
| Garcon.App.Manifest | lib/app.js:280-354 | The build directory is `<savePath>/<buildVersion>`, and the manifest is written as `app.manifest` in it. The manifest lists each reachable file exactly once, with hidden entries skipped and paths relative to that directory. No listed path has a segment starting with `.`. A missing directory is an error. |
| ManifestScan.Scanner.constructor | lib/app.js:284-296 | The walk starts with one pending `stat` of the root, a counter of 1 and no files. It owes every reachable file. |
| ManifestScan.Scanner.Scan | lib/app.js:293-296 | Scanning a path counts one more pending call and issues its `stat`. |
| ManifestScan.Scanner.CallbackIfDone | lib/app.js:289-291 | The callback receives the collected files exactly when the counter is at zero or below. |
| ManifestScan.Scanner.Run | lib/app.js:284-324 | However the outstanding calls are ordered, the walk ends with nothing pending. The callback has run exactly once, with a list holding each reachable file exactly once. |
| ManifestScan.Scanner.Complete | lib/app.js:296-322 | A completing call leaves the pending list, and the calls it issues (`Issued`) join the end of it. The files gain what it records (`Recorded`). The bookkeeping stays consistent and what is left to do strictly drops. The files are reported exactly when nothing is left pending. |
| ManifestScan.Scanner.Finish | lib/app.js:296-321 | The callback of a completed call appends the calls it issues to the pending list and what it records to the files, and reports the files exactly when nothing is left pending. |
| ManifestScan.Scanner.StatDone | lib/app.js:296-321 | A `stat` of a file records its path with the root removed and issues nothing. A `stat` of a directory records nothing, and its `readdir` joins the end of the pending list. |
| ManifestScan.Scanner.List | lib/app.js:303-315 | A listing scans every entry whose name does not start with `.`, in listing order, and counts each. |
| ManifestScan.Scanner.ReadDirDone | lib/app.js:303-317 | A completed `readdir` records nothing. The `stat` calls of its visible entries join the end of the pending list, in listing order. |
| ManifestScan.ChildStatsYield | lib/app.js:308-312 | The `stat` calls issued by a listing owe exactly the files below its visible entries. |
| ManifestScan.ListingDone | lib/app.js:303-315 | Replacing a `readdir` by the `stat` calls of its visible entries changes nothing owed, and strictly lowers the work left. |
| ManifestScan.Started | lib/app.js:327-352 | The initial state is consistent. |
| ManifestScan.FileStatted | lib/app.js:317-319 | Recording a file's path and discharging its `stat` keeps the bookkeeping consistent. |
| ManifestScan.DirStatted | lib/app.js:300-302 | Replacing a directory's `stat` by its `readdir` keeps the bookkeeping consistent and lowers the work left. |
| ManifestScan.Listed | lib/app.js:303-315 | Completing a listing keeps the bookkeeping consistent. |
| ManifestScan.RemovePending | lib/app.js:296-298 | Taking a call out of the pending list removes exactly what it owed. |
| ManifestScan.ReachableShape | lib/app.js:308-318 | Every path the walk reaches from a directory lies below that directory, and none of its later segments starts with `.`. |
| ManifestScan.CollectedShape | lib/app.js:308-318 | No collected manifest path has a segment that starts with `.`. |
| ManifestScan.ChildStatsWeight | lib/app.js:308-312 | The calls a listing issues weigh no more than its entries, which makes the walk terminate. |
| ManifestScan.ManifestText | lib/app.js:330-340 | The manifest text opens with its `CACHE MANIFEST` header, closes with the `NETWORK:` wildcard section, and holds nothing else besides its cache lines. |
| ManifestScan.ManifestLayout | lib/app.js:330-340 | The manifest text opens with its `CACHE MANIFEST` header and closes with the `NETWORK:` wildcard section. The line `/<buildVersion><file>` of each file sits right after the lines of the files before it. |
| ManifestScan.CacheLinesAppend | lib/app.js:335-337 | The cache section of two lists, one after the other, is the section of the first followed by that of the second. |
| Garcon.Server.constructor | lib/server.js:14-31 | The port defaults to 8000, the proxy prefix to the empty string and cross-site requests to off. The other options are taken as given, and no application or file is registered yet. |
| Garcon.Server.AddApp | lib/server.js:39-48 | An existing application is adopted. Settings create a fresh application without frameworks. Either way the application gets this server and is appended to the list. |
| Garcon.Server.Serve | lib/server.js:57-79 | The file's pipeline is given the request. The reply has status 200 unless the pipeline set one, and the pipeline's data as its body. Header names are unique. Each header name carries exactly its expected field: content type and modification date when given; with cross-site requests allowed, the `*` allow-origin header and an echo of the non-empty headers a preflight asked for; nothing else. |
| Routing.ServeReplyFields | lib/server.js:57-79 | The same facts about the reply as a function. |
| Routing.ServeHeadersUnique | lib/server.js:59-75 | A served reply never repeats a header name. |
| Garcon.Server.Respond | lib/server.js:126-140 | This is the corrected dispatch `Routing.RouteOf` of "## Findings"; as written, a key that every array inherits crashes (`Routing.RouteAsWritten`). A request whose path (without the leading `/`) is a registered key is served through that file's pipeline, given the request. Otherwise it is forwarded when a proxy host and port are set, and answered 404 when they are not. |
| Routing.RouteOfCases | lib/server.js:126-140 | A request is served exactly when its key is registered, and proxied exactly when it is not and a proxy is set. |
| Routing.ProxyUrlPrefixOnce | lib/server.js:85-88 | For every prefix, the empty default included, the forwarded URL contains the proxy prefix. It is the URL itself when the URL already contains the prefix, and the prefix followed by the URL otherwise. Rewriting it again changes nothing. |
| Routing.ProxyUrlAddThenRemove | lib/server.js:85-91 | For every prefix, when the remove-prefix equals it, a URL without the prefix is forwarded unchanged, and a URL that starts with it loses it. |
| Routing.HostHeaderNamesPort | lib/server.js:101-102 | The `host` header sent to the proxy starts with the proxy host. It is just the host when the port is 80. Otherwise the host is followed by `:` and the decimal digits of the port, which read back as the port. |
| Routing.ProxyUrl | lib/server.js:85-91 | The forwarded URL is a tail of the prefix followed by the URL. Without a remove-prefix it always contains the prefix. |
| Routing.HostHeader | lib/server.js:101-102 | The `host` header starts with the proxy host, and it is the host alone exactly when the port is 80. |
| Routing.Forward | lib/server.js:93-104 | The request made to the proxy goes to the proxy's host and port with the incoming method. Its `host` header names the proxy, and its header names stay unique when they were. |
| Garcon.Server.ShouldProxy | lib/server.js:35-37 | A request whose key is not registered goes to the proxy exactly when both a proxy host and a proxy port are set. |
| Routing.ForwardHeaders | lib/server.js:101-104 | The forwarded request keeps every incoming header except `host`, which names the proxy. |
| Routing.LengthRequestCrashes | lib/server.js:126-131 | The map is created as an array (lib/server.js:26). As written, `GET /length` fails unless a file is registered under `length`, whatever the proxy settings and whatever further names the engine's arrays inherit. The corrected dispatch sends it to the proxy or to 404. |
| Routing.RouteAgreesOffInheritedNames | lib/server.js:126-140 | The set of inherited names is a parameter; `Routing.CoreInheritedNames` lists the members of `Array.prototype` and `Object.prototype` defined by the fifth edition of ECMA-262, `__proto__` and the four legacy accessor methods. For any such set, the dispatch as written agrees with the corrected one exactly when the key is registered or not inherited, and crashes otherwise. |
| Assets.BuildFlags.Raise | lib/app.js:59-63 | Raising a flag sets that flag and leaves the others as they were. |
| Js.IndexOf | lib/server.js:86 | The result is the first position where the substring occurs, or -1 when it occurs nowhere. |
| Js.IndexOfZeroIffPrefix | lib/server.js:89 | `indexOf` is 0 exactly when the string starts with the substring. |
| Js.ReplacePrefixByEmpty | lib/app.js:318 | Replacing a leading root directory by the empty string removes exactly that prefix. |
| Js.JoinAppend | lib/app.js:152 | Joining two non-empty lists of lines, one after the other, is joining each and putting the separator between them. |
| Js.DecimalRoundTrip | lib/server.js:102 | The decimal rendering of a number, as `':' + port` produces it, has only digits and reads back as the number. |
| Js.PutLookup | lib/app.js:163-167 | After `m[key] = v`, `key` finds `v` and every other key finds what it found before. |
| Js.PutKeys | lib/app.js:163-167 | Assigning adds the key at the end when it is new, and otherwise leaves the key order alone. Keys stay unique. |
| Js.PutAllKeys | lib/app.js:187-189 | Copying entries into a map keeps its keys and adds theirs, and keys stay unique. |
| Js.LookupEntry | lib/server.js:128 | With unique keys, each entry's key finds that entry's value. |

## Left out

- HTTP transport (`listen`, the proxy's socket and streaming) is not part of this model. The
  proxy's answer is an input of `Garcon.Server.Respond`, and a connection error answers 404.
- The file system is not part of this model. A directory tree is an input of
  `Garcon.App.Manifest`, and an absent tree stands for the `stat` error on a missing build
  directory. Writing files is modelled as a list of `Write` values. `createDirectory` and
  write errors are left out.
- Code outside the two core files is passed in as the functions of `Collaborators`. That
  covers the handler pipelines (`handle`), `path.join`, a file's `url()` and `savePath()`,
  `isStylesheet`/`isScript`/`isResource`, `toShortLanguage` and `Date.format`. The framework
  module is not part of this model: a framework's ordered stylesheets and scripts, and the
  entries its own build registers, are given.
- The clock is the `now` parameter of `Garcon.App.constructor`.
- Framework construction from options (`nameFor`, `urlFor`, the `new Framework(...)` calls in
  `addFrameworks` and `addSproutcore`) is not part of this model. `addSproutcore` only adds the
  SproutCore frameworks that way and is left out with it.
- `setDirectory` and logging are left out: neither changes what is modelled. The
  `sharedHandlers.urlPrefix` global, which handler stages read, is abstracted into
  `Collaborators.handle`. `url.parse` is replaced by the request's `pathname` field.
- `Garcon.App.Build` does not model the order of asynchronous completions beyond the
  `completed` parameter. That parameter is any rearrangement of the frameworks list, so each
  framework completes exactly once.
- Garcon.App.Build: every framework's build is taken to register its files in the
  application's server. In the code a framework registers in its own `server`, which
  `addFramework` copies from the application (lib/app.js:53). A framework added before
  `addApp`, or attached to another server, registers elsewhere or nowhere. `Framework.server`
  is not consulted by the model.
- Garcon.App.Save: the Savers' callbacks run asynchronously (lib/app.js:203-220), so the
  writes are issued in completion order, not in issue order. A Saver that crashes on missing
  data (lib/app.js:207) ends the process after the earlier Savers' writes were issued, with no
  rollback. The model runs the Savers in issue order, and a crash yields a failure with no
  writes. Neither the completion order of the writes nor the partial writes before a crash
  is modelled.
- Garcon.App.constructor: the options are a record of the known settings, and an absent or
  `null` option keeps the default. `for (key in options)` (lib/app.js:34-36) copies every key
  as given. That includes `server`, `frameworks` and `files`, non-boolean flag values, and
  an explicit `null` such as `buildVersion: null`, which the code keeps. None of this is modelled.
  The default build version is the number `new Date().getTime()` (lib/app.js:19). The code
  renders it as decimal only where it is concatenated (lib/app.js:336). The model stores its
  decimal string from the start. So it does not capture what `path.join` does with the number
  at lib/app.js:327: depending on the Node version, `path.join` skips a non-string argument
  or rejects it.
- Garcon.Server.constructor: the same holds for `new Server(options)` (lib/server.js:28-30).
  An explicit `proxyPrefix: null` would make the proxy path die reading its length
  (lib/server.js:85). The model keeps the empty default instead.
- Routing.HostHeaderNamesPort: ports are integers. A string port from the options, which the
  loose `!= 80` test (lib/server.js:102) compares as a number and the `host` header then
  carries as written, is not modelled.
- Garcon.App.Manifest: the directory tree is finite data in which every listed entry can be
  stat'ed and read. A `stat` or `readdir` error below the build directory, which the code
  throws (lib/app.js:299, lib/app.js:306), and symlink cycles, which make the walk endless,
  are not modelled. Only the missing build directory is.
- `ManifestScan.Scanner.Run` chooses which outstanding call completes next nondeterministically
  rather than by I/O timing.
- JavaScript enumerates integer-like keys (`"0"`, `"1"`) of objects and arrays before other
  keys. `Js.Dict` keeps plain insertion order, so `save`'s map order is modelled for
  non-numeric URLs only.
- The `html = file` assignment inside the partition loop of `save` (lib/app.js:234) is
  overwritten before it is read, so it is left out.

## Findings

| source | as written | input that shows it | evidently intended | confidence | as-written member | corrected member |
|---|---|---|---|---|---|---|
| lib/server.js:126-131 | The server's file map is created as an array (`[]`, lib/server.js:26), and dispatch tests `files[path] === undefined` (lib/server.js:128-130). Names every array inherits (`length`, `push`, `constructor`, ...) are therefore found, and `serve` (lib/server.js:58) then fails reading `handle` of a number or a function. | `GET /length` with no file registered under `length`; Routing.LengthRequestCrashes states it | Only registered keys are served. Any other request goes to the proxy or gets 404; Routing.RouteOfCases proves this of the corrected dispatch, which Garcon.Server.Respond uses. | not executed | Routing.RouteAsWritten | Routing.RouteOf |
