/** The records the application and the server pass around: files (assets), the response
    record a handler pipeline produces, the server's URL-to-file map, and frameworks (bundles).
    The classes that define files, frameworks and handler pipelines are not part of this model;
    what the core reads from them is kept here as plain data, and what it asks of them
    (`url()`, `savePath()`, the classifiers, running a pipeline) as the functions of
    `Collaborators`. */
module Assets {
  import opened Js

  /** The record a handler pipeline hands to its completion callback. */
  datatype Response = Response(
    data: Option<string>,
    contentType: Option<string>,
    lastModified: Option<int>,
    status: Option<int>)

  /** Where a file's content comes from: its source (read by the `file` stage), or the
      application's root document, rendered with the two optional override blocks. */
  datatype Content = Source | RootPage(stylesheets: Option<string>, scripts: Option<string>)

  /** A file as the application creates it: `owner` is its `framework` property (a framework,
      the application itself, or nothing), `stages` names the handler pipeline it was given. */
  datatype File = File(
    path: Option<string>,
    owner: object?,
    stages: seq<string>,
    content: Content,
    isHtml: bool,
    symlink: Option<File>,
    children: seq<File>)

  /** Header fields in the order they were set (incoming names are lower case). */
  type Headers = Dict<string>

  /** An incoming request: method, raw URL, the path of the parsed URL, header fields. */
  datatype Request = Request(verb: string, url: string, pathname: string, headers: Headers)

  /** The operations of the file, handler and date modules that the core calls but that are
      not part of this model. */
  datatype Collaborators = Collaborators(
    url: File -> string,
    savePath: File -> string,
    isStylesheet: File -> bool,
    isScript: File -> bool,
    isResource: File -> bool,
    handle: (File, Option<Request>) -> Response,
    pathJoin: (string, string) -> string,
    shortLanguage: string -> Option<string>,
    httpDateTime: int -> string)

  /** The server's URL-to-file map. */
  type FileMap = Dict<File>

  /** The five build flags an application hands down to its frameworks. */
  datatype FlagKey = CombineScripts | CombineStylesheets | ValidateScripts | MinifyScripts | MinifyStylesheets

  /** The keys in the order the application visits them. */
  const FlagKeys: seq<FlagKey> := [CombineScripts, CombineStylesheets, ValidateScripts, MinifyScripts, MinifyStylesheets]

  datatype BuildFlags = BuildFlags(
    combineScripts: bool,
    combineStylesheets: bool,
    validateScripts: bool,
    minifyScripts: bool,
    minifyStylesheets: bool)
  {
    /** `this[key]` */
    function Get(k: FlagKey): bool {
      match k
      case CombineScripts => combineScripts
      case CombineStylesheets => combineStylesheets
      case ValidateScripts => validateScripts
      case MinifyScripts => minifyScripts
      case MinifyStylesheets => minifyStylesheets
    }

    /** `this[key] = true` */
    function Raise(k: FlagKey): (r: BuildFlags)
      ensures r.Get(k)
      ensures forall other :: other != k ==> r.Get(other) == Get(other)
    {
      match k
      case CombineScripts => this.(combineScripts := true)
      case CombineStylesheets => this.(combineStylesheets := true)
      case ValidateScripts => this.(validateScripts := true)
      case MinifyScripts => this.(minifyScripts := true)
      case MinifyStylesheets => this.(minifyStylesheets := true)
    }
  }

  const NoFlags := BuildFlags(false, false, false, false, false)

  /** A framework (bundle). Its ordered stylesheets and scripts and the URL-to-file entries
      its own build registers are computed by the framework module, which is not part of
      this model, and are taken as given; the fields the application writes are variables. */
  class Framework {
    const orderedStylesheets: seq<File>
    const orderedScripts: seq<File>
    const builtFiles: FileMap
    var server: object?
    var buildVersion: Option<string>
    var flags: BuildFlags

    constructor (stylesheets: seq<File>, scripts: seq<File>, built: FileMap,
                 version: Option<string>, initialFlags: BuildFlags)
      ensures orderedStylesheets == stylesheets && orderedScripts == scripts && builtFiles == built
      ensures server == null && buildVersion == version && flags == initialFlags
    {
      orderedStylesheets, orderedScripts, builtFiles := stylesheets, scripts, built;
      server, buildVersion, flags := null, version, initialFlags;
    }
  }
}
