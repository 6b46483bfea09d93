/** The request side of the development server: which way a request goes (a registered
    file, the proxy, or 404), the reply a served file gets, and the request forwarded to the
    proxy. The HTTP transport and the proxy connection are not part of this model; the
    proxy's answer is an input. */
module Routing {
  import opened Js
  import opened Assets

  /** What the server writes back: status, header fields and body. */
  datatype Reply = Reply(status: int, headers: Headers, body: Option<string>)

  const NotFound := Reply(404, [], None)

  /** The header fields of a served file's reply: content type and modification date when the
      pipeline gave them, and with cross-site requests allowed, the allow-origin wildcard and
      an echo of the headers the preflight asked for. */
  function ServeHeaders(r: Response, request: Headers, cors: bool, httpDateTime: int -> string): Headers
  {
    var h0: Headers := [];
    var h1 := if r.contentType.Some? then Put(h0, "Content-Type", r.contentType.value) else h0;
    var h2 := if r.lastModified.Some? then Put(h1, "Last-Modified", httpDateTime(r.lastModified.value)) else h1;
    if !cors then h2
    else
      var h3 := Put(h2, "Access-Control-Allow-Origin", "*");
      var asked := Lookup(request, "access-control-request-headers");
      if Truthy(asked) then Put(h3, "Access-Control-Allow-Headers", asked.value) else h3
  }

  /** The reply to a request for a registered file, given its pipeline's response. */
  function ServeReply(r: Response, request: Headers, cors: bool, httpDateTime: int -> string): Reply
  {
    Reply(r.status.GetOr(200), ServeHeaders(r, request, cors, httpDateTime), r.data)
  }

  /** The header a served reply carries under `name`: content type and modification date
      when the pipeline gave them; with cross-site requests allowed, the allow-origin wildcard
      and an echo of the (non-empty) headers a preflight asked for; nothing else. */
  function ExpectedHeader(r: Response, request: Headers, cors: bool, httpDateTime: int -> string,
                          name: string): Option<string>
  {
    var asked := Lookup(request, "access-control-request-headers");
    if name == "Content-Type" then r.contentType
    else if name == "Last-Modified" then
      (if r.lastModified.Some? then Some(httpDateTime(r.lastModified.value)) else None)
    else if name == "Access-Control-Allow-Origin" then (if cors then Some("*") else None)
    else if name == "Access-Control-Allow-Headers" then (if cors && Truthy(asked) then asked else None)
    else None
  }

  /** A served reply has status 200 unless the pipeline set one, the pipeline's data as its
      body, and under every header name exactly the expected field. */
  lemma ServeReplyFields(r: Response, request: Headers, cors: bool, httpDateTime: int -> string, name: string)
    ensures var reply := ServeReply(r, request, cors, httpDateTime);
      && reply.status == (if r.status.Some? then r.status.value else 200)
      && reply.body == r.data
      && Lookup(reply.headers, name) == ExpectedHeader(r, request, cors, httpDateTime, name)
  {
    var h0: Headers := [];
    var h1 := if r.contentType.Some? then Put(h0, "Content-Type", r.contentType.value) else h0;
    var h2 := if r.lastModified.Some? then Put(h1, "Last-Modified", httpDateTime(r.lastModified.value)) else h1;
    var h3 := Put(h2, "Access-Control-Allow-Origin", "*");
    var asked := Lookup(request, "access-control-request-headers");
    if r.contentType.Some? {
      PutLookup(h0, "Content-Type", r.contentType.value, name);
    }
    assert Lookup(h1, name) == if name == "Content-Type" then r.contentType else None;
    if r.lastModified.Some? {
      PutLookup(h1, "Last-Modified", httpDateTime(r.lastModified.value), name);
    }
    if cors {
      PutLookup(h2, "Access-Control-Allow-Origin", "*", name);
      if Truthy(asked) {
        PutLookup(h3, "Access-Control-Allow-Headers", asked.value, name);
      }
    }
  }

  /** A served reply never repeats a header name. */
  lemma ServeHeadersUnique(r: Response, request: Headers, cors: bool, httpDateTime: int -> string)
    ensures UniqueKeys(ServeHeaders(r, request, cors, httpDateTime))
  {
    var h0: Headers := [];
    var h1 := if r.contentType.Some? then Put(h0, "Content-Type", r.contentType.value) else h0;
    var h2 := if r.lastModified.Some? then Put(h1, "Last-Modified", httpDateTime(r.lastModified.value)) else h1;
    var h3 := Put(h2, "Access-Control-Allow-Origin", "*");
    var asked := Lookup(request, "access-control-request-headers");
    if r.contentType.Some? {
      PutKeys(h0, "Content-Type", r.contentType.value);
    }
    if r.lastModified.Some? {
      PutKeys(h1, "Last-Modified", httpDateTime(r.lastModified.value));
    }
    PutKeys(h2, "Access-Control-Allow-Origin", "*");
    if Truthy(asked) {
      PutKeys(h3, "Access-Control-Allow-Headers", asked.value);
    }
  }

  /** The URL forwarded to the proxy: the proxy prefix is put in front when it is non-empty
      and occurs nowhere in the URL; then the remove-prefix, when set and non-empty, is cut
      off the front if the URL starts with it. */
  function ProxyUrl(url: string, prefix: string, removePrefix: Option<string>): (r: string)
    ensures !Truthy(removePrefix) ==> IndexOf(r, prefix) >= 0
    ensures exists j :: 0 <= j <= |prefix + url| && r == (prefix + url)[j..]
  {
    var prefixed := if |prefix| > 0 && IndexOf(url, prefix) < 0 then prefix + url else url;
    var start := if prefixed == prefix + url && |prefix| > 0 then 0 else |prefix|;
    assert prefixed == (prefix + url)[start..];
    IndexOfZeroIffPrefix(prefix + url, prefix);
    if Truthy(removePrefix) && IndexOf(prefixed, removePrefix.value) == 0 then
      IndexOfZeroIffPrefix(prefixed, removePrefix.value);
      assert prefixed[|removePrefix.value|..] == (prefix + url)[start + |removePrefix.value|..];
      prefixed[|removePrefix.value|..]
    else prefixed
  }

  /** Without a remove-prefix, the forwarded URL contains the prefix, is the URL itself when
      the URL already contains it, and forwarding it again changes nothing. */
  lemma ProxyUrlPrefixOnce(url: string, prefix: string)
    ensures var out := ProxyUrl(url, prefix, None);
      && IndexOf(out, prefix) >= 0
      && (IndexOf(url, prefix) >= 0 ==> out == url)
      && (IndexOf(url, prefix) < 0 ==> out == prefix + url)
      && ProxyUrl(out, prefix, None) == out
  {
    if IndexOf(url, prefix) < 0 {
      IndexOfZeroIffPrefix(prefix + url, prefix);
      assert (prefix + url)[..|prefix|] == prefix;
    }
  }

  /** When the remove-prefix is the prefix itself, a URL without it is forwarded unchanged
      (added, then cut), and a URL that starts with it loses it. */
  lemma ProxyUrlAddThenRemove(url: string, prefix: string)
    ensures IndexOf(url, prefix) < 0 ==> ProxyUrl(url, prefix, Some(prefix)) == url
    ensures StartsWith(url, prefix) ==> ProxyUrl(url, prefix, Some(prefix)) == url[|prefix|..]
  {
    IndexOfZeroIffPrefix(url, prefix);
    if IndexOf(url, prefix) < 0 {
      IndexOfZeroIffPrefix(prefix + url, prefix);
      assert (prefix + url)[..|prefix|] == prefix;
      assert (prefix + url)[|prefix|..] == url;
    }
  }

  /** The `host` header sent to the proxy: the host, with `:port` unless the port is 80. */
  function HostHeader(host: string, port: int): (h: string)
    ensures StartsWith(h, host)
    ensures h == host <==> port == 80
  {
    assert (host + ":" + IntToDecimal(port))[..|host|] == host;
    if port != 80 then host + ":" + IntToDecimal(port) else host
  }

  /** The host header names the proxy host and, unless it is 80, its port, whose decimal
      digits read back as the port. */
  lemma HostHeaderNamesPort(host: string, port: nat)
    ensures var h := HostHeader(host, port);
      StartsWith(h, host)
      && (port == 80 ==> h == host)
      && (port != 80 ==> |h| > |host| && h[|host|] == ':' && AllDigits(h[|host| + 1..])
                         && DecimalValue(h[|host| + 1..]) == port)
  {
    var h := HostHeader(host, port);
    if port != 80 {
      DecimalRoundTrip(port);
      assert h[|host| + 1..] == NatToDecimal(port);
    }
    assert h[..|host|] == host;
  }

  /** The request made to the proxy. */
  datatype Outbound = Outbound(port: int, host: string, verb: string, url: string, headers: Headers)

  /** `proxy`: same method, rewritten URL, incoming headers with `host` replaced. */
  function Forward(req: Request, proxyHost: string, proxyPort: int, prefix: string,
                   removePrefix: Option<string>): (out: Outbound)
    ensures out.port == proxyPort && out.host == proxyHost && out.verb == req.verb
    ensures Lookup(out.headers, "host") == Some(HostHeader(proxyHost, proxyPort))
    ensures UniqueKeys(req.headers) ==> UniqueKeys(out.headers)
  {
    PutLookup(req.headers, "host", HostHeader(proxyHost, proxyPort), "host");
    PutKeys(req.headers, "host", HostHeader(proxyHost, proxyPort));
    Outbound(proxyPort, proxyHost, req.verb, ProxyUrl(req.url, prefix, removePrefix),
             Put(req.headers, "host", HostHeader(proxyHost, proxyPort)))
  }

  /** The forwarded request keeps every incoming header except `host`, which names the proxy. */
  lemma ForwardHeaders(req: Request, proxyHost: string, proxyPort: int, prefix: string,
                       removePrefix: Option<string>, k: string)
    ensures var out := Forward(req, proxyHost, proxyPort, prefix, removePrefix);
      Lookup(out.headers, k) == if k == "host" then Some(HostHeader(proxyHost, proxyPort)) else Lookup(req.headers, k)
  {
    PutLookup(req.headers, "host", HostHeader(proxyHost, proxyPort), k);
  }

  /** The proxy's answer is relayed as it came; a connection error answers 404. */
  function ProxyReply(upstream: Option<Reply>): Reply {
    upstream.GetOr(NotFound)
  }

  /** `pathname.slice(1)`: the map key of a request path. */
  function FileKey(pathname: string): string {
    if |pathname| == 0 then "" else pathname[1..]
  }

  /** The way a request goes. */
  datatype Route = ServeFile(file: File) | ToProxy | Missing

  /** A request goes to the file registered under its path; failing that, to the proxy when
      one is configured, else to 404. */
  function RouteOf(files: FileMap, pathname: string, shouldProxy: bool): Route
  {
    match Lookup(files, FileKey(pathname))
    case Some(f) => ServeFile(f)
    case None => if shouldProxy then ToProxy else Missing
  }

  /** A request is served exactly when its path names a registered key, proxied exactly when
      it does not and a proxy is set. */
  lemma RouteOfCases(files: FileMap, pathname: string, shouldProxy: bool)
    ensures var route := RouteOf(files, pathname, shouldProxy);
      && (route.ServeFile? <==> FileKey(pathname) in Keys(files))
      && (route.ServeFile? ==> (FileKey(pathname), route.file) in files)
      && (route.ToProxy? <==> FileKey(pathname) !in Keys(files) && shouldProxy)
  {
  }

  /** The names besides its indices under which every JavaScript array, in any engine of the
      fifth edition of ECMA-262 or later, finds something that is not `undefined`: its own
      `length`, the members of `Array.prototype` and `Object.prototype` that edition defines,
      `__proto__`, and the four legacy accessor methods. */
  const CoreInheritedNames: set<string> := {
    "length", "constructor", "toString", "toLocaleString", "valueOf", "hasOwnProperty",
    "isPrototypeOf", "propertyIsEnumerable", "join", "pop", "push", "concat", "reverse",
    "shift", "unshift", "slice", "splice", "sort", "filter", "forEach", "some", "every",
    "map", "indexOf", "lastIndexOf", "reduce", "reduceRight",
    "__proto__", "__defineGetter__", "__defineSetter__", "__lookupGetter__", "__lookupSetter__" }

  /** `inherited` is the set of non-index names under which an engine's arrays find something
      other than `undefined`: the core names, and whatever later editions or the engine add. */
  predicate InheritedNames(inherited: set<string>) {
    CoreInheritedNames <= inherited
  }

  /** What `files[key]` yields when `files` is an array: an own entry, an inherited member,
      or `undefined`. */
  datatype ArrayValue = Undefined | Entry(file: File) | Member(name: string)

  function ArrayLookup(files: FileMap, key: string, inherited: set<string>): ArrayValue {
    match Lookup(files, key)
    case Some(f) => Entry(f)
    case None => if key in inherited then Member(key) else Undefined
  }

  /** The dispatch as written: the map is an array, and an inherited member is not
      `undefined`, so it is handed to `serve`, which dies reading its handler. */
  function RouteAsWritten(files: FileMap, pathname: string, shouldProxy: bool, inherited: set<string>): Result<Route>
  {
    match ArrayLookup(files, FileKey(pathname), inherited)
    case Entry(f) => Success(ServeFile(f))
    case Member(name) => Failure("TypeError: cannot read 'handle' of the member " + name)
    case Undefined => Success(if shouldProxy then ToProxy else Missing)
  }

  /** `GET /length` crashes the server unless a file is registered under `length`, whatever
      the proxy settings and the engine. */
  lemma LengthRequestCrashes(files: FileMap, shouldProxy: bool, inherited: set<string>)
    requires InheritedNames(inherited) && "length" !in Keys(files)
    ensures RouteAsWritten(files, "/length", shouldProxy, inherited).Failure?
    ensures RouteOf(files, "/length", shouldProxy) == if shouldProxy then ToProxy else Missing
  {
    assert FileKey("/length") == "length";
    assert "length" in CoreInheritedNames;
  }

  /** The dispatch as written and the corrected one agree exactly on the paths whose key is
      registered or not an inherited name; on every other path the one as written crashes. */
  lemma RouteAgreesOffInheritedNames(files: FileMap, pathname: string, shouldProxy: bool, inherited: set<string>)
    ensures RouteAsWritten(files, pathname, shouldProxy, inherited) == Success(RouteOf(files, pathname, shouldProxy))
      <==> FileKey(pathname) !in inherited || FileKey(pathname) in Keys(files)
    ensures RouteAsWritten(files, pathname, shouldProxy, inherited).Failure?
      <==> FileKey(pathname) in inherited && FileKey(pathname) !in Keys(files)
  {
  }
}
