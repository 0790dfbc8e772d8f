/** The unified reverse proxy: it names the service from the incoming `/api/v1/<svc>/...`
    path, restores that prefix when the outgoing path lacks it, copies the query, rebuilds
    the headers as a copy of the incoming ones and adds the standard proxy headers. */
module UnifiedProxy {
  import opened Results
  import opened Strings
  import opened Headers
  import opened ProxyRequests

  /** Segment 3 of the path when segments 1 and 2 are `api` and `v1`; "" otherwise. */
  function ServiceName(path: string): (svc: string)
    ensures '/' !in svc
  {
    var parts := Split(path, '/');
    if |parts| > 2 && parts[1] == "api" && parts[2] == "v1" && |parts| > 3 then parts[3] else ""
  }

  /** A path under `/api/v1/<svc>` names `svc`. */
  lemma ServiceNameOf(svc: string, rest: string)
    requires '/' !in svc
    requires rest == "" || rest[0] == '/'
    ensures ServiceName("/api/v1/" + svc + rest) == svc
  {
    var tail := svc + rest;
    TailNamesService(svc, rest);
    var t2 := "v1" + ['/'] + tail;
    var t3 := "api" + ['/'] + t2;
    SplitCons("v1", tail, '/');
    SplitCons("api", t2, '/');
    SplitCons("", t3, '/');
    var path := "/api/v1/" + svc + rest;
    assert path == "" + ['/'] + t3 by {
      assert "/api/v1/" == "" + ['/'] + "api" + ['/'] + "v1" + ['/'];
      assert path == "/api/v1/" + tail;
    }
    NamesThird(path, Split(tail, '/'));
  }

  /** A path whose pieces are "", "api", "v1" and then more names the first of the rest. */
  lemma NamesThird(path: string, below: seq<string>)
    requires |below| > 0 && Split(path, '/') == [""] + (["api"] + (["v1"] + below))
    ensures ServiceName(path) == below[0]
  {
    var parts := Split(path, '/');
    assert parts[1] == "api" && parts[2] == "v1" && parts[3] == below[0];
  }

  /** The pieces of `svc + rest`, for a rest that is empty or starts a new segment, start
      with `svc`. */
  lemma TailNamesService(svc: string, rest: string)
    requires '/' !in svc
    requires rest == "" || rest[0] == '/'
    ensures Split(svc + rest, '/')[0] == svc
  {
    if rest == "" {
      assert svc + rest == svc;
      SplitNoSep(svc, '/');
    } else {
      assert svc + rest == svc + ['/'] + rest[1..];
      SplitCons(svc, rest[1..], '/');
    }
  }

  /** Conversely, a rooted path that names a service starts with `/api/v1/<svc>`. */
  lemma NamedServicePrefix(path: string)
    requires |path| > 0 && path[0] == '/'
    requires ServiceName(path) != ""
    ensures HasPrefix(path, "/api/v1/" + ServiceName(path))
  {
    var parts := Split(path, '/');
    assert parts[0] == "";
    JoinSplit(path, '/');
    var rest := JoinWith(parts[3..], "/");
    assert parts[1..][1..] == parts[2..] && parts[2..][1..] == parts[3..];
    assert JoinWith(parts[2..], "/") == "v1" + "/" + rest;
    assert JoinWith(parts[1..], "/") == "api" + "/" + ("v1" + "/" + rest);
    assert JoinWith(parts, "/") == "" + "/" + ("api" + "/" + ("v1" + "/" + rest));
    JoinStartsWith(parts[3..], "/");
    assert path == "/api/v1/" + rest;
  }

  /** The outgoing path: `/api/v1/<svc>` + the `path` parameter when the incoming path
      names a service whose prefix the outgoing path lacks; otherwise unchanged. */
  function RewrittenPath(current: string, incomingPath: string, pathParam: string): (r: string)
    ensures var svc := ServiceName(incomingPath);
      && (svc == "" ==> r == current)
      && (svc != "" ==> HasPrefix(r, "/api/v1/" + svc))
      && (svc != "" && HasPrefix(current, "/api/v1/" + svc) ==> r == current)
      && (svc != "" && !HasPrefix(current, "/api/v1/" + svc) ==> r == "/api/v1/" + svc + pathParam)
  {
    var svc := ServiceName(incomingPath);
    if svc != "" && !HasPrefix(current, "/api/v1/" + svc) then
      assert ("/api/v1/" + svc + pathParam)[..|"/api/v1/" + svc|] == "/api/v1/" + svc;
      "/api/v1/" + svc + pathParam
    else current
  }

  /** When the standard director left the incoming path in place (a target URL without a
      path), the rewrite never fires. */
  lemma RewriteIdleOnOwnPath(path: string, pathParam: string)
    requires |path| > 0 && path[0] == '/'
    ensures RewrittenPath(path, path, pathParam) == path
  {
    if ServiceName(path) != "" {
      NamedServicePrefix(path);
    }
  }

  /** `getClientIP`: gin's answer when non-empty, else the host part of `RemoteAddr`,
      else `RemoteAddr` itself. `splitHostPort` stands for `net.SplitHostPort`. */
  function ClientIP(ginIP: string, remoteAddr: string, splitHostPort: string -> Result<string>): (ip: string)
    ensures ginIP != "" ==> ip == ginIP
    ensures ginIP == "" && splitHostPort(remoteAddr).Ok? ==> ip == splitHostPort(remoteAddr).value
    ensures ginIP == "" && splitHostPort(remoteAddr).Err? ==> ip == remoteAddr
  {
    if ginIP != "" then ginIP
    else match splitHostPort(remoteAddr)
      case Ok(host) => host
      case Err(_) => remoteAddr
  }

  /** An empty client IP comes only from an empty gin answer and an empty host part or
      address. */
  lemma EmptyClientIP(ginIP: string, remoteAddr: string, splitHostPort: string -> Result<string>)
    requires ClientIP(ginIP, remoteAddr, splitHostPort) == ""
    ensures ginIP == ""
    ensures splitHostPort(remoteAddr) == Ok("") || (splitHostPort(remoteAddr).Err? && remoteAddr == "")
  {
  }

  const ForwardedHost := "X-Forwarded-Host"
  const ForwardedProto := "X-Forwarded-Proto"
  const ForwardedFor := "X-Forwarded-For"
  /** `Header.Set("X-Real-IP", …)` stores the key in canonical form, so it replaces a
      client's `X-Real-Ip`. */
  const RealIP := "X-Real-Ip"

  /** The four headers `addProxyHeaders` sets. */
  const ProxyHeaderNames: set<string> := {ForwardedHost, ForwardedProto, RealIP, ForwardedFor}

  /** The forwarded protocol: the incoming one, or "http" when there is none. */
  function ProtoOrHttp(incomingProto: string): (proto: string)
    ensures proto != ""
    ensures incomingProto != "" ==> proto == incomingProto
  {
    if incomingProto == "" then "http" else incomingProto
  }

  /** The `X-Forwarded-For` value: the prior chain joined by ", " with the client IP
      appended, or the client IP alone when the header is absent. */
  function ForwardedChain(h: Header, clientIP: string): (v: string)
    ensures HasSuffix(v, clientIP)
  {
    if ForwardedFor in h then
      var prior := JoinWith(h[ForwardedFor], ", ");
      assert (prior + ", " + clientIP)[|prior + ", "|..] == clientIP;
      prior + ", " + clientIP
    else
      assert clientIP[|clientIP| - |clientIP|..] == clientIP;
      clientIP
  }

  /** The headers after `addProxyHeaders`: the host, the incoming protocol or "http", the
      client IP, and the client IP appended to any `X-Forwarded-For` already present. */
  function WithProxyHeaders(h: Header, host: string, incomingProto: string, clientIP: string): (r: Header)
    ensures r.Keys == h.Keys + ProxyHeaderNames
    ensures r[ForwardedHost] == [host] && r[RealIP] == [clientIP] && r[ForwardedProto] == [ProtoOrHttp(incomingProto)]
    ensures r[ForwardedFor] == [ForwardedChain(h, clientIP)]
    ensures forall k :: k in h && k !in ProxyHeaderNames ==> r[k] == h[k]
  {
    h[ForwardedHost := [host]][ForwardedProto := [ProtoOrHttp(incomingProto)]][RealIP := [clientIP]]
     [ForwardedFor := [ForwardedChain(h, clientIP)]]
  }

  /** `addProxyHeaders`. */
  method AddProxyHeaders(req: Outgoing, c: Incoming, clientIP: string)
    modifies req
    ensures req.header == WithProxyHeaders(old(req.header), c.host, Get(c.header, ForwardedProto), clientIP)
    ensures req.path == old(req.path) && req.rawQuery == old(req.rawQuery) && req.httpMethod == old(req.httpMethod)
    ensures req.host == old(req.host) && req.scheme == old(req.scheme) && req.urlHost == old(req.urlHost)
  {
    // Each `Header.Set(k, v)` replaces the key's values with `[v]`.
    var header := req.header;
    header := header[ForwardedHost := [c.host]];
    var forwardedProto := Get(c.header, ForwardedProto);
    if forwardedProto == "" {
      forwardedProto := "http";
    }
    header := header[ForwardedProto := [forwardedProto]];
    header := header[RealIP := [clientIP]];
    if ForwardedFor in header {
      var prior := header[ForwardedFor];
      header := header[ForwardedFor := [JoinWith(prior, ", ") + ", " + clientIP]];
    } else {
      header := header[ForwardedFor := [clientIP]];
    }
    req.header := header;
  }

  /** `ProxyRequest`'s director for a target with the given scheme and host; `order` is the
      order the incoming header map is ranged in. */
  method Director(req: Outgoing, c: Incoming, targetScheme: string, targetHost: string, order: seq<string>,
                  splitHostPort: string -> Result<string>)
    requires KeyOrder(order, c.header)
    modifies req
    ensures req.scheme == targetScheme && req.urlHost == targetHost
    ensures req.path == RewrittenPath(old(req.path), c.path, ParamValue(c.params, "path"))
    ensures req.rawQuery == c.rawQuery
    ensures req.header == WithProxyHeaders(AddAll(map[], c.header, order), c.host, Get(c.header, ForwardedProto),
                                           ClientIP(c.clientIP, c.remoteAddr, splitHostPort))
    ensures req.httpMethod == old(req.httpMethod) && req.host == old(req.host)
  {
    req.scheme := targetScheme;
    req.urlHost := targetHost;
    req.path := RewrittenPath(req.path, c.path, ParamValue(c.params, "path"));
    req.rawQuery := c.rawQuery;
    var header := CopyHeaders(map[], c.header, order);
    req.header := header;
    var clientIP := ClientIP(c.clientIP, c.remoteAddr, splitHostPort);
    AddProxyHeaders(req, c, clientIP);
  }

  /** What the director leaves on the outgoing request: every incoming header exactly once,
      the four proxy headers, and the client IP at the end of the `X-Forwarded-For` chain. */
  lemma UnifiedHeaders(c: Incoming, order: seq<string>, clientIP: string)
    requires KeyOrder(order, c.header) && NoEmptyValues(c.header)
    ensures var r := WithProxyHeaders(AddAll(map[], c.header, order), c.host, Get(c.header, ForwardedProto), clientIP);
      && r.Keys == c.header.Keys + ProxyHeaderNames
      && (forall k :: k in c.header && k !in ProxyHeaderNames ==> r[k] == c.header[k])
      && (ForwardedFor in c.header ==> r[ForwardedFor] == [JoinWith(c.header[ForwardedFor], ", ") + ", " + clientIP])
      && (ForwardedFor !in c.header ==> r[ForwardedFor] == [clientIP])
      && (ForwardedProto in c.header ==> r[ForwardedProto] == [ProtoOrHttp(c.header[ForwardedProto][0])])
      && (ForwardedProto !in c.header ==> r[ForwardedProto] == ["http"])
      && r[RealIP] == [clientIP] && r[ForwardedHost] == [c.host]
  {
    CopyIntoEmpty(c.header, order);
  }
}
