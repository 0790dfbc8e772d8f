/** The gateway service's own request handling: the CORS middleware, the `/api/v1`
    proxy, the auth-service proxy and its Bearer-header gate. */
module Gateway {
  import opened Strings
  import opened Headers
  import opened ProxyRequests

  const ForwardedHost := "X-Forwarded-Host"
  const ForwardedProto := "X-Forwarded-Proto"

  /** What the CORS middleware leaves: the response headers, the status it wrote (0 for
      none) and whether the chain was aborted. */
  datatype CorsOutcome = CorsOutcome(header: Header, status: int, aborted: bool)

  /** The CORS middleware: three allow headers on every response; an `OPTIONS` request is
      answered 204 and goes no further. */
  function Cors(response: Header, httpMethod: string): (r: CorsOutcome)
    ensures r.aborted <==> httpMethod == "OPTIONS"
    ensures r.aborted ==> r.status == 204
    ensures !r.aborted ==> r.status == 0
    ensures r.header.Keys == response.Keys + {"Access-Control-Allow-Origin", "Access-Control-Allow-Methods",
                                              "Access-Control-Allow-Headers"}
    ensures r.header["Access-Control-Allow-Origin"] == ["*"]
    ensures r.header["Access-Control-Allow-Methods"] == ["GET, POST, PUT, DELETE, OPTIONS"]
    ensures r.header["Access-Control-Allow-Headers"] == ["Content-Type, Authorization"]
  {
    var h := Set(Set(Set(response, "Access-Control-Allow-Origin", "*"),
                     "Access-Control-Allow-Methods", "GET, POST, PUT, DELETE, OPTIONS"),
                 "Access-Control-Allow-Headers", "Content-Type, Authorization");
    if httpMethod == "OPTIONS" then CorsOutcome(h, 204, true) else CorsOutcome(h, 0, false)
  }

  /** The status a request ends with: 204 for a preflight, whatever the route handler
      answers for anything else. */
  function Served(httpMethod: string, handler: string -> int): (status: int)
    ensures httpMethod == "OPTIONS" ==> status == 204
    ensures httpMethod != "OPTIONS" ==> status == handler(httpMethod)
  {
    var cors := Cors(map[], httpMethod);
    if cors.aborted then cors.status else handler(httpMethod)
  }

  /** `proxyRequest`'s director: the two forwarding headers are set, the method is the
      incoming one, every incoming header value is added, and the path gains `/api/v1`. */
  method ProxyDirector(req: Outgoing, c: Incoming, order: seq<string>)
    requires KeyOrder(order, c.header)
    modifies req
    ensures req.header
            == AddAll(Set(Set(old(req.header), ForwardedHost, old(req.host)), ForwardedProto, "http"), c.header, order)
    ensures req.httpMethod == c.httpMethod
    ensures req.path == "/api/v1" + old(req.path)
    ensures req.host == old(req.host) && req.rawQuery == old(req.rawQuery)
    ensures req.scheme == old(req.scheme) && req.urlHost == old(req.urlHost)
  {
    var header := Set(req.header, ForwardedHost, req.host);
    header := Set(header, ForwardedProto, "http");
    req.httpMethod := c.httpMethod;
    header := CopyHeaders(header, c.header, order);
    req.header := header;
    req.path := "/api/v1" + req.path;
  }

  /** With the proxy's copy still holding the incoming headers, the director leaves on the
      outgoing request the gateway's host and "http" first in the two forwarding headers,
      followed by whatever the client sent for them, and every other incoming value twice. */
  lemma ProxyForwardedFirst(c: Incoming, order: seq<string>)
    requires KeyOrder(order, c.header) && NoEmptyValues(c.header)
    ensures var r := AddAll(Set(Set(c.header, ForwardedHost, c.host), ForwardedProto, "http"), c.header, order);
      && Values(r, ForwardedHost) == [c.host] + Values(c.header, ForwardedHost)
      && Values(r, ForwardedProto) == ["http"] + Values(c.header, ForwardedProto)
      && Get(r, ForwardedHost) == c.host && Get(r, ForwardedProto) == "http"
      && forall k :: k in c.header && k != ForwardedHost && k != ForwardedProto ==>
           Values(r, k) == c.header[k] + c.header[k]
  {
    var h := Set(Set(c.header, ForwardedHost, c.host), ForwardedProto, "http");
    AddAllAppends(h, c.header, order);
    var r := AddAll(h, c.header, order);
    assert Values(h, ForwardedHost) == [c.host] && Values(h, ForwardedProto) == ["http"];
    assert Values(r, ForwardedHost) == [c.host] + Values(c.header, ForwardedHost);
    assert Values(r, ForwardedProto) == ["http"] + Values(c.header, ForwardedProto);
  }

  /** `authReverseProxy`'s director: the two forwarding headers are set, then the request's
      own headers are added to themselves. `order` is the order that header map is ranged
      in; path and method stay. */
  method AuthDirector(req: Outgoing, order: seq<string>)
    requires KeyOrder(order, AuthForwarded(req.header, req.host))
    modifies req
    ensures req.header == AddAll(AuthForwarded(old(req.header), old(req.host)), AuthForwarded(old(req.header), old(req.host)), order)
    ensures req.httpMethod == old(req.httpMethod) && req.path == old(req.path)
    ensures req.host == old(req.host) && req.rawQuery == old(req.rawQuery)
    ensures req.scheme == old(req.scheme) && req.urlHost == old(req.urlHost)
  {
    var header := Set(req.header, ForwardedHost, req.host);
    header := Set(header, ForwardedProto, "http");
    header := CopyHeaders(header, header, order);
    req.header := header;
  }

  /** The headers the auth proxy's copy loop starts from. */
  function AuthForwarded(h0: Header, host: string): (h: Header)
    ensures h.Keys == h0.Keys + {ForwardedHost, ForwardedProto}
    ensures h[ForwardedHost] == [host] && h[ForwardedProto] == ["http"]
    ensures forall k :: k in h0 && k != ForwardedHost && k != ForwardedProto ==> h[k] == h0[k]
    ensures NoEmptyValues(h0) ==> NoEmptyValues(h)
  {
    Set(Set(h0, ForwardedHost, host), ForwardedProto, "http")
  }

  /** The auth director therefore leaves its own forwarding headers twice on the outgoing request... */
  lemma AuthForwardingDoubled(h0: Header, host: string, order: seq<string>)
    requires NoEmptyValues(h0) && KeyOrder(order, AuthForwarded(h0, host))
    ensures var r := AddAll(AuthForwarded(h0, host), AuthForwarded(h0, host), order);
      Values(r, ForwardedHost) == [host, host] && Values(r, ForwardedProto) == ["http", "http"]
  {
    CopyIntoItself(AuthForwarded(h0, host), order);
  }

  /** ...and every other incoming header's values twice as well. Hop-by-hop headers and
      `X-Forwarded-For` are then rewritten by the reverse proxy, which is not modelled. */
  lemma AuthHeadersDoubled(h0: Header, host: string, order: seq<string>)
    requires NoEmptyValues(h0) && KeyOrder(order, AuthForwarded(h0, host))
    ensures var r := AddAll(AuthForwarded(h0, host), AuthForwarded(h0, host), order);
      forall k :: k in h0 && k != ForwardedHost && k != ForwardedProto ==> Values(r, k) == h0[k] + h0[k]
  {
    CopyIntoItself(AuthForwarded(h0, host), order);
  }

  /** What the auth proxy does with a request: forward it, or answer 401. */
  datatype GateOutcome = Forward | Unauthorized(message: string)

  /** The two auth routes whose token the handler checks itself. */
  predicate TokenChecked(path: string)
  {
    path == "/auth/refresh" || path == "/auth/logout"
  }

  /** The gate in `authReverseProxy`. `authorization` is the `Authorization` header's first
      value and `tokenValid` stands for parsing the token with an RSA method and the gateway's
      public key and finding it valid. */
  function AuthGate(path: string, authorization: string, tokenValid: string -> bool): (r: GateOutcome)
    ensures !TokenChecked(path) ==> r == Forward
    ensures TokenChecked(path) && authorization == "" ==> r == Unauthorized("authorization header is required")
    ensures var parts := Split(authorization, ' ');
      TokenChecked(path) && authorization != "" && (|parts| != 2 || parts[0] != "Bearer") ==>
      r == Unauthorized("invalid authorization header format")
    ensures var parts := Split(authorization, ' ');
      r == Forward <==> !TokenChecked(path) || (|parts| == 2 && parts[0] == "Bearer" && tokenValid(parts[1]))
  {
    if !TokenChecked(path) then Forward
    else if authorization == "" then Unauthorized("authorization header is required")
    else
      var parts := Split(authorization, ' ');
      if |parts| != 2 || parts[0] != "Bearer" then Unauthorized("invalid authorization header format")
      else if !tokenValid(parts[1]) then Unauthorized("invalid token")
      else Forward
  }

  /** `Bearer <token>` with a space-free token is forwarded exactly when the token is valid. */
  lemma BearerAccepted(path: string, token: string, tokenValid: string -> bool)
    requires TokenChecked(path) && ' ' !in token
    ensures AuthGate(path, "Bearer " + token, tokenValid) == (if tokenValid(token) then Forward else Unauthorized("invalid token"))
  {
    SplitPair("Bearer", token, ' ');
    assert "Bearer" + [' '] + token == "Bearer " + token;
  }

  /** The scheme is case-sensitive: `bearer <token>` is refused before the token is looked at. */
  lemma LowercaseBearerRejected(path: string, token: string, tokenValid: string -> bool)
    requires TokenChecked(path) && ' ' !in token
    ensures AuthGate(path, "bearer " + token, tokenValid) == Unauthorized("invalid authorization header format")
  {
    SplitPair("bearer", token, ' ');
    assert "bearer" + [' '] + token == "bearer " + token;
  }

  /** Splitting is on single spaces: two spaces after `Bearer` give three parts, refused. */
  lemma DoubleSpaceRejected(path: string, token: string, tokenValid: string -> bool)
    requires TokenChecked(path) && ' ' !in token
    ensures AuthGate(path, "Bearer  " + token, tokenValid) == Unauthorized("invalid authorization header format")
  {
    SplitPair("", token, ' ');
    SplitCons("Bearer", " " + token, ' ');
    assert "Bearer" + [' '] + (" " + token) == "Bearer  " + token;
    assert "" + [' '] + token == " " + token;
  }
}
