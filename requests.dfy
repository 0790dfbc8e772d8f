/** The requests the gateway's proxies see: the incoming one as gin presents it, and the
    outgoing one a reverse proxy builds from it and hands to a director to adjust. */
module ProxyRequests {
  import opened Headers

  /** A path parameter gin matched, in route order. */
  datatype Param = Param(key: string, value: string)

  /** No parameter before index `i` has the key. */
  predicate AbsentBefore(params: seq<Param>, key: string, i: nat)
    requires i <= |params|
  {
    forall j :: 0 <= j < i ==> params[j].key != key
  }

  /** `c.Param(key)`: the first parameter with that key, or "" when there is none. */
  function ParamValue(params: seq<Param>, key: string): (v: string)
    ensures (forall i :: 0 <= i < |params| ==> params[i].key != key) ==> v == ""
    ensures |params| > 0 && params[0].key == key ==> v == params[0].value
    ensures forall i :: 0 <= i < |params| && params[i].key == key && AbsentBefore(params, key, i) ==> v == params[i].value
    ensures v != "" ==> exists i :: 0 <= i < |params| && params[i] == Param(key, v)
  {
    if |params| == 0 then ""
    else if params[0].key == key then params[0].value
    else ParamValue(params[1..], key)
  }

  /** The incoming request: method, `Host`, URL path and raw query, headers, the matched
      path parameters, gin's `ClientIP()` and the connection's `RemoteAddr`. */
  datatype Incoming = Incoming(httpMethod: string, host: string, path: string, rawQuery: string,
                               header: Header, params: seq<Param>, clientIP: string, remoteAddr: string)

  /** The outgoing request while a director works on it: `req.Method`, `req.Host`, the URL's
      scheme, host, path and raw query, and `req.Header`. */
  class Outgoing {
    var httpMethod: string
    var host: string
    var scheme: string
    var urlHost: string
    var path: string
    var rawQuery: string
    var header: Header

    /** The proxy's copy of the incoming request once the standard director has pointed it
        at the target: same method, host, query and headers; `scheme`, `urlHost` and
        `path` as that director set them. */
    constructor (c: Incoming, scheme: string, urlHost: string, path: string)
      ensures httpMethod == c.httpMethod && host == c.host && rawQuery == c.rawQuery && header == c.header
      ensures this.scheme == scheme && this.urlHost == urlHost && this.path == path
    {
      httpMethod := c.httpMethod;
      host := c.host;
      this.scheme := scheme;
      this.urlHost := urlHost;
      this.path := path;
      rawQuery := c.rawQuery;
      header := c.header;
    }
  }
}
