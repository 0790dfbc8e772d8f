/** The per-route reverse proxy: the upstream path is the route's template with each
    matched parameter substituted, the method is kept, the incoming headers are added to
    the proxy's copy of them, and three forwarding headers are set. */
module GatewayProxy {
  import opened Strings
  import opened Headers
  import opened ProxyRequests

  /** The template after substituting each parameter in turn: every `":" + key` becomes
      its value. */
  function SubstitutedPath(template: string, params: seq<Param>): string
  {
    if |params| == 0 then template
    else
      var last := params[|params| - 1];
      ReplaceAll(SubstitutedPath(template, params[..|params| - 1]), ":" + last.key, last.value)
  }

  /** The substitution loop. */
  method SubstitutePath(template: string, params: seq<Param>) returns (processedPath: string)
    ensures processedPath == SubstitutedPath(template, params)
  {
    processedPath := template;
    for i := 0 to |params|
      invariant processedPath == SubstitutedPath(template, params[..i])
    {
      var param := params[i];
      processedPath := ReplaceAll(processedPath, ":" + param.key, param.value);
      assert params[..i + 1][..i] == params[..i];
    }
    assert params[..|params|] == params;
  }

  /** A template without placeholders becomes the outgoing path as it is, whatever the parameters. */
  lemma {:induction false} NoPlaceholders(template: string, params: seq<Param>)
    requires ':' !in template
    ensures SubstitutedPath(template, params) == template
  {
    if |params| > 0 {
      var last := params[|params| - 1];
      NoPlaceholders(template, params[..|params| - 1]);
      NoMatchWithout(template, ":" + last.key, ':');
    }
  }

  /** One placeholder between placeholder-free parts becomes the parameter's value. */
  lemma OnePlaceholder(prefix: string, key: string, value: string, suffix: string)
    requires ':' !in prefix && ':' !in suffix
    ensures SubstitutedPath(prefix + ":" + key + suffix, [Param(key, value)]) == prefix + value + suffix
  {
    var pat := ":" + key;
    assert [Param(key, value)][..0] == [];
    assert prefix + ":" + key + suffix == prefix + (pat + suffix);
    ReplaceAllAfter(prefix, pat + suffix, pat, value);
    assert HasPrefix(pat + suffix, pat) && (pat + suffix)[|pat|..] == suffix;
    NoMatchWithout(suffix, pat, ':');
  }

  const ForwardedHost := "X-Forwarded-Host"
  const ForwardedProto := "X-Forwarded-Proto"
  const ForwardedFor := "X-Forwarded-For"

  /** `ProxyRequest`'s director. `order` is the order the incoming header map is ranged
      in; `preservePath` is accepted and plays no part. */
  method Director(req: Outgoing, c: Incoming, template: string, preservePath: bool, order: seq<string>)
    requires KeyOrder(order, c.header)
    modifies req
    ensures req.path == SubstitutedPath(template, c.params)
    ensures req.httpMethod == c.httpMethod
    ensures req.header
            == Set(Set(Set(AddAll(old(req.header), c.header, order), ForwardedHost, c.host),
                       ForwardedProto, "http"), ForwardedFor, c.clientIP)
    ensures req.host == old(req.host) && req.scheme == old(req.scheme) && req.urlHost == old(req.urlHost)
    ensures req.rawQuery == old(req.rawQuery)
  {
    var processedPath := SubstitutePath(template, c.params);
    req.path := processedPath;
    req.httpMethod := c.httpMethod;
    var header := CopyHeaders(req.header, c.header, order);
    header := Set(header, ForwardedHost, c.host);
    header := Set(header, ForwardedProto, "http");
    header := Set(header, ForwardedFor, c.clientIP);
    req.header := header;
  }

  /** The headers `Director` leaves on the outgoing request when the proxy's copy still holds
      the incoming ones: every other incoming value twice, then the three forwarding headers with one value each. */
  lemma ForwardedHeaders(c: Incoming, order: seq<string>)
    requires KeyOrder(order, c.header) && NoEmptyValues(c.header)
    ensures var r := Set(Set(Set(AddAll(c.header, c.header, order), ForwardedHost, c.host),
                             ForwardedProto, "http"), ForwardedFor, c.clientIP);
      && r.Keys == c.header.Keys + {ForwardedHost, ForwardedProto, ForwardedFor}
      && r[ForwardedHost] == [c.host] && r[ForwardedProto] == ["http"] && r[ForwardedFor] == [c.clientIP]
      && forall k :: k in c.header && k !in {ForwardedHost, ForwardedProto, ForwardedFor} ==>
           r[k] == c.header[k] + c.header[k]
  {
    CopyIntoItself(c.header, order);
  }
}
