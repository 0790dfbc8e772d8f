/** The gateway's route table: services by name, each with a base URL, a default for
    whether its endpoints need a token, and its endpoints in declaration order; and the
    registration of every endpoint with the HTTP router. */
module GatewayRouter {
  import opened Results

  /** One endpoint; `requireAuth` is `None` when it inherits the service's default. */
  datatype EndpointConfig = EndpointConfig(httpMethod: string, path: string, requireAuth: Option<bool>,
                                           description: string)

  /** A service's configuration as a value. */
  datatype Service = Service(baseURL: string, endpoints: seq<EndpointConfig>, requireAuth: bool)

  /** Whether an endpoint is served behind the token check: its own flag when it has one,
      else the service's default. */
  function EffectiveAuth(serviceDefault: bool, e: EndpointConfig): (auth: bool)
    ensures e.requireAuth.Some? ==> auth == e.requireAuth.value
    ensures e.requireAuth.None? ==> auth == serviceDefault
  {
    if e.requireAuth.Some? then e.requireAuth.value else serviceDefault
  }

  class ServiceConfig {
    var baseURL: string
    var endpoints: seq<EndpointConfig>
    var requireAuth: bool

    constructor (baseURL: string, requireAuth: bool)
      ensures this.baseURL == baseURL && endpoints == [] && this.requireAuth == requireAuth
    {
      this.baseURL := baseURL;
      endpoints := [];
      this.requireAuth := requireAuth;
    }

    /** `AddEndpoint`: one endpoint appended at the end. */
    method AddEndpoint(httpMethod: string, path: string, description: string, requireAuth: Option<bool>)
      returns (endpoint: EndpointConfig)
      modifies this
      ensures endpoint == EndpointConfig(httpMethod, path, requireAuth, description)
      ensures endpoints == old(endpoints) + [endpoint]
      ensures baseURL == old(baseURL) && this.requireAuth == old(this.requireAuth)
    {
      endpoint := EndpointConfig(httpMethod, path, requireAuth, description);
      endpoints := endpoints + [endpoint];
    }

    function AsValue(): Service
      reads this
    {
      Service(baseURL, endpoints, requireAuth)
    }
  }

  /** `order` lists the names of a service map, each once. */
  predicate NameOrder(order: seq<string>, names: set<string>)
  {
    && (forall i :: 0 <= i < |order| ==> order[i] in names)
    && (forall k :: k in names ==> k in order)
    && (forall i, j :: 0 <= i < j < |order| ==> order[i] != order[j])
  }

  /** A registered route: the router-relative path, the backend, and whether the token
      and rate-limit middlewares run first. */
  datatype Route = Route(httpMethod: string, path: string, baseURL: string, jwt: bool, rateLimited: bool)

  /** The catch-all route at the root for one service. */
  function DirectRoute(name: string, svc: Service): Route
  {
    Route("ANY", "/" + name + "/*path", svc.baseURL, false, false)
  }

  /** The route of a service's `j`-th endpoint within the API group. */
  function EndpointRoute(name: string, svc: Service, j: nat): (r: Route)
    requires j < |svc.endpoints|
    ensures r.path == "/" + name + svc.endpoints[j].path && r.httpMethod == svc.endpoints[j].httpMethod
    ensures r.jwt == EffectiveAuth(svc.requireAuth, svc.endpoints[j]) && r.rateLimited && r.baseURL == svc.baseURL
  {
    var e := svc.endpoints[j];
    Route(e.httpMethod, "/" + name + e.path, svc.baseURL, EffectiveAuth(svc.requireAuth, e), true)
  }

  function EndpointRoutes(name: string, svc: Service): (rs: seq<Route>)
    ensures |rs| == |svc.endpoints|
    ensures forall j :: 0 <= j < |rs| ==> rs[j] == EndpointRoute(name, svc, j)
  {
    seq(|svc.endpoints|, j requires 0 <= j < |svc.endpoints| => EndpointRoute(name, svc, j))
  }

  /** The root routes, one per service in `order`. */
  function DirectRoutes(table: map<string, Service>, order: seq<string>): (rs: seq<Route>)
    requires forall i :: 0 <= i < |order| ==> order[i] in table
    ensures |rs| == |order|
    ensures forall i :: 0 <= i < |order| ==> rs[i] == DirectRoute(order[i], table[order[i]])
  {
    seq(|order|, i requires 0 <= i < |order| => DirectRoute(order[i], table[order[i]]))
  }

  /** The API routes: every endpoint of every service in `order`, service by service. */
  function ApiRoutes(table: map<string, Service>, order: seq<string>): seq<Route>
    requires forall i :: 0 <= i < |order| ==> order[i] in table
  {
    if |order| == 0 then []
    else
      var last := order[|order| - 1];
      ApiRoutes(table, order[..|order| - 1]) + EndpointRoutes(last, table[last])
  }

  /** Each endpoint of each listed service is registered within the API routes. */
  lemma {:induction false} EndpointRegistered(table: map<string, Service>, order: seq<string>, i: nat, j: nat)
    requires forall k :: 0 <= k < |order| ==> order[k] in table
    requires i < |order| && j < |table[order[i]].endpoints|
    ensures EndpointRoute(order[i], table[order[i]], j) in ApiRoutes(table, order)
  {
    var init, last := order[..|order| - 1], order[|order| - 1];
    var before, here := ApiRoutes(table, init), EndpointRoutes(last, table[last]);
    if i == |order| - 1 {
      assert (before + here)[|before| + j] == here[j];
    } else {
      assert init[i] == order[i];
      EndpointRegistered(table, init, i, j);
      var p :| 0 <= p < |before| && before[p] == EndpointRoute(order[i], table[order[i]], j);
      assert (before + here)[p] == before[p];
    }
  }

  /** Every API route is some endpoint's, carries the token check exactly when that
      endpoint's effective flag is set, and is rate limited. */
  lemma {:induction false} ApiRoutesSound(table: map<string, Service>, order: seq<string>, r: Route)
    requires forall k :: 0 <= k < |order| ==> order[k] in table
    requires r in ApiRoutes(table, order)
    ensures exists i, j :: 0 <= i < |order| && 0 <= j < |table[order[i]].endpoints|
                           && r == EndpointRoute(order[i], table[order[i]], j)
    ensures r.rateLimited
  {
    var init, last := order[..|order| - 1], order[|order| - 1];
    var before, here := ApiRoutes(table, init), EndpointRoutes(last, table[last]);
    if r in before {
      assert forall k :: 0 <= k < |init| ==> init[k] == order[k];
      ApiRoutesSound(table, init, r);
      var i, j :| 0 <= i < |init| && 0 <= j < |table[init[i]].endpoints| && r == EndpointRoute(init[i], table[init[i]], j);
      assert init[i] == order[i];
    } else {
      var p :| 0 <= p < |before + here| && (before + here)[p] == r;
      assert here[p - |before|] == r;
      assert r == EndpointRoute(order[|order| - 1], table[order[|order| - 1]], p - |before|);
    }
  }

  class RouterConfig {
    var services: map<string, ServiceConfig>

    /** `NewRouterConfig`: no services. */
    constructor ()
      ensures services == map[]
    {
      services := map[];
    }

    /** `AddService`: a fresh service with no endpoints under `name`, replacing any earlier
        one; the other services stay. */
    method AddService(name: string, baseURL: string, requireAuth: bool) returns (svc: ServiceConfig)
      modifies this
      ensures fresh(svc)
      ensures svc.baseURL == baseURL && svc.endpoints == [] && svc.requireAuth == requireAuth
      ensures services == old(services)[name := svc]
    {
      svc := new ServiceConfig(baseURL, requireAuth);
      services := services[name := svc];
    }

    /** The table as a value. */
    function Table(): (t: map<string, Service>)
      reads this, services.Values
      ensures t.Keys == services.Keys
    {
      map k | k in services :: services[k].AsValue()
    }

    /** `RegisterHandlers`: first the root catch-all routes, in one map order, then each
        service's endpoints, in another. */
    method RegisterHandlers(order1: seq<string>, order2: seq<string>) returns (routes: seq<Route>)
      requires NameOrder(order1, services.Keys) && NameOrder(order2, services.Keys)
      ensures routes == DirectRoutes(Table(), order1) + ApiRoutes(Table(), order2)
    {
      var direct := RegisterDirect(order1);
      var api := RegisterApi(order2);
      routes := direct + api;
    }

    /** The first loop: one catch-all route per service. */
    method RegisterDirect(order: seq<string>) returns (routes: seq<Route>)
      requires forall i :: 0 <= i < |order| ==> order[i] in services
      ensures routes == DirectRoutes(Table(), order)
    {
      routes := [];
      for i := 0 to |order|
        invariant |routes| == i
        invariant forall k :: 0 <= k < i ==> routes[k] == DirectRoute(order[k], Table()[order[k]])
      {
        var svc := services[order[i]];
        assert Table()[order[i]] == svc.AsValue();
        routes := routes + [Route("ANY", "/" + order[i] + "/*path", svc.baseURL, false, false)];
      }
    }

    /** The second loop: each service's endpoints in turn. */
    method RegisterApi(order: seq<string>) returns (routes: seq<Route>)
      requires forall i :: 0 <= i < |order| ==> order[i] in services
      ensures routes == ApiRoutes(Table(), order)
    {
      routes := [];
      for i := 0 to |order|
        invariant routes == ApiRoutes(Table(), order[..i])
      {
        var more := RegisterService(order[i]);
        routes := routes + more;
        assert order[..i + 1][..i] == order[..i];
      }
      assert order[..|order|] == order;
    }

    /** The inner loop: one service's endpoints, behind the token check when their
        effective flag says so. */
    method RegisterService(name: string) returns (routes: seq<Route>)
      requires name in services
      ensures routes == EndpointRoutes(name, Table()[name])
    {
      var svc := services[name];
      ghost var value := Table()[name];
      assert value == svc.AsValue();
      routes := [];
      for j := 0 to |svc.endpoints|
        invariant |routes| == j
        invariant forall t :: 0 <= t < j ==> routes[t] == EndpointRoute(name, value, t)
      {
        var endpoint := svc.endpoints[j];
        var requireAuth := svc.requireAuth;
        if endpoint.requireAuth.Some? {
          requireAuth := endpoint.requireAuth.value;
        }
        routes := routes + [Route(endpoint.httpMethod, "/" + name + endpoint.path, svc.baseURL, requireAuth, true)];
      }
    }
  }
}
