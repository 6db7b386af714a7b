/** The route registration side of `gorilla/mux`: a router that collects
    routes, path-prefix subrouters and middlewares. Matching a URL against
    the patterns is not modelled; what is kept is which handler each
    registration names and which middlewares wrap it. */
module Mux {

  datatype MiddlewareName = Logging | Auth

  datatype HandlerName =
    | SignUp | SignIn
    | CreatePhone | GetAllPhones | GetPhoneById | DeletePhoneById | UpdatePhoneById
    | Swagger

  /** One registration. `httpMethod` is "" for a route that accepts any method
      (`PathPrefix(...).Handler(...)`). */
  datatype Route = Route(path: string, httpMethod: string, handler: HandlerName)

  datatype Subrouter = Subrouter(prefix: string, middlewares: seq<MiddlewareName>, routes: seq<Route>)

  /** A registered route as the router holds it: full path pattern, method, handler
      and the middlewares around it, outermost first. */
  datatype Entry = Entry(httpMethod: string, path: string, handler: HandlerName, chain: seq<MiddlewareName>)

  function RouteEntries(prefix: string, chain: seq<MiddlewareName>, routes: seq<Route>): (es: seq<Entry>)
    ensures |es| == |routes|
    ensures forall e | e in es :: e.chain == chain && prefix <= e.path
  {
    seq(|routes|, i requires 0 <= i < |routes| =>
      Entry(routes[i].httpMethod, prefix + routes[i].path, routes[i].handler, chain))
  }

  /** A subrouter's routes run inside the parent's middlewares, then its own. */
  function SubrouterEntries(chain: seq<MiddlewareName>, subs: seq<Subrouter>): seq<Entry>
    decreases |subs|
  {
    if subs == [] then []
    else RouteEntries(subs[0].prefix, chain + subs[0].middlewares, subs[0].routes) + SubrouterEntries(chain, subs[1..])
  }

  /** The registered entries, subrouters' first and the router's own routes
      after them. gorilla/mux keeps subrouters and routes in one list in
      registration order; the two agree for every router here, whose only
      direct route (the documentation prefix) is registered last. */
  function Table(middlewares: seq<MiddlewareName>, subs: seq<Subrouter>, routes: seq<Route>): seq<Entry>
  {
    SubrouterEntries(middlewares, subs) + RouteEntries("", middlewares, routes)
  }

  /** `mux.Router`, with the subrouters it owns held by value. */
  class Router {
    var middlewares: seq<MiddlewareName>
    var subrouters: seq<Subrouter>
    var routes: seq<Route>

    /** Every route the router registers, with its middleware chain. */
    function Entries(): seq<Entry>
      reads this
    {
      Table(middlewares, subrouters, routes)
    }

    /** `mux.NewRouter()`. */
    constructor ()
      ensures middlewares == [] && subrouters == [] && routes == []
    {
      middlewares, subrouters, routes := [], [], [];
    }

    /** `r.Use(m)`. */
    method Use(m: MiddlewareName)
      modifies this
      ensures middlewares == old(middlewares) + [m]
      ensures subrouters == old(subrouters) && routes == old(routes)
    {
      middlewares := middlewares + [m];
    }

    /** `r.PathPrefix(prefix).Subrouter()`; the result names the new
        subrouter. */
    method PathPrefixSubrouter(prefix: string) returns (i: nat)
      modifies this
      ensures subrouters == old(subrouters) + [Subrouter(prefix, [], [])]
      ensures i == |old(subrouters)| && i < |subrouters|
      ensures middlewares == old(middlewares) && routes == old(routes)
    {
      i := |subrouters|;
      subrouters := subrouters + [Subrouter(prefix, [], [])];
    }

    /** `sub.Use(m)` on subrouter `i`. */
    method SubrouterUse(i: nat, m: MiddlewareName)
      requires i < |subrouters|
      modifies this
      ensures |subrouters| == |old(subrouters)|
      ensures subrouters[i] == Subrouter(old(subrouters)[i].prefix, old(subrouters)[i].middlewares + [m], old(subrouters)[i].routes)
      ensures forall j | 0 <= j < |subrouters| && j != i :: subrouters[j] == old(subrouters)[j]
      ensures middlewares == old(middlewares) && routes == old(routes)
    {
      subrouters := subrouters[i := subrouters[i].(middlewares := subrouters[i].middlewares + [m])];
    }

    /** `sub.HandleFunc(path, h).Methods(httpMethod)` on subrouter `i`. */
    method SubrouterHandleFunc(i: nat, path: string, h: HandlerName, httpMethod: string)
      requires i < |subrouters|
      modifies this
      ensures |subrouters| == |old(subrouters)|
      ensures subrouters[i] == Subrouter(old(subrouters)[i].prefix, old(subrouters)[i].middlewares, old(subrouters)[i].routes + [Route(path, httpMethod, h)])
      ensures forall j | 0 <= j < |subrouters| && j != i :: subrouters[j] == old(subrouters)[j]
      ensures middlewares == old(middlewares) && routes == old(routes)
    {
      subrouters := subrouters[i := subrouters[i].(routes := subrouters[i].routes + [Route(path, httpMethod, h)])];
    }

    /** `r.PathPrefix(prefix).Handler(h)`. */
    method PathPrefixHandler(prefix: string, h: HandlerName)
      modifies this
      ensures routes == old(routes) + [Route(prefix, "", h)]
      ensures middlewares == old(middlewares) && subrouters == old(subrouters)
    {
      routes := routes + [Route(prefix, "", h)];
    }
  }
}
