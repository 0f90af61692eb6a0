/**
 * The HTTP router as this server uses it: handlers are registered for exact
 * paths, the first registration for a path wins, and a request no route
 * matches goes to the not-found handler, when one is installed.
 */
module Mux {
  import opened Wrappers

  /** The handlers the server installs on its router. */
  datatype Endpoint = QueryHandler | ImagesHandler | StatsHandler | StaticHandler

  type Route = (string, Endpoint)

  /** The position of the first route registered for path, or |routes| when there is none. */
  function FirstRoute(routes: seq<Route>, path: string): (i: nat)
    ensures i <= |routes|
    ensures forall j :: 0 <= j < i ==> routes[j].0 != path
    ensures i < |routes| ==> routes[i].0 == path
  {
    if routes == [] then 0
    else if routes[0].0 == path then 0
    else 1 + FirstRoute(routes[1..], path)
  }

  /** The handler of the first route registered for path, if any. */
  function Lookup(routes: seq<Route>, path: string): (r: Option<Endpoint>)
    ensures r.None? <==> forall i :: 0 <= i < |routes| ==> routes[i].0 != path
    ensures r.Some? ==>
      exists i :: 0 <= i < |routes| && routes[i] == (path, r.value)
                  && forall j :: 0 <= j < i ==> routes[j].0 != path
  {
    var i := FirstRoute(routes, path);
    if i < |routes| then Some(routes[i].1) else None
  }

  /** Where a request for path is sent: its route's handler, else the not-found handler. */
  function Dispatch(routes: seq<Route>, notFound: Option<Endpoint>, path: string): (r: Option<Endpoint>)
    ensures (forall i :: 0 <= i < |routes| ==> routes[i].0 != path) ==> r == notFound
    ensures (exists i :: 0 <= i < |routes| && routes[i].0 == path) ==> r == Lookup(routes, path) && r.Some?
  {
    var found := Lookup(routes, path);
    if found.Some? then found else notFound
  }

  /** Registering a route never changes where an already routed path goes. */
  lemma {:induction false} RegisterKeepsRoutedPaths(routes: seq<Route>, route: Route, path: string)
    requires Lookup(routes, path).Some?
    ensures Lookup(routes + [route], path) == Lookup(routes, path)
  {
    if routes[0].0 != path {
      assert (routes + [route])[1..] == routes[1..] + [route];
      RegisterKeepsRoutedPaths(routes[1..], route, path);
    }
  }

  class Router {
    var routes: seq<Route>
    var notFound: Option<Endpoint>

    constructor()
      ensures routes == [] && notFound == None
    {
      routes := [];
      notFound := None;
    }

    /** HandleFunc: adds a route for path behind the existing ones. */
    method HandleFunc(path: string, handler: Endpoint)
      modifies this`routes
      ensures routes == old(routes) + [(path, handler)]
    {
      routes := routes + [(path, handler)];
    }

    /** Assigning NotFoundHandler. */
    method SetNotFoundHandler(handler: Endpoint)
      modifies this`notFound
      ensures notFound == Some(handler)
    {
      notFound := Some(handler);
    }

    /** The handler the router sends a request for path to. */
    function Serve(path: string): (r: Option<Endpoint>)
      reads this
      ensures (forall i :: 0 <= i < |routes| ==> routes[i].0 != path) ==> r == notFound
      ensures (exists i :: 0 <= i < |routes| && routes[i].0 == path) ==> r.Some? && Lookup(routes, path) == r
    {
      Dispatch(routes, notFound, path)
    }
  }
}
