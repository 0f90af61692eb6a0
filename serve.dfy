/**
 * The serve command's web front: the API routes, and the single-page-app
 * fallback that serves a bundled file when the path names one and the
 * application's index otherwise.
 */
module Serve {
  import opened Wrappers
  import opened Mux
  import Api

  /** A request whose path the fallback handler may rewrite in place. */
  class Request {
    var path: string

    constructor(path: string)
      ensures this.path == path
    {
      this.path := path;
    }
  }

  /** strings.Replace(f, "\\", "/", -1): every backslash becomes a slash. */
  function Slashes(f: string): (r: string)
    ensures |r| == |f|
    ensures forall k :: 0 <= k < |f| ==> r[k] == (if f[k] == '\\' then '/' else f[k])
  {
    if f == [] then []
    else [if f[0] == '\\' then '/' else f[0]] + Slashes(f[1..])
  }

  /** The request path under which a bundled file is listed. */
  function StaticPath(f: string): (p: string)
    ensures |p| == |f| + 1 && p[0] == '/'
    ensures forall k :: 0 <= k < |p| ==> p[k] != '\\'
    ensures forall k :: 0 <= k < |f| ==> p[k + 1] == (if f[k] == '\\' then '/' else f[k])
  {
    "/" + Slashes(f)
  }

  /** A file name with forward slashes only is listed as itself behind a "/". */
  lemma {:induction false} StaticPathOfSlashed(f: string)
    requires forall k :: 0 <= k < |f| ==> f[k] != '\\'
    ensures StaticPath(f) == "/" + f
  {
    assert Slashes(f) == f;
  }

  /** The list loop: one listed path per bundled file, in the listing's order. */
  method StaticList(files: seq<string>) returns (list: seq<string>)
    ensures |list| == |files|
    ensures forall k :: 0 <= k < |files| ==> list[k] == StaticPath(files[k])
  {
    var a := new string[|files|];
    for k := 0 to |files|
      invariant forall j :: 0 <= j < k ==> a[j] == StaticPath(files[j])
    {
      a[k] := StaticPath(files[k]);
    }
    list := a[..];
  }

  /** The path the file server is handed for a request path. */
  function ServedPath(list: seq<string>, path: string): (r: string)
    ensures path in list ==> r == path
    ensures path !in list ==> r == "/"
  {
    if path in list then path else "/"
  }

  /** Serving the served path again changes nothing: the fallback is idempotent. */
  lemma ServedPathIdempotent(list: seq<string>, path: string)
    ensures ServedPath(list, ServedPath(list, path)) == ServedPath(list, path)
  {
  }

  /**
   * sh: serves the request as it is when its path is a listed one, and
   * otherwise rewrites its path to "/" first. served is the path handed to
   * the file server.
   */
  method ServeStatic(list: seq<string>, r: Request) returns (served: string)
    modifies r
    ensures r.path == ServedPath(list, old(r.path))
    ensures served == r.path
  {
    for i := 0 to |list|
      invariant forall j :: 0 <= j < i ==> list[j] != r.path
      invariant r.path == old(r.path)
    {
      if r.path == list[i] {
        served := r.path;
        return;
      }
    }
    r.path := "/";
    served := r.path;
  }

  /** The serve command's router: the API routes, with sh as the not-found handler. */
  method NewServeRouter() returns (router: Router)
    ensures fresh(router)
    ensures router.routes == Api.ApiRoutes
    ensures router.notFound == Some(StaticHandler)
  {
    router := new Router();
    Api.Handle(router);
    router.SetNotFoundHandler(StaticHandler);
  }

  /** The fallback runs exactly for the requests no API route matches. */
  lemma FallbackOnlyWhenUnrouted(path: string)
    ensures Dispatch(Api.ApiRoutes, Some(StaticHandler), path) == Some(StaticHandler)
        <==> path !in {Api.SnapshotsPath, Api.DiscoveryPath, Api.StatsPath}
  {
    Api.ApiRoutesDispatch(Some(StaticHandler), path);
  }
}
