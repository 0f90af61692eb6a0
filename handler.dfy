/**
 * The HTTP API: the three routes, and the parameter handling of the
 * snapshot query. The database lookups and the JSON writer are parameters.
 */
module Api {
  import opened Wrappers
  import opened Text
  import opened Scrap
  import opened Mux

  const SnapshotsPath := "/snapshots/repositories"
  const DiscoveryPath := "/discovery/repositories"
  const StatsPath := "/stats"

  /** The route table Handle registers, in registration order. */
  const ApiRoutes: seq<Route> :=
    [(SnapshotsPath, QueryHandler), (DiscoveryPath, ImagesHandler), (StatsPath, StatsHandler)]

  /** Handle: registers the three API routes on the router. */
  method Handle(router: Router)
    modifies router
    ensures router.routes == old(router.routes) + ApiRoutes
    ensures router.notFound == old(router.notFound)
  {
    router.HandleFunc(SnapshotsPath, QueryHandler);
    router.HandleFunc(DiscoveryPath, ImagesHandler);
    router.HandleFunc(StatsPath, StatsHandler);
  }

  /** On a router without other routes, each API path reaches its own handler and only those do. */
  lemma ApiRoutesDispatch(notFound: Option<Endpoint>, path: string)
    ensures path == SnapshotsPath ==> Dispatch(ApiRoutes, notFound, path) == Some(QueryHandler)
    ensures path == DiscoveryPath ==> Dispatch(ApiRoutes, notFound, path) == Some(ImagesHandler)
    ensures path == StatsPath ==> Dispatch(ApiRoutes, notFound, path) == Some(StatsHandler)
    ensures path !in {SnapshotsPath, DiscoveryPath, StatsPath} ==> Dispatch(ApiRoutes, notFound, path) == notFound
  {
    assert ApiRoutes[0].0 == SnapshotsPath && ApiRoutes[1].0 == DiscoveryPath && ApiRoutes[2].0 == StatsPath;
    assert SnapshotsPath != DiscoveryPath by { assert SnapshotsPath[1] != DiscoveryPath[1]; }
    assert SnapshotsPath != StatsPath && DiscoveryPath != StatsPath;
  }

  /** What the JSON writer is asked to write. */
  datatype Response =
    | ErrorCode(status: int, message: string)   // an error with an explicit status code
    | ErrorOf(error: Error)                     // an error whose status the writer derives
    | History(snapshots: seq<RepositorySnapshot>)
    | Slugs(slugs: seq<string>)
    | Report(report: Scrap.StatsReport)

  const RepoEmpty := "query parameter repo is empty"

  /** The owner the query uses: "library" when none is given, any other value as given. */
  function QueryOrg(org: string): (r: string)
    ensures r != ""
    ensures org == "" ==> r == "library"
    ensures org != "" ==> r == org
  {
    if org == "" then "library" else org
  }

  /** The slug the snapshot lookup is made for. */
  function QuerySlug(org: string, repo: string): (slug: string)
    ensures |slug| == |QueryOrg(org)| + 1 + |repo|
    ensures slug[..|QueryOrg(org)|] == QueryOrg(org)
    ensures slug[|QueryOrg(org)|] == '/'
    ensures slug[|QueryOrg(org)| + 1..] == repo
    ensures org == "" ==> slug == "library/" + repo
  {
    QueryOrg(org) + "/" + repo
  }

  /**
   * When neither part names a second owner, the slug splits back into the
   * owner and the repository; in particular "_" is kept as the owner.
   */
  lemma QuerySlugParts(org: string, repo: string)
    requires '/' !in org
    ensures Split(QuerySlug(org, repo), '/') == [QueryOrg(org)] + Split(repo, '/')
    ensures '/' !in repo ==> Split(QuerySlug(org, repo), '/') == [QueryOrg(org), repo]
  {
    var o := QueryOrg(org);
    assert '/' !in o by {
      if org == "" {
        assert forall k :: 0 <= k < |"library"| ==> "library"[k] != '/';
      }
    }
    assert QuerySlug(org, repo) == o + ['/'] + repo;
    SplitAppend(o, repo, '/');
    if '/' !in repo {
      SplitNoSeparator(repo, '/');
    }
  }

  /** Distinct queries without a second owner look up distinct slugs. */
  lemma QuerySlugInjective(org1: string, repo1: string, org2: string, repo2: string)
    requires '/' !in org1 && '/' !in org2 && '/' !in repo1 && '/' !in repo2
    ensures QuerySlug(org1, repo1) == QuerySlug(org2, repo2)
        <==> QueryOrg(org1) == QueryOrg(org2) && repo1 == repo2
  {
    QuerySlugParts(org1, repo1);
    QuerySlugParts(org2, repo2);
  }

  /**
   * Without the slash-free hypothesis of QuerySlugInjective, two different
   * queries can look up the same slug.
   */
  lemma QuerySlugSlashCollision()
    ensures QuerySlug("a/b", "c") == QuerySlug("a", "b/c")
    ensures "a/b" != "a" && "c" != "b/c"
  {
    assert QuerySlug("a/b", "c") == "a/b/c";
  }

  /**
   * The first half of query: either the slug to look up, or the response
   * written without any lookup.
   */
  function QueryLookup(org: string, repo: string): (r: Result<string, Response>)
    ensures r.Failure? <==> repo == ""
    ensures r.Failure? ==> r.error == ErrorCode(400, RepoEmpty)
    ensures r.Success? ==> r.value == QuerySlug(org, repo)
  {
    if repo == "" then Failure(ErrorCode(400, RepoEmpty))
    else Success(QuerySlug(org, repo))
  }

  /**
   * The second half of query: a failed lookup is written as an error, a
   * missing history as an empty list, any other history as it is.
   */
  function QueryRespond(found: Result<Option<seq<RepositorySnapshot>>, Error>): (r: Response)
    ensures found.Failure? <==> r.ErrorOf?
    ensures found.Failure? ==> r.error == found.error
    ensures found.Success? ==> r.History?
    ensures found.Success? && found.value.Some? ==> r.snapshots == found.value.value
    ensures found.Success? && found.value.None? ==> r.snapshots == []
  {
    if found.Failure? then ErrorOf(found.error)
    else if found.value.None? then History([])
    else History(found.value.value)
  }

  /** query, with the snapshot lookup as a parameter. */
  function Query(org: string, repo: string,
                 find: string -> Result<Option<seq<RepositorySnapshot>>, Error>): (r: Response)
    ensures repo == "" ==> r == ErrorCode(400, RepoEmpty)
    ensures repo != "" ==> r == QueryRespond(find(QuerySlug(org, repo)))
  {
    var lookup := QueryLookup(org, repo);
    if lookup.Failure? then lookup.error else QueryRespond(find(lookup.value))
  }

  /** A query with a repository is answered with a list or a lookup error, never with a null. */
  lemma QueryAnswered(org: string, repo: string,
                      find: string -> Result<Option<seq<RepositorySnapshot>>, Error>)
    requires repo != ""
    ensures Query(org, repo, find).History? || Query(org, repo, find).ErrorOf?
    ensures Query(org, repo, find).ErrorOf? <==> find(QuerySlug(org, repo)).Failure?
  {
  }

  /** images, with the slug listing as a parameter. */
  function Images(listed: Result<seq<string>, Error>): (r: Response)
    ensures listed.Failure? ==> r == ErrorOf(listed.error)
    ensures listed.Success? ==> r == Slugs(listed.value)
  {
    if listed.Failure? then ErrorOf(listed.error) else Slugs(listed.value)
  }

  /** stats: writes the scraper's report. */
  function StatsResponse(report: Scrap.StatsReport): (r: Response)
    ensures r.Report? && r.report == report
  {
    Report(report)
  }
}
