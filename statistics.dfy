/**
 * The search page: a text box holding "org/repo", an error flag, and the
 * navigation to the chart page of the repository typed in.
 */
module Statistics {
  import opened Wrappers
  import opened Text
  import Chart

  const HubsPrefix := "/hubs/docker/"

  /** The owner and repository of an input that splits on '/' into exactly two pieces. */
  function SlugParts(input: string): (r: Option<(string, string)>)
    ensures r.Some? <==> Count(input, '/') == 1
    ensures r.Some? ==> r.value.0 + "/" + r.value.1 == input
    ensures r.Some? ==> '/' !in r.value.0 && '/' !in r.value.1
  {
    var parts := Split(input, '/');
    if |parts| == 2 then
      JoinSplit(input, '/');
      assert Join(parts, '/') == parts[0] + "/" + parts[1];
      Some((parts[0], parts[1]))
    else None
  }

  /** Where go navigates for an input, if the input is accepted. */
  function GoTarget(input: string): (r: Option<string>)
    ensures r.Some? <==> Count(input, '/') == 1
    ensures r.Some? ==> r.value == HubsPrefix + input
  {
    var parts := SlugParts(input);
    if parts.Some? then Some(HubsPrefix + parts.value.0 + "/" + parts.value.1) else None
  }

  /** The error flag onChange sets, from the input as it was before the change. */
  function ChangeError(previous: string): (error: bool)
    ensures error <==> GoTarget(previous).None?
  {
    |Split(previous, '/')| != 2
  }

  /** An owner and a repository without slashes, joined by '/', form an accepted input. */
  lemma {:induction false} JoinedSlugAccepted(org: string, repo: string)
    requires '/' !in org && '/' !in repo
    ensures GoTarget(org + "/" + repo) == Some(HubsPrefix + org + "/" + repo)
  {
    SplitAppend(org, repo, '/');
    SplitNoSeparator(repo, '/');
    assert org + "/" + repo == org + ['/'] + repo;
    assert HubsPrefix + (org + "/" + repo) == HubsPrefix + org + "/" + repo;
  }

  class StatisticsPage {
    var input: string
    var org: string
    var repo: string
    var error: bool
    /** The paths pushed onto the router's history, oldest first. */
    var navigations: seq<string>

    constructor()
      ensures input == "" && org == "" && repo == "" && !error
      ensures navigations == []
    {
      input := "";
      org := "";
      repo := "";
      error := false;
      navigations := [];
    }

    /** onChange: stores the typed value; the flag judges the input it replaces. */
    method OnChange(value: string)
      modifies this`input, this`error
      ensures input == value
      ensures error == ChangeError(old(input))
    {
      var parts := Split(input, '/');
      var err := true;
      if |parts| == 2 {
        err := false;
      }
      input := value;
      error := err;
    }

    /** componentDidMount: fills the box from the route's org and repo when both are given. */
    method ComponentDidMount(routeOrg: string, routeRepo: string)
      modifies this`input, this`org, this`repo
      ensures routeOrg == "" || routeRepo == "" ==>
        input == old(input) && org == old(org) && repo == old(repo)
      ensures routeOrg != "" && routeRepo != "" ==>
        org == Chart.Alias(routeOrg) && repo == routeRepo && input == org + "/" + repo
    {
      if routeOrg == "" || routeRepo == "" {
        return;
      }
      var o := routeOrg;
      if o == "_" {
        o := Chart.LibraryOrg;
      }
      input := o + "/" + routeRepo;
      org := o;
      repo := routeRepo;
    }

    /** go: navigates to the typed repository's page, or raises the error flag. */
    method Go()
      modifies this`error, this`navigations
      ensures error <==> GoTarget(input).None?
      ensures GoTarget(input).Some? ==> navigations == old(navigations) + [GoTarget(input).value]
      ensures GoTarget(input).None? ==> navigations == old(navigations)
    {
      var parts := Split(input, '/');
      if |parts| == 2 {
        error := false;
        navigations := navigations + [HubsPrefix + parts[0] + "/" + parts[1]];
      } else {
        error := true;
      }
    }

    /** onKeyPress: Enter submits; any other key changes nothing. */
    method OnKeyPress(key: string)
      modifies this`error, this`navigations
      ensures key != "Enter" ==> error == old(error) && navigations == old(navigations)
      ensures key == "Enter" ==> (error <==> GoTarget(input).None?)
      ensures key == "Enter" && GoTarget(input).Some? ==> navigations == old(navigations) + [GoTarget(input).value]
      ensures key == "Enter" && GoTarget(input).None? ==> navigations == old(navigations)
    {
      if key == "Enter" {
        Go();
      }
    }
  }

  /**
   * Mounting on a route with a plain owner and repository and then pressing
   * Enter navigates to that repository's page, with "_" read as "library".
   */
  lemma MountThenGo(routeOrg: string, routeRepo: string)
    requires routeOrg != "" && routeRepo != ""
    requires '/' !in routeOrg && '/' !in routeRepo
    ensures GoTarget(Chart.Alias(routeOrg) + "/" + routeRepo)
         == Some(HubsPrefix + Chart.Alias(routeOrg) + "/" + routeRepo)
  {
    assert '/' !in Chart.LibraryOrg by {
      assert forall k :: 0 <= k < |Chart.LibraryOrg| ==> Chart.LibraryOrg[k] != '/';
    }
    JoinedSlugAccepted(Chart.Alias(routeOrg), routeRepo);
  }
}
