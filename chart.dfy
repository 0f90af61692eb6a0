/**
 * The pull-count chart: which request it makes for its org/repo props, how
 * a response becomes its state, and which view that state renders.
 */
module Chart {
  import opened Wrappers
  import Scrap
  import Text

  const LibraryOrg := "library"

  /** The route owner "_" stands for the official images' owner. */
  function Alias(org: string): (r: string)
    ensures org == "_" ==> r == LibraryOrg
    ensures org != "_" ==> r == org
    ensures r != "_"
    ensures r == "" <==> org == ""
  {
    if org == "_" then LibraryOrg else org
  }

  /** Aliasing twice is aliasing once. */
  lemma AliasIdempotent(org: string)
    ensures Alias(Alias(org)) == Alias(org)
  {
  }

  /**
   * The component's props. A route without a repository segment passes no
   * repo, and an absent prop is None.
   */
  datatype Props = Props(org: Option<string>, repo: Option<string>)

  /**
   * The text a prop stands for where it is read: absent reads as `absent`,
   * which is "" under a destructuring default and "undefined" inside a
   * template literal.
   */
  function PropText(prop: Option<string>, absent: string): (r: string)
    ensures prop.None? ==> r == absent
    ensures prop.Some? ==> r == prop.value
  {
    if prop.Some? then prop.value else absent
  }

  /** The owner and repository a stats request is made for. */
  datatype Request = Request(org: string, repo: string)

  /** fetch's guard: no request unless both org and repo are given and non-empty. */
  function FetchRequest(org: string, repo: Option<string>): (r: Option<Request>)
    ensures r.Some? <==> org != "" && repo.Some? && repo.value != ""
    ensures r.Some? ==> r.value == Request(org, repo.value)
  {
    if org == "" || repo.None? || repo.value == "" then None else Some(Request(org, repo.value))
  }

  /**
   * The request componentDidMount makes for props: the owner defaulted and
   * aliased, the repository as given, if both are non-empty.
   */
  function MountRequest(p: Props): (r: Option<Request>)
    ensures r.Some? <==> PropText(p.org, "") != "" && PropText(p.repo, "") != ""
    ensures r.Some? ==> r.value == Request(Alias(p.org.value), p.repo.value) && r.value.org != "_"
  {
    FetchRequest(Alias(PropText(p.org, "")), p.repo)
  }

  /**
   * The request componentWillReceiveProps makes: the new props' mount
   * request, if a prop changed (an absent prop differs from an empty one).
   */
  function PropsChangeRequest(current: Props, next: Props): (r: Option<Request>)
    ensures current.org == next.org && current.repo == next.repo ==> r.None?
    ensures current.org != next.org || current.repo != next.repo ==> r == MountRequest(next)
  {
    if current.org != next.org || current.repo != next.repo then MountRequest(next) else None
  }

  /** A snapshot as the stats API returns it; its timestamp is a date string. */
  datatype Record = Record(starCount: int, pullCount: int, timestamp: string)

  /** A chart point: the record with its timestamp in epoch milliseconds. */
  datatype Point = Point(starCount: int, pullCount: int, timestamp: int)

  /** The map in fetch; toEpoch stands for new Date(timestamp).getTime(). */
  function ToPoints(body: seq<Record>, toEpoch: string -> int): (points: seq<Point>)
    ensures |points| == |body|
    ensures forall k :: 0 <= k < |body| ==>
      && points[k].starCount == body[k].starCount
      && points[k].pullCount == body[k].pullCount
      && points[k].timestamp == toEpoch(body[k].timestamp)
  {
    seq(|body|, k requires 0 <= k < |body| => Point(body[k].starCount, body[k].pullCount, toEpoch(body[k].timestamp)))
  }

  /** Fewer points than this get the few-data advisory. */
  const FewPoints := 25

  datatype View =
    | Blank                               // render returns null
    | NotFound(link: string)              // the warning linking to the Docker Hub record
    | Plot(advisory: bool, points: seq<Point>)

  /** render's classification of the component state. */
  function Render(props: Props, fetched: bool, data: seq<Point>): (v: View)
    ensures v.Blank? <==> !fetched
    ensures v.NotFound? <==> fetched && |data| == 0
    ensures v.NotFound? ==> v.link == NotFoundLink(props)
    ensures v.Plot? <==> fetched && |data| > 0
    ensures v.Plot? ==> v.points == data && (v.advisory <==> |data| < FewPoints)
  {
    if !fetched then Blank
    else if |data| == 0 then NotFound(NotFoundLink(props))
    else Plot(|data| < FewPoints, data)
  }

  /** The not-found warning's link, built from the props as they are, without the alias. */
  function NotFoundLink(props: Props): (link: string)
    ensures |link| >= |Scrap.HubRepositoriesPrefix| + 2
    ensures link[..|Scrap.HubRepositoriesPrefix|] == Scrap.HubRepositoriesPrefix && link[|link| - 1] == '/'
  {
    Scrap.HubRepositoriesPrefix + PropText(props.org, "undefined") + "/" + PropText(props.repo, "undefined") + "/"
  }

  /**
   * With both props present and free of surrounding white space, the
   * not-found link is the snapshot address the scraper would use for
   * org/repo as given: an owner "_" is not replaced.
   */
  lemma NotFoundLinkIsSnapshotURI(org: string, repo: string)
    requires Text.TrimSpace(org + "/" + repo) == org + "/" + repo
    ensures NotFoundLink(Props(Some(org), Some(repo))) == Scrap.SnapshotURI(org + "/" + repo)
  {
    assert Scrap.HubRepositoriesPrefix + org + "/" + repo + "/"
        == Scrap.HubRepositoriesPrefix + (org + "/" + repo) + "/";
  }

  /** On the owner-only route the repository is absent and the link names "undefined". */
  lemma NotFoundLinkWithoutRepo(org: string)
    ensures NotFoundLink(Props(Some(org), None))
         == Scrap.HubRepositoriesPrefix + org + "/undefined/"
  {
    assert Scrap.HubRepositoriesPrefix + org + "/" + "undefined" + "/"
        == Scrap.HubRepositoriesPrefix + org + "/undefined/";
  }

  class ChartView {
    var props: Props
    var data: seq<Point>
    var fetched: bool

    constructor(props: Props)
      ensures this.props == props && data == [] && !fetched
    {
      this.props := props;
      data := [];
      fetched := false;
    }

    /** componentDidMount: the request it starts, if any. */
    method ComponentDidMount() returns (request: Option<Request>)
      ensures request == MountRequest(props)
    {
      var org := PropText(props.org, "");
      if org == "_" {
        org := LibraryOrg;
      }
      request := FetchRequest(org, props.repo);
    }

    /** componentWillReceiveProps, followed by the props update: the request it starts, if any. */
    method ComponentWillReceiveProps(next: Props) returns (request: Option<Request>)
      modifies this`props
      ensures request == PropsChangeRequest(old(props), next)
      ensures props == next
    {
      request := None;
      if props.org != next.org || props.repo != next.repo {
        var org := PropText(next.org, "");
        if org == "_" {
          org := LibraryOrg;
        }
        request := FetchRequest(org, next.repo);
      }
      props := next;
    }

    /**
     * The settled request: a body replaces the data and marks the chart
     * fetched; a failure is only logged.
     */
    method FetchSettled(outcome: Result<seq<Record>, string>, toEpoch: string -> int)
      modifies this`data, this`fetched
      ensures outcome.Success? ==> fetched && data == ToPoints(outcome.value, toEpoch)
      ensures outcome.Failure? ==> fetched == old(fetched) && data == old(data)
    {
      if outcome.Success? {
        fetched := true;
        data := ToPoints(outcome.value, toEpoch);
      }
    }
  }

  /** After a body of n records arrives, the chart shows the warning, the advisory or the plain chart. */
  lemma ViewAfterBody(props: Props, body: seq<Record>, toEpoch: string -> int)
    ensures |body| == 0 ==> Render(props, true, ToPoints(body, toEpoch)).NotFound?
    ensures 0 < |body| < FewPoints ==> Render(props, true, ToPoints(body, toEpoch)) == Plot(true, ToPoints(body, toEpoch))
    ensures |body| >= FewPoints ==> Render(props, true, ToPoints(body, toEpoch)) == Plot(false, ToPoints(body, toEpoch))
  {
  }
}
