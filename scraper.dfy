/**
 * The scraper of scrap/scraper.go: its configuration defaults, the day
 * truncation and refresh interval, the Docker Hub snapshot URI, slug
 * normalisation during discovery, the statistics record and the
 * de-duplication set that guards the snapshot queue.
 *
 * Instants are Unix nanoseconds in UTC. HTTP requests, JSON decoding and
 * database calls are parameters (their results), never performed here.
 */
module Scrap {
  import opened Wrappers
  import opened Text

  type Error = string

  /** Length of one calendar day in nanoseconds (UTC has no leap seconds in Go). */
  const NanosPerDay: int := 86_400_000_000_000

  const HubRepositoriesPrefix: string := "https://hub.docker.com/v2/repositories/"

  const LibraryPrefix: string := "library/"

  /** COUNT(...) results: non-negative values of a Go int64. */
  type DbCount = n: int | 0 <= n < 0x8000_0000_0000_0000

  predicate IsInt64(n: int) {
    -0x8000_0000_0000_0000 <= n < 0x8000_0000_0000_0000
  }

  /** errors.Wrapf(err, "<context>"): the context, a colon, then the cause. */
  function Wrap(context: string, err: Error): (r: Error)
    ensures |r| == |context| + 2 + |err|
    ensures r[..|context|] == context
    ensures r[|context|..|context| + 2] == ": "
    ensures r[|context| + 2..] == err
  {
    context + ": " + err
  }

  /** NewScraper's task count: values below 1 become 1. */
  function ClampTasks(tasks: int): (n: int)
    ensures n >= 1 && n >= tasks
    ensures n == tasks || n == 1
  {
    if tasks < 1 then 1 else tasks
  }

  lemma MultiplesOfDayApart(a: int, b: int)
    requires a % NanosPerDay == 0 && b % NanosPerDay == 0 && a < b
    ensures a + NanosPerDay <= b
  {
    var qa, qb := a / NanosPerDay, b / NanosPerDay;
    assert a == NanosPerDay * qa;
    assert b == NanosPerDay * qb;
    assert qa < qb;
    assert NanosPerDay * qb - NanosPerDay * qa == NanosPerDay * (qb - qa);
  }

  /** time.Date(year, month, day, 0, 0, 0, 0, UTC) of the calendar day holding t. */
  function DayStart(t: int): (r: int)
    ensures r <= t < r + NanosPerDay
    ensures r % NanosPerDay == 0
  {
    t - t % NanosPerDay
  }

  /** The start of t's day is the only midnight in the day-long window ending at t. */
  lemma DayStartUnique(t: int, m: int)
    requires m % NanosPerDay == 0 && m <= t < m + NanosPerDay
    ensures DayStart(t) == m
  {
    var r := DayStart(t);
    if r < m {
      MultiplesOfDayApart(r, m);
    } else if m < r {
      MultiplesOfDayApart(m, r);
    }
  }

  /** Truncating twice is truncating once. */
  lemma DayStartIdempotent(t: int)
    ensures DayStart(DayStart(t)) == DayStart(t)
  {
    DayStartUnique(DayStart(t), DayStart(t));
  }

  /** Later instants never map to earlier days. */
  lemma DayStartMonotonic(t1: int, t2: int)
    requires t1 <= t2
    ensures DayStart(t1) <= DayStart(t2)
  {
    if DayStart(t2) < DayStart(t1) {
      MultiplesOfDayApart(DayStart(t2), DayStart(t1));
    }
  }

  /** fmt.Sprintf("%d days", daysRefresh). */
  function Interval(daysRefresh: int): (r: string)
    ensures |r| > 5 && r[|r| - 5..] == " days"
    ensures r[..|r| - 5] == FormatInt(daysRefresh)
  {
    FormatInt(daysRefresh) + " days"
  }

  /** Reads the day count back out of an interval string. */
  function IntervalDays(s: string): Option<int> {
    if |s| >= 5 && s[|s| - 5..] == " days" then ParseInt(s[..|s| - 5]) else None
  }

  lemma IntervalRoundTrip(daysRefresh: int)
    ensures IntervalDays(Interval(daysRefresh)) == Some(daysRefresh)
  {
    var s := Interval(daysRefresh);
    assert s[..|s| - 5] == FormatInt(daysRefresh);
    FormatIntRoundTrip(daysRefresh);
  }

  /** The scrapEvery closure built by NewScraper. */
  function ScrapEvery(t: int, daysRefresh: int): (r: (int, string))
    ensures r.0 <= t < r.0 + NanosPerDay && r.0 % NanosPerDay == 0
    ensures r.1 == Interval(daysRefresh) && IntervalDays(r.1) == Some(daysRefresh)
  {
    IntervalRoundTrip(daysRefresh);
    (DayStart(t), Interval(daysRefresh))
  }

  /** The address fetchSnapshot requests for a slug. */
  function SnapshotURI(slug: string): (uri: string)
    ensures uri == HubRepositoriesPrefix + TrimSpace(slug) + "/"
  {
    TrimSpaceAfterNewlines(slug);
    HubRepositoriesPrefix + TrimSpace(TrimNewlines(slug)) + "/"
  }

  /** Reads the slug back out of a snapshot URI. */
  function SlugOfURI(uri: string): Option<string> {
    var n := |HubRepositoriesPrefix|;
    if |uri| > n && uri[..n] == HubRepositoriesPrefix && uri[|uri| - 1] == '/'
    then Some(uri[n..|uri| - 1])
    else None
  }

  /** The URI carries exactly the trimmed slug. */
  lemma SnapshotURIRoundTrip(slug: string)
    ensures SlugOfURI(SnapshotURI(slug)) == Some(TrimSpace(slug))
  {
    var uri := SnapshotURI(slug);
    var n := |HubRepositoriesPrefix|;
    assert uri[..n] == HubRepositoriesPrefix;
    assert uri[n..|uri| - 1] == TrimSpace(slug);
  }

  /** Two slugs are fetched from the same URI exactly when they trim to the same text. */
  lemma SnapshotURIInjective(a: string, b: string)
    ensures SnapshotURI(a) == SnapshotURI(b) <==> TrimSpace(a) == TrimSpace(b)
  {
    if SnapshotURI(a) == SnapshotURI(b) {
      SnapshotURIRoundTrip(a);
      SnapshotURIRoundTrip(b);
    }
  }

  /**
   * fetchDiscovery's slug rule: a slug with an owner is kept; any other gets
   * the "library/" owner.
   */
  function NormalizeSlug(slug: string): (r: string)
    ensures '/' in slug ==> r == slug
    ensures '/' !in slug ==> |r| >= |LibraryPrefix| && r[..|LibraryPrefix|] == LibraryPrefix
  {
    if '/' in slug then slug else LibrarySlug(slug)
  }

  /** Every normalised slug names an owner. */
  lemma NormalizeSlugHasOwner(slug: string)
    ensures '/' in NormalizeSlug(slug)
  {
    var r := NormalizeSlug(slug);
    if '/' !in slug {
      assert r[7] == r[..|LibraryPrefix|][7] == '/';
    }
  }

  /** The rewrite fetchDiscovery applies to an owner-less slug. */
  function LibrarySlug(slug: string): (r: string)
    ensures |r| >= |LibraryPrefix| && r[..|LibraryPrefix|] == LibraryPrefix
  {
    TrimSpaceAfterNewlines(LibraryPrefix + slug);
    OwnerlessSlug(slug);
    TrimSpace(TrimNewlines(LibraryPrefix + slug))
  }

  /**
   * The rewrite puts "library/" in front of the slug and removes only the
   * slug's trailing spaces: trimming newlines first adds nothing, and the
   * prefix shields the slug's leading spaces.
   */
  lemma LibrarySlugShape(slug: string)
    ensures LibrarySlug(slug) == LibraryPrefix + slug[..|slug| - TrailCount(slug, IsSpace)]
    ensures LibrarySlug(slug) == TrimSpace(LibraryPrefix + slug)
  {
    TrimSpaceAfterNewlines(LibraryPrefix + slug);
    OwnerlessSlug(slug);
  }

  /** TrimSpace of an owner-less slug behind the "library/" prefix. */
  lemma {:induction false} OwnerlessSlug(slug: string)
    ensures TrimSpace(LibraryPrefix + slug)
         == LibraryPrefix + slug[..|slug| - TrailCount(slug, IsSpace)]
  {
    var s := LibraryPrefix + slug;
    var n := TrailCount(slug, IsSpace);
    var j := |s| - n;
    assert TrimmedAt(s, IsSpace, 0, j) by {
      assert s[0] == 'l' && s[7] == '/';
      forall k | j <= k < |s| ensures IsSpace(s[k]) {
        assert s[k] == slug[k - 8];
      }
      if n < |slug| {
        assert s[j - 1] == slug[|slug| - 1 - n];
      }
    }
    assert TrimSpace(s) == s[0..j] by {
      TrimFuncExact(s, IsSpace, 0, j);
    }
    assert s[0..j] == LibraryPrefix + slug[..|slug| - n];
  }

  /** Normalising a normalised slug changes nothing. */
  lemma {:induction false} NormalizeSlugIdempotent(slug: string)
    ensures NormalizeSlug(NormalizeSlug(slug)) == NormalizeSlug(slug)
  {
    NormalizeSlugHasOwner(slug);
  }

  datatype Summary = Summary(slug: string)

  /** The decoded discovery page. */
  datatype DiscoveryResult =
    DiscoveryResult(next: string, previous: string, count: int, summaries: seq<Summary>)

  /** The snapshot record Docker Hub returns (timestamps in Unix nanoseconds). */
  datatype RepositorySnapshot = RepositorySnapshot(stars: int, pulls: int, timestamp: int)

  /** An HTTP response: status, raw body, and the body decoded as JSON. */
  datatype HttpResponse<T> = HttpResponse(status: int, body: string, decoded: Result<T, Error>)

  /** checkStatus: an error naming both codes unless the status is the expected one. */
  function CheckStatus(status: int, expected: int, body: string): (r: Option<Error>)
    ensures r.None? <==> status == expected
  {
    if status != expected
    then Some("http: expected status code " + FormatInt(expected) + " but got "
              + FormatInt(status) + " with body: " + body)
    else None
  }

  /** fetchDiscovery's loop: rewrites every owner-less slug in place. */
  method NormalizeSummaries(a: array<Summary>)
    modifies a
    ensures forall k :: 0 <= k < a.Length ==> a[k] == Summary(NormalizeSlug(old(a[k]).slug))
  {
    ghost var original := a[..];
    for k := 0 to a.Length
      invariant forall j :: 0 <= j < k ==> a[j] == Summary(NormalizeSlug(original[j].slug))
      invariant forall j :: k <= j < a.Length ==> a[j] == original[j]
    {
      NormalizeSummaryAt(a, k);
    }
  }

  /** One step of that loop: the summary at index k gets an owner if it has none. */
  method NormalizeSummaryAt(a: array<Summary>, k: int)
    requires 0 <= k < a.Length
    modifies a
    ensures a[k] == Summary(NormalizeSlug(old(a[k]).slug))
    ensures forall j :: 0 <= j < a.Length && j != k ==> a[j] == old(a[j])
  {
    if '/' !in a[k].slug {
      a[k] := Summary(LibrarySlug(a[k].slug));
    }
  }

  /** discover: the slugs of a page's summaries, filled in by index. */
  method SlugList(summaries: seq<Summary>) returns (slugs: seq<string>)
    ensures |slugs| == |summaries|
    ensures forall k :: 0 <= k < |slugs| ==> slugs[k] == summaries[k].slug
  {
    var a := new string[|summaries|];
    for k := 0 to |summaries|
      invariant forall j :: 0 <= j < k ==> a[j] == summaries[j].slug
    {
      a[k] := summaries[k].slug;
    }
    slugs := a[..];
  }

  /** The Stats record served on /stats. */
  datatype StatsReport = StatsReport(
    totalRepositories: int,
    repositoriesWithoutErrors: int,
    repositoriesWithErrors: int,
    totalSnapshotsCompleted: int,
    snapShotQueue: int,
    snapshotsCompleted: nat,
    discoveriesCompleted: nat,
    snapshotQueueLength: nat,
    snapshotRefreshInterval: string)

  /** The snapshot queue's de-duplication set and the channel's buffered slugs. */
  datatype SnapshotQueue = SnapshotQueue(blacklist: map<string, bool>, pending: seq<string>)

  /** snapshotQueuePush: records and enqueues a slug unless it is already recorded. */
  function Push(q: SnapshotQueue, slug: string): (r: SnapshotQueue)
    ensures slug in r.blacklist
    ensures r.blacklist.Keys == q.blacklist.Keys + {slug}
    ensures forall s :: s in q.blacklist ==> r.blacklist[s] == q.blacklist[s]
    ensures |r.pending| == |q.pending| + (if slug in q.blacklist then 0 else 1)
    ensures r.pending[..|q.pending|] == q.pending
    ensures |r.pending| > |q.pending| ==> r.pending[|q.pending|] == slug
  {
    if slug in q.blacklist then q
    else SnapshotQueue(q.blacklist[slug := true], q.pending + [slug])
  }

  /** snapshotQueuePop: forgets one slug; the buffered slugs are untouched. */
  function Pop(q: SnapshotQueue, slug: string): (r: SnapshotQueue)
    ensures r.blacklist.Keys == q.blacklist.Keys - {slug}
    ensures forall s :: s in r.blacklist ==> r.blacklist[s] == q.blacklist[s]
    ensures r.pending == q.pending
  {
    SnapshotQueue(q.blacklist - {slug}, q.pending)
  }

  /** A second push before a pop enqueues nothing. */
  lemma PushTwice(q: SnapshotQueue, slug: string)
    ensures Push(Push(q, slug), slug) == Push(q, slug)
  {
  }

  /** Popping a freshly pushed slug restores the set it was pushed into. */
  lemma PopUndoesPush(q: SnapshotQueue, slug: string)
    requires slug !in q.blacklist
    ensures Pop(Push(q, slug), slug).blacklist == q.blacklist
  {
    assert Pop(Push(q, slug), slug).blacklist.Keys == q.blacklist.Keys;
  }

  /** After a pop the slug can be enqueued again. */
  lemma PushAfterPop(q: SnapshotQueue, slug: string)
    ensures Push(Pop(q, slug), slug).pending == q.pending + [slug]
  {
  }

  class Scraper {
    var taskCount: int
    var queueCapacity: int
    var pageSize: int
    var daysRefresh: int
    var discoverEvery: int
    var delay: int
    var scrapRefreshQueue: int
    var blacklist: map<string, bool>
    var queue: seq<string>
    var snapshotsCompleted: nat
    var reposDiscovered: nat

    ghost predicate Valid()
      reads this
    {
      && taskCount >= 1
      && queueCapacity == taskCount
      && forall s :: s in blacklist ==> blacklist[s]
    }

    function QueueState(): SnapshotQueue
      reads this
    {
      SnapshotQueue(blacklist, queue)
    }

    /** NewScraper; the de-duplication set starts empty (NewScraper leaves it nil). */
    constructor (tasks: int, discoverEvery: int, delay: int, scrapRefreshQueue: int,
                 pageSize: int, daysRefresh: int)
      ensures Valid()
      ensures taskCount == ClampTasks(tasks) && queueCapacity == taskCount
      ensures this.pageSize == pageSize && this.daysRefresh == daysRefresh
      ensures this.discoverEvery == discoverEvery && this.delay == delay
      ensures this.scrapRefreshQueue == scrapRefreshQueue
      ensures blacklist == map[] && queue == []
      ensures snapshotsCompleted == 0 && reposDiscovered == 0
    {
      var n := tasks;
      if n < 1 {
        n := 1;
      }
      queueCapacity := n;
      taskCount := n;
      this.pageSize := pageSize;
      this.discoverEvery := discoverEvery;
      this.delay := delay;
      this.scrapRefreshQueue := scrapRefreshQueue;
      this.daysRefresh := daysRefresh;
      blacklist := map[];
      queue := [];
      snapshotsCompleted := 0;
      reposDiscovered := 0;
    }

    /**
     * Stats: the four database counts (0 when their query failed) combined
     * with the process counters, the channel length and the refresh interval.
     */
    function Stats(healthy: DbCount, queued: DbCount, total: DbCount, snapshots: DbCount): (r: StatsReport)
      reads this
      ensures r.totalRepositories == total && r.repositoriesWithoutErrors == healthy
      ensures r.repositoriesWithErrors + r.repositoriesWithoutErrors == r.totalRepositories
      ensures IsInt64(r.repositoriesWithErrors)
      ensures r.totalSnapshotsCompleted == snapshots && r.snapShotQueue == queued
      ensures r.snapshotsCompleted == snapshotsCompleted
      ensures r.discoveriesCompleted == reposDiscovered
      ensures r.snapshotQueueLength == |queue|
      ensures r.snapshotRefreshInterval == Interval(daysRefresh)
      ensures IntervalDays(r.snapshotRefreshInterval) == Some(daysRefresh)
    {
      var (_, interval) := ScrapEvery(0, daysRefresh);
      StatsReport(
        totalRepositories := total,
        repositoriesWithoutErrors := healthy,
        repositoriesWithErrors := total - healthy,
        totalSnapshotsCompleted := snapshots,
        snapShotQueue := queued,
        snapshotsCompleted := snapshotsCompleted,
        discoveriesCompleted := reposDiscovered,
        snapshotQueueLength := |queue|,
        snapshotRefreshInterval := interval)
    }

    method SnapshotQueuePush(slug: string)
      requires Valid()
      modifies this`blacklist, this`queue
      ensures Valid()
      ensures QueueState() == Push(old(QueueState()), slug)
    {
      var isInQueue := slug in blacklist;
      if !isInQueue {
        blacklist := blacklist[slug := true];
        queue := queue + [slug];
      }
    }

    method SnapshotQueuePop(slug: string)
      requires Valid()
      modifies this`blacklist
      ensures Valid()
      ensures QueueState() == Pop(old(QueueState()), slug)
    {
      blacklist := blacklist - {slug};
    }

    /**
     * fetchSnapshot: requests the snapshot URI, checks the status (marking the
     * repository on a bad one), decodes and stores the snapshot; whatever the
     * outcome, the slug is popped and the completion counter advances.
     */
    method FetchSnapshot(slug: string,
                         get: string -> Result<HttpResponse<RepositorySnapshot>, Error>,
                         markError: (string, int) -> Option<Error>,
                         store: (string, RepositorySnapshot) -> Option<Error>)
      returns (err: Option<Error>, uri: string)
      requires Valid()
      modifies this`blacklist, this`snapshotsCompleted
      ensures Valid()
      ensures uri == HubRepositoriesPrefix + TrimSpace(slug) + "/"
      ensures QueueState() == Pop(old(QueueState()), slug)
      ensures snapshotsCompleted == old(snapshotsCompleted) + 1
      ensures err.None? <==>
        && get(uri).Success?
        && get(uri).value.status == 200
        && get(uri).value.decoded.Success?
        && store(slug, get(uri).value.decoded.value).None?
      ensures err.Some? ==> |err.value| >= 12 + |slug| && err.value[..12 + |slug|] == "repository: " + slug
    {
      uri := SnapshotURI(slug);
      var context := "repository: " + slug;
      var res := get(uri);
      if res.Failure? {
        err := Some(Wrap(context, res.error));
      } else if CheckStatus(res.value.status, 200, res.value.body).Some? {
        var statusErr := CheckStatus(res.value.status, 200, res.value.body).value;
        var markErr := markError(slug, res.value.status);
        if markErr.Some? {
          err := Some(Wrap(context, markErr.value));
        } else {
          err := Some(Wrap(context, statusErr));
        }
      } else if res.value.decoded.Failure? {
        err := Some(Wrap(context, res.value.decoded.error));
      } else {
        var storeErr := store(slug, res.value.decoded.value);
        err := if storeErr.Some? then Some(Wrap(context, storeErr.value)) else None;
      }
      snapshotsCompleted := snapshotsCompleted + 1;
      SnapshotQueuePop(slug);
    }

    /**
     * fetchDiscovery: the decoded page (request, status check and decoding are
     * the fetch parameter) with every slug normalised; counts one discovery.
     */
    method FetchDiscovery(uri: string, fetch: string -> Result<DiscoveryResult, Error>)
      returns (r: Result<DiscoveryResult, Error>)
      modifies this`reposDiscovered
      ensures reposDiscovered == old(reposDiscovered) + 1
      ensures fetch(uri).Failure? ==> r == fetch(uri)
      ensures fetch(uri).Success? ==>
        && r.Success?
        && r.value.summaries == NormalizedSummaries(fetch(uri).value.summaries)
        && r.value == fetch(uri).value.(summaries := r.value.summaries)
    {
      var res := fetch(uri);
      if res.Failure? {
        r := res;
      } else {
        var s := res.value;
        var a := new Summary[|s.summaries|](k requires 0 <= k < |s.summaries| => s.summaries[k]);
        NormalizeSummaries(a);
        r := Success(s.(summaries := a[..]));
      }
      reposDiscovered := reposDiscovered + 1;
    }

    /**
     * One round of discover's loop: fetch the page at next, hand its slugs to
     * the repository index (the batch parameter) and return the next page's address.
     */
    method DiscoverPage(next: string,
                        fetch: string -> Result<DiscoveryResult, Error>,
                        batch: seq<string> -> Option<Error>)
      returns (r: Result<string, Error>, slugs: seq<string>)
      modifies this`reposDiscovered
      ensures reposDiscovered == old(reposDiscovered) + 1
      ensures fetch(next).Failure? ==> r == Failure(Wrap("discover: \"" + next + "\"", fetch(next).error))
      ensures fetch(next).Success? ==>
        && |slugs| == |fetch(next).value.summaries|
        && (forall k :: 0 <= k < |slugs| ==> slugs[k] == NormalizeSlug(fetch(next).value.summaries[k].slug))
        && (forall k :: 0 <= k < |slugs| ==> '/' in slugs[k])
        && (batch(slugs).None? ==> r == Success(fetch(next).value.next))
        && (batch(slugs).Some? ==> r == Failure(Wrap("discover: \"" + next + "\"", batch(slugs).value)))
    {
      var context := "discover: \"" + next + "\"";
      var result := FetchDiscovery(next, fetch);
      if result.Failure? {
        r := Failure(Wrap(context, result.error));
        slugs := [];
        return;
      }
      slugs := SlugList(result.value.summaries);
      assert forall k :: 0 <= k < |slugs| ==> '/' in slugs[k] by {
        NormalizedSummariesHaveOwners(fetch(next).value.summaries);
      }
      var err := batch(slugs);
      if err.Some? {
        r := Failure(Wrap(context, err.value));
      } else {
        r := Success(result.value.next);
      }
    }
  }

  /** The summaries with every slug normalised, in the same order. */
  function NormalizedSummaries(ss: seq<Summary>): seq<Summary> {
    seq(|ss|, k requires 0 <= k < |ss| => Summary(NormalizeSlug(ss[k].slug)))
  }

  /**
   * After fetchDiscovery every slug names an owner, the list keeps its
   * length and order, and slugs that already named one are untouched.
   */
  lemma NormalizedSummariesHaveOwners(ss: seq<Summary>)
    ensures |NormalizedSummaries(ss)| == |ss|
    ensures forall k :: 0 <= k < |ss| ==> '/' in NormalizedSummaries(ss)[k].slug
    ensures forall k :: 0 <= k < |ss| && '/' in ss[k].slug ==> NormalizedSummaries(ss)[k] == ss[k]
  {
    forall k | 0 <= k < |ss| ensures '/' in NormalizedSummaries(ss)[k].slug {
      NormalizeSlugHasOwner(ss[k].slug);
    }
  }
}
