# dockerstats, modelled in Dafny

dockerstats collects download and star counts of Docker Hub repositories and
charts them. A scraper discovers repositories through Docker Hub's search API,
normalises their slugs (`nginx` becomes `library/nginx`) and fetches a
snapshot of each one from `https://hub.docker.com/v2/repositories/<slug>/`.
The `serve` command exposes the snapshots through a small HTTP API and serves
a single-page web application. In that application a search box turns
`org/repo` into a navigation to `/hubs/docker/org/repo`, and a chart fetches
and classifies that repository's history.

This project models the rules inside that code:

- the scraper's configuration clamp, day truncation and refresh interval;
- the snapshot URI and discovery's slug normalisation, including the in-place loop;
- the statistics record;
- the de-duplication set in front of the snapshot queue;
- the API's route table and the parameter handling of the snapshot query;
- the static-file fallback of the `serve` command;
- the chart's request, state and render logic;
- the search box's state machine.

The code has no time-series processing: it has no gap filling, interpolation
or aggregation across repositories. The chart plots the stored records as
they are, with only their timestamps converted.

Modules, one per file:

- `wrappers.dfy`: `Option` and `Result`.
- `text.dfy` (`Text`): the library string functions the core relies on. These are Go's `strings.Trim` with a one-character cutset, `strings.TrimSpace` and `%d`, and JavaScript's `split` on one character.
- `scraper.dfy` (`Scrap`): scrap/scraper.go.
- `mux.dfy` (`Mux`): the router as the server uses it. Paths are registered exactly, the first registration wins, and a not-found handler catches the rest.
- `handler.dfy` (`Api`): api/handler.go.
- `serve.dfy` (`Serve`): the static list and fallback of cmd/serve.go.
- `chart.dfy` (`Chart`): web/src/Chart/index.tsx.
- `statistics.dfy` (`Statistics`): web/src/Statistics/index.tsx.

Conventions:

- Instants are Unix nanoseconds in UTC.
- HTTP requests, JSON decoding, database calls and the `Date` conversion are not modelled; their results are parameters.
- The chart's props may be absent: the owner-only route `/hubs/docker/:org` passes no repository. The model writes an absent prop as `None`. Where the code destructures it with a default, the prop reads as the empty string. Where the code interpolates it into a template, it prints as `undefined`.
- The chart's not-found warning links to `https://hub.docker.com/v2/repositories/<org>/<repo>/` with the props interpolated as they are. The request itself uses the aliased owner. So for the route owner `_` the request goes to `library`, but the link contains `_`. On the owner-only route the link ends in `/undefined/`. When both props are present and have no surrounding white space, the link is exactly the scraper's snapshot URI for `org/repo` (`Chart.NotFoundLinkIsSnapshotURI`).

## Model

| member | source | states |
|---|---|---|
| Text.TrimFunc | scrap/scraper.go:192-196 | The trimmed string is no longer than the input and neither starts nor ends with a trimmed character. |
| Text.TrimFuncTrimmedAt | scrap/scraper.go:192-196 | Trimming leaves exactly an infix `s[i..j]`. Everything outside it is trimmable; its ends are not. |
| Text.TrimFuncExact | scrap/scraper.go:192-196 | Any infix with that shape is the trim result, so the trim is characterised uniquely. |
| Text.TrimFuncAbsorbed | scrap/scraper.go:192-196 | Trimming by f and then by a wider g equals trimming by g alone. |
| Text.TrimNewlines | scrap/scraper.go:193-195 | `strings.Trim(s, "\n")`: the result is no longer than s and neither starts nor ends with a newline. `TrimFuncTrimmedAt` characterises it exactly. |
| Text.TrimSpace | scrap/scraper.go:192-196 | `strings.TrimSpace`: the result is no longer than s and neither starts nor ends with white space. |
| Text.TrimSpaceAfterNewlines | scrap/scraper.go:192-196 | `TrimSpace(Trim(s, "\n")) == TrimSpace(s)`: the inner newline trim never changes the result. |
| Text.TrimSpaceIdempotent | scrap/scraper.go:192-196 | TrimSpace applied twice equals TrimSpace applied once. |
| Text.Split | web/src/Statistics/index.tsx:32 | JavaScript `split('/')` yields one more piece than there are separators, and no piece contains the separator. |
| Text.JoinSplit | web/src/Statistics/index.tsx:59-63 | Joining the pieces of a split with the separator gives back the input. |
| Text.SplitJoin | web/src/Statistics/index.tsx:59-63 | Splitting a join of separator-free pieces gives back the pieces. |
| Text.SplitNoSeparator | web/src/Statistics/index.tsx:59 | A string without the separator splits into itself alone. |
| Text.SplitAppend | web/src/Statistics/index.tsx:59 | Splitting `p/q` with separator-free p gives p followed by the pieces of q. |
| Text.NatToDecimal | scrap/scraper.go:69 | `%d` of a natural number: one or more decimal digits, with no leading zero except for "0" itself. |
| Text.FormatInt | scrap/scraper.go:69 | `%d` of any integer: a leading "-" exactly for negatives, then decimal digits only. |
| Text.DecimalOfNat | scrap/scraper.go:69 | Reading the digits back gives the number. |
| Text.FormatIntRoundTrip | scrap/scraper.go:69 | Parsing the `%d` text of any integer, negative ones included, gives the integer. |
| Text.FormatIntInjective | scrap/scraper.go:69 | Distinct integers format differently. |
| Scrap.Wrap | scrap/scraper.go:201-219 | `errors.Wrapf` message, as in fetchSnapshot here and in discover (lines 250 and 260): the context, then ": ", then the cause, nothing else. |
| Scrap.ClampTasks | scrap/scraper.go:53-55 | The task count is at least 1 and at least the requested count. It is the request itself, or 1. |
| Scrap.DayStart | scrap/scraper.go:68-69 | The truncated instant is a midnight (a multiple of a day) no later than t and less than a day before it. |
| Scrap.DayStartUnique | scrap/scraper.go:68-69 | That midnight is the only one in the day-long window ending at t. |
| Scrap.DayStartIdempotent | scrap/scraper.go:68-69 | Truncating a truncated instant changes nothing. |
| Scrap.DayStartMonotonic | scrap/scraper.go:68-69 | Truncation preserves the order of instants. |
| Scrap.Interval | scrap/scraper.go:69 | `fmt.Sprintf("%d days", daysRefresh)`: the `%d` text of the count followed by " days". |
| Scrap.IntervalRoundTrip | scrap/scraper.go:69 | The "%d days" interval text carries exactly the configured day count. |
| Scrap.ScrapEvery | scrap/scraper.go:68-73 | The closure returns the start of t's day and exactly the `%d days` text of daysRefresh (`Interval`), which reads back as daysRefresh days. |
| Scrap.SnapshotURI | scrap/scraper.go:192-196 | The URI is the repositories prefix, the slug trimmed of white space, and "/". The newline trim adds nothing. |
| Scrap.SnapshotURIRoundTrip | scrap/scraper.go:192-196 | The trimmed slug can be read back out of the URI. |
| Scrap.SnapshotURIInjective | scrap/scraper.go:192-196 | Two slugs share a URI if and only if they trim to the same text. |
| Scrap.NormalizeSlug | scrap/scraper.go:296-302 | A slug that contains "/" is kept unchanged. Any other slug gets the "library/" prefix. |
| Scrap.NormalizeSlugHasOwner | scrap/scraper.go:296-302 | Every normalised slug contains "/". |
| Scrap.LibrarySlug | scrap/scraper.go:297-301 | The rewritten slug starts with "library/". |
| Scrap.LibrarySlugShape | scrap/scraper.go:297-301 | The rewrite is "library/" followed by the slug without its trailing white space. Leading spaces stay, and the newline trim adds nothing. |
| Scrap.OwnerlessSlug | scrap/scraper.go:297-301 | TrimSpace of "library/" + slug removes only the slug's trailing white space. |
| Scrap.NormalizeSlugIdempotent | scrap/scraper.go:295-303 | Normalising a normalised slug changes nothing. |
| Scrap.CheckStatus | scrap/scraper.go:308-314 | Returns no error if and only if the status equals the expected one. |
| Scrap.NormalizeSummaries | scrap/scraper.go:295-303 | The in-place loop leaves every summary holding the normalised slug of the summary that was at that index. |
| Scrap.NormalizeSummaryAt | scrap/scraper.go:296-302 | One iteration rewrites only index k, to its normalised slug. |
| Scrap.SlugList | scrap/scraper.go:253-256 | The slug array has the summaries' length, and index k holds summary k's slug. |
| Scrap.NormalizedSummariesHaveOwners | scrap/scraper.go:295-303 | After normalisation the length is unchanged and every slug has an owner. Slugs that had one are untouched. |
| Scrap.Push | scrap/scraper.go:159-170 | Push records the slug in the set and keeps the existing entries. It enqueues the slug exactly when it was not yet recorded, appending it behind the pending ones. |
| Scrap.Pop | scrap/scraper.go:152-157 | Pop removes only that slug from the set and leaves the queue alone. |
| Scrap.PushTwice | scrap/scraper.go:159-170 | A second push of a recorded slug changes nothing, so no slug is queued twice. |
| Scrap.PopUndoesPush | scrap/scraper.go:152-170 | Popping a freshly pushed slug restores the set. |
| Scrap.PushAfterPop | scrap/scraper.go:152-170 | After a pop, pushing the slug enqueues it again. |
| Scrap.Scraper.constructor | scrap/scraper.go:43-79 | NewScraper clamps the task count and sets the queue capacity to it. It stores the configuration and starts with an empty set, an empty queue and zero counters. |
| Scrap.Scraper.Stats | scrap/scraper.go:95-126 | The report copies the counts. With-errors plus without-errors equals the total, and it fits an int64. The process counters, the queue length and the interval, exactly the `%d days` text of daysRefresh (`Interval`), are reported. |
| Scrap.Scraper.SnapshotQueuePush | scrap/scraper.go:159-170 | The scraper's set and queue become `Push` of their old value. The set's values stay true. |
| Scrap.Scraper.SnapshotQueuePop | scrap/scraper.go:152-157 | The scraper's set becomes `Pop` of its old value. |
| Scrap.Scraper.FetchSnapshot | scrap/scraper.go:188-224 | Requests `SnapshotURI(slug)`. It succeeds if and only if the request succeeds with status 200, the body decodes and the store succeeds. Every error starts with "repository: <slug>". In every case the slug is popped and the completion counter rises by one. |
| Scrap.Scraper.FetchDiscovery | scrap/scraper.go:272-306 | A fetch failure is returned as is. Otherwise the page is returned with its summaries normalised in order and every other field unchanged. The discovery counter always rises by one. |
| Scrap.Scraper.DiscoverPage | scrap/scraper.go:245-267 | Failures are wrapped as `discover: "<next>"`. Otherwise the batch receives the normalised slugs in page order, all with an owner, and the next page's address is returned unless the batch fails. |
| Mux.FirstRoute | api/handler.go:24-28 | Gives the position of the first route registered for the path, or the table length when there is none. |
| Mux.Lookup | api/handler.go:24-28 | Finds no handler if and only if no route has the path. A found handler is the first route registered for the path. |
| Mux.Dispatch | cmd/serve.go:107 | An unrouted path goes to the not-found handler. A routed path goes to its first route's handler. |
| Mux.RegisterKeepsRoutedPaths | api/handler.go:24-28 | Registering another route never changes where an already routed path goes. |
| Mux.Router.constructor | cmd/serve.go:82 | A new router has no routes and no not-found handler. |
| Mux.Router.HandleFunc | api/handler.go:25-27 | Appends one route behind the existing ones. |
| Mux.Router.SetNotFoundHandler | cmd/serve.go:107 | Installs the not-found handler. |
| Mux.Router.Serve | cmd/serve.go:107 | A request whose path no route has goes to the not-found handler. A routed path goes to a handler: the first route registered for it. |
| Api.Handle | api/handler.go:24-28 | Appends exactly the three API routes in order and leaves the not-found handler alone. |
| Api.ApiRoutesDispatch | api/handler.go:24-28 | Each API path reaches its own handler. Every other path reaches the not-found handler. |
| Api.QueryOrg | api/handler.go:31-36 | An empty org becomes "library". Any other org, "_" included, is used as given. |
| Api.QuerySlug | api/handler.go:42 | `fmt.Sprintf("%s/%s", org, repo)`: the effective org, one "/", then the repo. With an empty org the slug is "library/" followed by the repo. |
| Api.QuerySlugParts | api/handler.go:42 | For a slash-free org, the slug splits into the effective org followed by the repo's pieces, and into exactly [org, repo] when repo is slash-free too. |
| Api.QuerySlugInjective | api/handler.go:42 | Two slash-free queries look up the same slug if and only if their effective orgs and repos are equal. |
| Api.QuerySlugSlashCollision | api/handler.go:42 | With slashes inside the parameters the slug is ambiguous: org "a/b" with repo "c" and org "a" with repo "b/c" both look up "a/b/c". |
| Api.QueryLookup | api/handler.go:30-42 | Makes no lookup if and only if repo is empty. In that case it writes a 400 with "query parameter repo is empty". Otherwise it looks up org/repo. |
| Api.QueryRespond | api/handler.go:42-52 | A lookup error is written as an error. A nil history is written as an empty list, and any other history as it is. |
| Api.Query | api/handler.go:30-53 | Handles the empty repo without a lookup. Otherwise it answers the lookup of `QuerySlug(org, repo)`. |
| Api.QueryAnswered | api/handler.go:37-52 | A query with a repo is answered with a history or an error, never with null. It is an error exactly when the lookup fails. |
| Api.Images | api/handler.go:55-63 | A listing error is written as an error. Otherwise the slugs are written. |
| Api.StatsResponse | api/handler.go:65-67 | Writes the scraper's report unchanged. |
| Serve.Slashes | cmd/serve.go:92 | Keeps the length. Every backslash becomes "/", and every other character stays. |
| Serve.StaticPath | cmd/serve.go:92 | A listed path is "/" followed by the file name with every backslash replaced by "/" and every other character kept in place, so it contains no backslash. |
| Serve.StaticPathOfSlashed | cmd/serve.go:92 | A name without backslashes is listed as "/" followed by the name. |
| Serve.StaticList | cmd/serve.go:90-93 | The list loop produces one entry per file, in the listing's order, entry k being `StaticPath(files[k])`. |
| Serve.ServedPath | cmd/serve.go:96-106 | A listed path is served unchanged. Any other path is served as "/". |
| Serve.ServedPathIdempotent | cmd/serve.go:96-106 | Applying the fallback to its own output changes nothing. |
| Serve.ServeStatic | cmd/serve.go:96-106 | The search loop leaves the request path as `ServedPath` of the old path and hands that path to the file server. |
| Serve.NewServeRouter | cmd/serve.go:82-107 | The serve router holds exactly the API routes, with the static fallback as its not-found handler. |
| Serve.FallbackOnlyWhenUnrouted | cmd/serve.go:107 | The fallback handles a path if and only if it is none of the three API paths. |
| Chart.Alias | web/src/Chart/index.tsx:75-78 | The owner "_" becomes "library". Every other owner is kept, and the result is never "_". It is empty exactly when the owner is. |
| Chart.AliasIdempotent | web/src/Chart/index.tsx:75-78 | Aliasing twice equals aliasing once. |
| Chart.PropText | web/src/Chart/index.tsx:75-134 | A present prop reads as itself, and an absent one as the given text. That text is "" under the destructuring default (lines 75 and 91) and "undefined" inside the link's template literal (lines 132-134). |
| Chart.FetchRequest | web/src/Chart/index.tsx:100-103 | Makes a request if and only if org is non-empty and repo is present and non-empty. The request is for exactly that org and repo. |
| Chart.MountRequest | web/src/Chart/index.tsx:74-81 | On mount, a request is made if and only if both props are present and non-empty. It uses the aliased owner, never "_", and the repository as given. |
| Chart.PropsChangeRequest | web/src/Chart/index.tsx:83-98 | Unchanged props make no request. Changed props make the mount request of the new props. An absent prop counts as different from an empty one. |
| Chart.ToPoints | web/src/Chart/index.tsx:109-112 | Same length and order as the body. Stars and pulls are kept, and each timestamp is converted. |
| Chart.Render | web/src/Chart/index.tsx:118-153 | Renders nothing until fetched. With no data it renders the not-found warning, whose link is `NotFoundLink(props)`. Otherwise it renders the chart of the data, with the advisory exactly when there are fewer than 25 points. |
| Chart.NotFoundLink | web/src/Chart/index.tsx:132-134 | The link lies under the Docker Hub repositories prefix and ends in "/". |
| Chart.NotFoundLinkIsSnapshotURI | web/src/Chart/index.tsx:132-134 | When both props are present and `TrimSpace` leaves `org/repo` unchanged, the link is the scraper's snapshot URI for the props' own org/repo. The owner "_" is not aliased here. |
| Chart.NotFoundLinkWithoutRepo | web/src/Chart/index.tsx:132-134 | On the owner-only route the repository is absent, and the link is `<prefix><org>/undefined/`. |
| Chart.ViewAfterBody | web/src/Chart/index.tsx:105-153 | After a body of n records: n = 0 gives the warning, 1–24 the chart with the advisory, and 25 or more the chart alone. |
| Chart.ChartView.constructor | web/src/Chart/index.tsx:69-72 | Initial state: no data, not fetched. |
| Chart.ChartView.ComponentDidMount | web/src/Chart/index.tsx:74-81 | The request started on mount is `MountRequest(props)`: the defaulted, aliased owner and the repository prop as given. |
| Chart.ChartView.ComponentWillReceiveProps | web/src/Chart/index.tsx:83-98 | The request started is `PropsChangeRequest(old props, next)`. The props become next. |
| Chart.ChartView.FetchSettled | web/src/Chart/index.tsx:105-115 | A body sets fetched and replaces the data with its points. A failure leaves data and fetched unchanged. |
| Statistics.SlugParts | web/src/Statistics/index.tsx:59-63 | An input has two parts if and only if it holds exactly one "/". The two slash-free parts joined by "/" are the input. |
| Statistics.GoTarget | web/src/Statistics/index.tsx:58-68 | Navigates if and only if the input holds exactly one "/". The target is "/hubs/docker/" followed by the input. |
| Statistics.ChangeError | web/src/Statistics/index.tsx:32-36 | The flag onChange sets is raised if and only if `go` would reject that input. |
| Statistics.JoinedSlugAccepted | web/src/Statistics/index.tsx:59-64 | Slash-free org and repo joined by "/" are accepted and navigate to their hub page. |
| Statistics.MountThenGo | web/src/Statistics/index.tsx:40-68 | The input filled on mount from slash-free route parts is accepted by `go`. It navigates to the aliased owner's page. |
| Statistics.StatisticsPage.constructor | web/src/Statistics/index.tsx:23-28 | Initial state: empty input, org and repo, no error, no navigation. |
| Statistics.StatisticsPage.OnChange | web/src/Statistics/index.tsx:30-38 | Stores the typed value. The error flag judges the input it replaces, not the new one. |
| Statistics.StatisticsPage.ComponentDidMount | web/src/Statistics/index.tsx:40-52 | Changes nothing unless both route parts are given. Otherwise it sets org to the aliased owner, sets repo, and sets input to "org/repo". |
| Statistics.StatisticsPage.Go | web/src/Statistics/index.tsx:58-68 | Clears the error and pushes `GoTarget(input)` when the input is accepted. Otherwise it raises the error and does not navigate. |
| Statistics.StatisticsPage.OnKeyPress | web/src/Statistics/index.tsx:70-75 | Enter behaves as `go`. Any other key changes nothing. |

## Left out

- The network is not modelled. This covers Docker Hub requests, the request header, the HTTP client and its timeouts, and the browser `fetch` with its URL building. Only the results these produce are modelled, as parameters.
- FetchDiscovery's `fetch` parameter covers the request, `checkStatus` and JSON decoding together. The "discovery: <uri>" wraps of its errors are part of that parameter's result.
- The database queries are foreign SQL calls: counts, snapshot listing and storing, marking errors and the discovery batch. They appear only as parameters.
- Goroutines, the channel, the `RWMutex` and the atomic counters are not modelled. Push and pop are sequential. The queue is an unbounded sequence: it has no capacity (which is the task count) and no consumers.
- snapshotQueuePop releases its lock before deleting. That is a concurrency matter and is not modelled.
- Scrap.Scraper.SnapshotQueuePush: in the code, no caller uses it. `discoverNextSnapshotRefresh` sends to the channel directly, and that loop with its sleeps is not modelled.
- The de-duplication map is never created by NewScraper, so a push in the code would panic on a nil map. Dafny maps cannot be nil, and the model starts with an empty map.
- Discover's outer loop and discover's pagination (following `next` until it is empty, with sleeps) are not modelled. Scrap.Scraper.DiscoverPage models one page.
- `watchSnapshotQueue` is left out as concurrency. It consumes the channel, runs `fetchSnapshot` on each queued slug (modelled as Scrap.Scraper.FetchSnapshot) and logs failures.
- `Scrap` and `discoverNextSnapshotRefresh` only start goroutines or feed the channel in an endless loop. `FindSnapshots` and `ListRepositorySlugs` forward to the database, and `nowb` reads the clock.
- Scrap.DayStart assumes UTC. `time.Date` in another location would truncate to local midnight.
- The Go `%d` and Unicode white-space rules are modelled on Unicode scalar values, not on UTF-8 bytes. Invalid UTF-8 is not modelled.
- Scrap.Scraper.Stats: the database counts are taken as their results. A failed count is logged and reported as 0.
- The router's path cleaning, redirects and method matching are not modelled: only exact path matching is. The CORS list, the middleware, logging, flags and the graceful server are not modelled either.
- The JSON writer's status-code choice for `WriteError` is not modelled: Api.Response records which writer call is made.
- The chart's `Date` conversion (`toEpoch` is a parameter, so NaN is not modelled), `formatTimestamp`, `numeral` and the chart drawing are not modelled.
- Chart.ChartView.FetchSettled: the component does not guard against an older request settling after a newer one, and the model does not order requests either.
- `componentWillReceiveProps` followed by React's props update is modelled as one method.
- The Statistics page's unused `fetch` method, `render` and the `Input` component are UI only.
- The router and not-found routes of the web application, `main.go` and `cmd/scrap.go` are process wiring and are not part of this model.
