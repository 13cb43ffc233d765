# SQL Server Monitor dashboard — a Dafny model

This project models the logic of a React dashboard that monitors a SQL Server
database. A connection hook (`useDatabaseConnection`) holds the connection
string, the session id the backend hands out, and the connected, loading and
error state. It offers `connect`, `disconnect`, `updateConnectionString` and
`reset`. Five feed hooks poll the backend under the session id, for status
statistics, issues, pending jobs, logs and performance metrics. Each derives
views from its data: totals, per-severity and per-status counts, filtered
lists, and the latest, maximum and average metric values. The `Dashboard`
component wires the hook's id into the feeds, offers a global refresh, and
shows the five cards only while connected. The `ConnectionForm` masks the
password in the connection string and decides what a submit does and when
its controls are disabled. The formatters write a duration in minutes as
`1d 2h 3m` and map severities and statuses to colour classes.

Modelling choices:

- Every `async` operation is split at its `await`. The part before it is a
  Begin method, which runs the guards and says whether the backend is called
  and with what. The part after it is a Complete method, which takes the
  call's outcome as a parameter. The code after an `await` reads no state
  cell, so a Complete method gives the same state whatever ran in between.
  Late or reordered responses are modelled by calling the Complete methods in
  the order the responses arrive.
- The backend is never modelled. What a call would settle to is an `Outcome`
  parameter: the payload, or an error with its message.
- JavaScript truthiness is modelled explicitly. A connection id is usable
  when it is neither `null` nor `""` (`Base.IsPresent`), and `err.message ||
  fallback` is `Base.ErrorText`.
- Each feed is one generic class, `Poller.Feed`, with the feed's kind and
  fallback message as constants. The polling interval is the `timer` field,
  which holds the id the interval was set up under; `Tick` is one firing.
  The dashboard's `Synced` invariant says that every feed polls under the
  hook's current id, and that none polls without a truthy one.

Some of the code's behaviour is surprising, and the model follows the code:

- A failed `disconnect` keeps both the session id and the connected flag,
  and only records the error. It does not forget the session.
- A failed `connect` leaves the id and the connected flag as they were.
- A successful `connect` stores whatever id the backend returned, `null`
  or `""` included, and sets the connected flag regardless. The session
  invariant "connected implies a usable id"
  (`Connection.ConnectionHook.Consistent`) is therefore preserved only when
  the backend returns a usable id. Otherwise the dashboard shows the cards,
  no feed fetches anything, and a later `disconnect` returns `true` at once
  and leaves the session connected.
- The converse, "an id is held only by a connected session"
  (`Connection.ConnectionHook.Paired`), holds in every state: the id and the
  flag are set together on success and cleared together on disconnect or
  reset, and a failed call touches neither.
- The submit button reads `Connecting...` whenever the hook is loading, and
  that includes a disconnect in flight.
- `connect` does not look at `isConnected`, and `disconnect` does not look
  at `isLoading`.

## Model

| member | source | states |
|---|---|---|
| Base.ErrorText | src/hooks/useDatabaseConnection.js:37 | the recorded message is the error's own message when it has one, and the operation's fallback otherwise |
| Base.ActiveId | src/hooks/useDatabaseStats.js:53-66 | a polling interval runs exactly when the id is truthy, and it runs under that id |
| Text.TrimEmptyIffBlank | src/hooks/useDatabaseConnection.js:23 | `!s.trim()` holds exactly when every character is white space |
| Text.Trim | src/hooks/useDatabaseConnection.js:23 | `trim()`: no white space is left at either end, and only white space is removed from each end (through `Text.TrimStart` and `Text.TrimEnd`) |
| Text.SameIgnoringCaseIff | src/components/utils/formatters.js:55 | two strings agree up to letter case exactly when their lower-case forms are equal |
| Text.ToLower | src/components/utils/formatters.js:55 | `toLowerCase()` keeps the length and lowers each letter at its own position, leaving other characters alone |
| Text.ToLowerIdempotent | src/components/utils/formatters.js:55 | lowering a lowered string changes nothing |
| Text.DigitsValueOfNatToString | src/components/utils/formatters.js:31-33 | the decimal numeral written for a number reads back as that number |
| Connection.ConnectionHook.constructor | src/hooks/useDatabaseConnection.js:10-15 | the hook starts with the given string, no id, not connected, not loading and no error, so both invariants hold |
| Connection.ConnectionHook.BeginConnect | src/hooks/useDatabaseConnection.js:21-29 | while loading, `connect` returns false and changes nothing; for a blank string, it returns false with the validation message; otherwise it sets loading, clears the error and calls the backend with the raw string; the id and the connected flag never change here |
| Connection.ConnectionHook.CompleteConnect | src/hooks/useDatabaseConnection.js:31-41 | it succeeds exactly when the call did; success stores the returned id and sets connected; failure keeps the session and records the message or the fallback; loading is cleared either way; the session invariant survives when the backend returns a usable id, and the pairing of id and flag always survives |
| Connection.ConnectionHook.Connect | src/hooks/useDatabaseConnection.js:21-42 | the whole of `connect` with no interleaving: each guard's outcome, each backend outcome's effect, the session invariant and the pairing of id and flag |
| Connection.ConnectionHook.BeginDisconnect | src/hooks/useDatabaseConnection.js:48-52 | without a truthy id or a connected session, `disconnect` returns true and changes nothing; otherwise it sets loading, clears the error and calls the backend with the id; the id and the connected flag never change here |
| Connection.ConnectionHook.CompleteDisconnect | src/hooks/useDatabaseConnection.js:54-64 | it succeeds exactly when the call did; success forgets the id and the connected flag; failure keeps both and records the message or the fallback; loading is cleared; the session invariant and the pairing of id and flag are preserved |
| Connection.ConnectionHook.Disconnect | src/hooks/useDatabaseConnection.js:48-65 | the whole of `disconnect` with no interleaving: the early return, each backend outcome's effect, the session invariant and the pairing of id and flag |
| Connection.ConnectionHook.UpdateConnectionString | src/hooks/useDatabaseConnection.js:71-73 | only the connection string changes, so the pairing of id and flag is kept |
| Connection.ConnectionHook.Reset | src/hooks/useDatabaseConnection.js:78-82 | the id, the connected flag and the error are cleared; the string and the loading flag are kept; the session invariant and the pairing of id and flag hold afterwards |
| Connection.ConnectedIffUsableId | src/hooks/useDatabaseConnection.js:31-82 | under both invariants a session is connected exactly when it holds an id, and exactly when that id is truthy |
| Poller.Requests | src/components/dashboard/Dashboard.jsx:82-88 | under a truthy id, one request per feed kind, in order, each carrying that id; none otherwise |
| Poller.Started | src/hooks/useDatabaseStats.js:33-40 | a fetch issues a request exactly when the id is truthy, and that request is for the feed's kind and that id |
| Poller.IssuedInOrder | src/components/dashboard/Dashboard.jsx:82-88 | fetches started one per kind under one id issue exactly the requests that id asks of those kinds, in the same order |
| Poller.Feed.constructor | src/hooks/useDatabaseStats.js:12-28 | a feed starts with its initial data, not loading, with no error, no timestamp and no interval |
| Poller.Feed.BeginFetch | src/hooks/useDatabaseStats.js:33-40 | without a truthy id nothing changes and nothing is requested; otherwise loading is set, the error is cleared and the feed's request is issued; the data, its timestamp and the interval are kept |
| Poller.Feed.CompleteFetch | src/hooks/useDatabaseStats.js:40-47 | success replaces the data and stamps it with the completion time; failure keeps the data and its timestamp and records the message or the feed's fallback; loading is cleared |
| Poller.Feed.Refresh | src/hooks/useDatabaseStats.js:33-48 | the whole fetch: no effect without a truthy id; otherwise one request, followed by the success or failure effect |
| Poller.Feed.OnConnectionIdChange | src/hooks/useDatabaseStats.js:53-66 | the old interval is cleared; with a truthy id one fetch is started at once and a new interval is set up under that id; without one nothing is fetched and the data is not cleared |
| Poller.Feed.Tick | src/hooks/useDatabaseStats.js:60 | one firing of the interval fetches under the interval's own id, and fetches nothing when no interval runs |
| StatsFeed.InitialStats | src/hooks/useDatabaseStats.js:12-25 | the initial stats: status `Unknown`, an empty uptime and every count 0 |
| StatsFeed.TotalSchemaObjects | src/hooks/useDatabaseStats.js:71-75 | the sum of tables, views, stored procedures, functions and triggers the exposed stats carry |
| StatsFeed.Exposed | src/hooks/useDatabaseStats.js:71-81 | the exposed stats keep every stored field and always carry the recomputed total of tables, views, stored procedures, functions and triggers |
| StatsFeed.InitialTotalIsZero | src/hooks/useDatabaseStats.js:71-75 | before any fetch, the exposed total is 0 |
| StatsFeed.ExposedIgnoresReportedTotal | src/hooks/useDatabaseStats.js:77-81 | a total carried by the payload has no effect on what is exposed |
| IssuesFeed.IssueCountBySeverity | src/hooks/useDatabaseIssues.js:58-60 | the count for a severity never exceeds `totalIssueCount` |
| IssuesFeed.TotalIssueCount | src/hooks/useDatabaseIssues.js:77 | `totalIssueCount` is the number of issues held |
| IssuesFeed.HasCriticalIssues | src/hooks/useDatabaseIssues.js:65-67 | some issue has severity exactly `error`; `IssuesFeed.CriticalIffErrorCount` ties it to the count |
| IssuesFeed.CountIsMultiplicity | src/hooks/useDatabaseIssues.js:58-60 | the count for a severity is how often it occurs among the issues' severities |
| IssuesFeed.CriticalIffErrorCount | src/hooks/useDatabaseIssues.js:65-67 | there are critical issues exactly when the count for `error` is positive |
| JobsFeed.JobsWithStatusSpec | src/hooks/useDatabaseJobs.js:62-64 | each status list keeps the jobs' order, holds every job with that exact status as often as it occurs, and holds no other job |
| JobsFeed.JobsWithStatus | src/hooks/useDatabaseJobs.js:62-64 | the jobs whose status is exactly the one given, characterised by `JobsFeed.JobsWithStatusSpec` |
| JobsFeed.JobCountByStatus | src/hooks/useDatabaseJobs.js:58-60 | `getJobCountByStatus`, the length of that list; `JobsFeed.CountIsMultiplicity` states its value |
| JobsFeed.RunningJobs | src/hooks/useDatabaseJobs.js:62 | the jobs with status `Running` |
| JobsFeed.QueuedJobs | src/hooks/useDatabaseJobs.js:63 | the jobs with status `Queued` |
| JobsFeed.ScheduledJobs | src/hooks/useDatabaseJobs.js:64 | the jobs with status `Scheduled` |
| JobsFeed.TotalJobs | src/hooks/useDatabaseJobs.js:76 | `totalJobs` is the number of jobs held |
| JobsFeed.CountIsMultiplicity | src/hooks/useDatabaseJobs.js:58-60 | the count for a status is how often it occurs among the jobs' statuses |
| JobsFeed.StatusListsBound | src/hooks/useDatabaseJobs.js:62-76 | the running, queued and scheduled lists together hold no more than `totalJobs` |
| LogsFeed.LogsByTypeSpec | src/hooks/useDatabaseLogs.js:58-64 | each type's list keeps the logs' order, holds every entry of that exact type as often as it occurs, and holds no other entry |
| LogsFeed.LogsByType | src/hooks/useDatabaseLogs.js:58-60 | `getLogsByType`, characterised by `LogsFeed.LogsByTypeSpec` |
| LogsFeed.ErrorLogs | src/hooks/useDatabaseLogs.js:62 | the entries of type `error` |
| LogsFeed.WarningLogs | src/hooks/useDatabaseLogs.js:63 | the entries of type `warning` |
| LogsFeed.InfoLogs | src/hooks/useDatabaseLogs.js:64 | the entries of type `info` |
| LogsFeed.TotalLogs | src/hooks/useDatabaseLogs.js:76 | `totalLogs` is the number of entries held |
| LogsFeed.TypeListsBound | src/hooks/useDatabaseLogs.js:62-76 | the error, warning and info lists together hold no more than `totalLogs` |
| Seqs.FilterIsSubsequence | src/hooks/useDatabaseJobs.js:62 | a filter keeps the order of what it keeps |
| Seqs.FilterMultiset | src/hooks/useDatabaseLogs.js:59 | a filter keeps each satisfying element as often as it occurs, and drops every other element |
| Seqs.FilterCountIsMultiplicity | src/hooks/useDatabaseIssues.js:59 | filtering by "the key equals v" keeps as many elements as v occurs among the keys |
| Seqs.DisjointFiltersLength | src/hooks/useDatabaseJobs.js:62-64 | filters by mutually exclusive tests keep at most the whole list between them |
| PerformanceFeed.LatestMetrics | src/components/hookers/usePerformanceMetrics.js:59-62 | the result is `null` exactly for an empty series, and the last point otherwise |
| PerformanceFeed.MaxOf | src/components/hookers/usePerformanceMetrics.js:69 | `Math.max` of a non-empty list is at least every element and is one of them |
| PerformanceFeed.MaxValue | src/components/hookers/usePerformanceMetrics.js:67-70 | 0 for an empty series; otherwise the largest value of the field, a missing field reading as 0 |
| PerformanceFeed.SumValues | src/components/hookers/usePerformanceMetrics.js:77 | the `reduce` summing a field over the series, a missing field counting 0; bounded by `PerformanceFeed.AverageAtMostMax` |
| PerformanceFeed.AverageValue | src/components/hookers/usePerformanceMetrics.js:75-79 | 0 for an empty series; otherwise the number whose product with the length is the field's sum |
| PerformanceFeed.AverageAtMostMax | src/components/hookers/usePerformanceMetrics.js:67-79 | the average never exceeds the maximum |
| ConnectionForm.DisplayConnectionString | src/components/dashboard/ConnectionForm.jsx:27-32 | the string as it is when the password is visible, and masked otherwise |
| ConnectionForm.ValueEnd | src/components/dashboard/ConnectionForm.jsx:30 | the password value runs up to the first `;` or to the end of the string |
| ConnectionForm.FirstKey | src/components/dashboard/ConnectionForm.jsx:30-31 | the search finds the leftmost case-insensitive `Password=` followed by a non-`;` character, or reports that there is none |
| ConnectionForm.MaskPassword | src/components/dashboard/ConnectionForm.jsx:30-31 | `replace(/(Password=)([^;]+)/i, '$1******')`, characterised by `ConnectionForm.MaskPasswordSpec` and `ConnectionForm.MaskIdempotent` |
| ConnectionForm.FirstKeyFinds | src/components/dashboard/ConnectionForm.jsx:30-31 | a first match is what the search finds |
| ConnectionForm.MaskPasswordSpec | src/components/dashboard/ConnectionForm.jsx:30-31 | with no match the string is unchanged; otherwise only the value of the first match becomes `******`; the key as written, the text before it and everything from the next `;` on are kept |
| ConnectionForm.MaskIdempotent | src/components/dashboard/ConnectionForm.jsx:30-31 | masking a masked string changes nothing |
| ConnectionForm.HandleSubmit | src/components/dashboard/ConnectionForm.jsx:34-41 | a submit disconnects exactly when connected, and connects otherwise |
| ConnectionForm.InputDisabled | src/components/dashboard/ConnectionForm.jsx:58 | the input is disabled while connected or loading |
| ConnectionForm.SubmitDisabled | src/components/dashboard/ConnectionForm.jsx:70 | the submit button is disabled while loading or while the string is blank once trimmed; `ConnectionForm.EnabledSubmitPassesConnectGuards` ties it to `connect` |
| ConnectionForm.ButtonLabel | src/components/dashboard/ConnectionForm.jsx:77-82 | `Connecting...` whenever loading; otherwise the label of what a submit would do |
| ConnectionForm.EnabledSubmitPassesConnectGuards | src/components/dashboard/ConnectionForm.jsx:70 | an enabled submit button means nothing is loading and the string is not blank, which are the conditions under which `connect` calls the backend |
| Formatters.JsRem | src/components/utils/formatters.js:27-28 | JavaScript's `%`: the mathematical remainder for a non-negative dividend; for a negative one, a value in `(-b, 0]` that differs from the dividend by a multiple of `b`, which is the truncated remainder |
| Formatters.FormatDuration | src/components/utils/formatters.js:23-36 | the written duration is empty exactly for zero minutes; its pieces and their reading back are stated by the lemmas below |
| Formatters.FormatZero | src/components/utils/formatters.js:24 | zero minutes are written as the empty string |
| Formatters.Decomposition | src/components/utils/formatters.js:26-28 | days, hours and minutes add back up to the minutes, with hours below 24 and minutes below 60 |
| Formatters.AssembleCanonical | src/components/utils/formatters.js:30-33 | amounts in range and not all zero give positive components, in the order d, h, m, each unit at most once |
| Formatters.AssembleTotal | src/components/utils/formatters.js:30-33 | the components pushed stand for the minutes they were made from |
| Formatters.DurationPartsCanonical | src/components/utils/formatters.js:26-33 | for a positive number of minutes, the components are canonical and add up to it |
| Formatters.FormatPositiveNonEmpty | src/components/utils/formatters.js:23-35 | a positive number of minutes is never written as the empty string |
| Formatters.NegativeDuration | src/components/utils/formatters.js:26-35 | a negative number of minutes is written as its JavaScript remainder in minutes alone |
| Formatters.SplitWord | src/components/utils/formatters.js:35 | splitting a space-free word on spaces gives that word alone |
| Formatters.SplitWords | src/components/utils/formatters.js:35 | splitting a space-free word, a space and a rest gives the word followed by the rest's pieces |
| Formatters.ParseShowPart | src/components/utils/formatters.js:31-33 | a written component has no space and reads back as its amount in minutes |
| Formatters.RenderRoundTrip | src/components/utils/formatters.js:30-35 | reading back the joined components gives the minutes they stand for |
| Formatters.FormatRoundTrip | src/components/utils/formatters.js:23-36 | every natural number of minutes is recovered from its written form, so distinct durations are written differently |
| Formatters.SeverityColorClass | src/components/utils/formatters.js:54-65 | one of the four text colour classes, grey for a missing severity; `Formatters.SeverityColorSpec` says which |
| Formatters.SeverityColorSpec | src/components/utils/formatters.js:54-65 | red exactly for `error`, yellow exactly for `warning` and blue exactly for `info`, ignoring case; grey exactly for anything else, including a missing severity |
| Formatters.SeverityColorIgnoresCase | src/components/utils/formatters.js:55 | severities that differ only in letter case get the same class |
| Formatters.StatusColorOfLower | src/components/utils/formatters.js:74-91 | the `switch` over a lowered status gives one of the five colour pairs |
| Formatters.StatusColorClasses | src/components/utils/formatters.js:72-92 | one of the five colour pairs, grey for a missing status; the four lemmas below say which |
| Formatters.StatusGreenSpec | src/components/utils/formatters.js:74-78 | green exactly for `healthy`, `online`, `running` or `success`, ignoring case |
| Formatters.StatusYellowSpec | src/components/utils/formatters.js:79-82 | yellow exactly for `warning`, `queued` or `pending`, ignoring case |
| Formatters.StatusRedSpec | src/components/utils/formatters.js:83-86 | red exactly for `error`, `offline` or `failed`, ignoring case |
| Formatters.StatusBlueGraySpec | src/components/utils/formatters.js:87-91 | blue exactly for `scheduled`, ignoring case; grey exactly for every other status, including a missing one |
| Formatters.StatusColorIgnoresCase | src/components/utils/formatters.js:73 | statuses that differ only in letter case get the same classes |
| Dashboard.FeedOrder | src/components/dashboard/Dashboard.jsx:82-88 | five feeds are refreshed, the last being the metrics feed with the default six hours of history |
| Dashboard.DashboardState.constructor | src/components/dashboard/Dashboard.jsx:24-77 | the dashboard starts with the default connection string, no session, and feeds that hold their initial data, are not loading, have no error, have never fetched and run no interval, each wired to its own kind |
| Dashboard.DashboardState.Refresh | src/components/dashboard/Dashboard.jsx:82-88 | `handleRefresh` starts stats, issues, jobs, logs and metrics fetches under the current id, once each and in that order, and starts none without a truthy id; every feed keeps its data and keeps polling under the hook's id |
| Dashboard.DashboardState.Resync | src/components/dashboard/Dashboard.jsx:27-77 | an id change reruns the five polling effects in hook order: every feed then polls under the new id and, for a truthy id, is loading with its error cleared, its data and timestamp kept; under a falsy id nothing else changes; an unchanged id reruns none and changes nothing |
| Dashboard.DashboardState.UpdateConnectionString | src/components/dashboard/Dashboard.jsx:95 | typing changes only the connection string, and the feeds stay in step with the id |
| Dashboard.DashboardState.Submit | src/components/dashboard/ConnectionForm.jsx:34-41 | a connected dashboard asks to disconnect its session, or returns true at once without a usable id; an unconnected one returns false while loading, records the validation message for a blank string, and otherwise asks to connect with the string typed; a call in flight means loading, no error and the `Connecting...` label |
| Dashboard.DashboardState.CompleteConnect | src/components/dashboard/Dashboard.jsx:27-77 | a settled connect succeeds exactly when the call did and clears loading; success stores the returned id and sets connected; failure keeps the session and records the message or the fallback; a new id starts all five feeds under it, in hook order, and leaves each of them loading with its error cleared under a truthy id, or with its loading flag and error kept under a falsy one, its timestamp kept either way; an unchanged id starts none and changes no feed; every feed keeps its data; the hook holds an id only while connected |
| Dashboard.DashboardState.CompleteDisconnect | src/components/dashboard/Dashboard.jsx:27-77 | a settled disconnect succeeds exactly when the call did and clears loading; success forgets the id and the connected flag and stops every feed's polling; failure keeps the session and records the message or the fallback; no fetch starts and all data is kept; a cleared id leaves every feed's loading flag, error and timestamp as they were, an unchanged id changes no feed; the hook holds an id only while connected |
| Dashboard.DashboardState.View | src/components/dashboard/Dashboard.jsx:90-161 | the cards are shown, and the refresh button too, exactly when connected; the input shows the masked or plain string; the stats card gets the recomputed schema-object total |
| Dashboard.FeedOrderRequests | src/components/dashboard/Dashboard.jsx:82-88 | the five feeds' fetches under one id issue exactly the requests of the refresh order |
| Dashboard.RequestsUnder | src/components/dashboard/Dashboard.jsx:82-88 | under a usable id, the refresh asks for stats, issues, jobs, logs and six hours of metrics, all under that id |
| Dashboard.ConnectStartsFeeds | src/components/dashboard/Dashboard.jsx:22-104 | typing a non-blank string and submitting it, with the backend answering any usable id, connects, shows the cards and starts each of the five feeds once under that id |

## Left out

- The backend (`databaseService`) and the network: each remote call's result is an `Outcome` parameter of a Complete or whole-operation method.
- Timing: `setInterval` periods (`refreshInterval`) and their timing are not modelled. An interval is the `timer` field, and a firing is `Poller.Feed.Tick`, which may be called at any time.
- React rendering: closures that capture stale state, and batched state updates, are not modelled. Each state setter takes effect at once, which matches the code because no operation reads a cell it has just set.
- `new Date()`: the completion time is a `now: nat` parameter of `Poller.Feed.CompleteFetch`.
- Floating point: `getAverageValue` uses exact real division. Metric fields are integers, and a falsy value other than a missing key (such as `NaN` or `null`) is not modelled; a missing key reads as 0.
- `formatTime`, `formatPercentage` and `formatNumber`: they depend on locale formatting and floating point.
- Formatters.FormatDuration: whole numbers of minutes below 2^53 are modelled. Beyond that, and wherever `${}` switches to exponent notation (1e21 days and more), the source computes in double precision and the model's exact integers differ from it. `NaN`, fractional minutes, `null` and `undefined` are left out; for a whole number, `!minutes || isNaN(minutes)` is `minutes == 0`.
- Formatters.FormatRoundTrip: proved for every natural number, so it includes durations of 2^53 minutes and more, which the source writes differently.
- `trim()` and `toLowerCase()`: only ASCII white space and ASCII letters are modelled, not Unicode.
- The components that only render (cards, tables, the chart, the icons), the styling classes, and the password visibility toggle. The toggle's state is the `passwordVisible` parameter of `Dashboard.DashboardState.View`.
- `reset` is modelled on the hook, but the dashboard never calls it, so no dashboard operation uses it.
- Dashboard.DashboardState.Submit: it can be called while the submit button is disabled. That the browser suppresses the submit of a disabled button is not modelled, so the model also admits, for example, a second `disconnect` call while one is in flight.
- Dashboard.ConnectStartsFeeds: covers opening a session only. Disconnecting afterwards and the card contents are stated in general by `Dashboard.DashboardState.CompleteDisconnect` and `Dashboard.DashboardState.View`.
