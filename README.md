# DoS monitor and Cozy Space — a Dafny model

This project models the DoS-monitoring part of a Laravel + React application
together with its two Python metric producers, and the standalone Cozy Space
page:

- **DosMonitorController** (`monitor.dfy`, module `Monitor`) validates a posted
  metrics payload with Laravel's rules, then caches the current snapshot for
  300 seconds and appends a history entry. The history is capped at the last
  100 entries and cached for 3600 seconds. The module also serves the
  current-metrics, history and status views, and clears both cache entries.
  The cache is a `class Cache` whose two slots are updated in place. Each
  slot holds a value and an expiry time and is live while `now < expiresAt`.
  `StoreMetrics` and `ClearMetrics` are methods on that cache, proved against
  the pure `StoreSpec` and the empty state.
- **dos_metrics_client.py** (`client.dfy`, module `MetricsClient`) keeps
  running counters and a sliding window of the last 100 response times. It
  derives an average and a success rate and builds the payload it posts.
- **dos_metrics_sender.py** (`sender.dfy`, module `MetricsSender`) simulates an
  attack's figures from three random draws. The draws are parameters. It
  accumulates the total request count and builds the error and
  response-code breakdowns.
- **DosMonitor.tsx** (`monitor_page.dfy`, module `MonitorPage`) is the control
  page. It covers:
  - the initial state and the start/stop/pause/reset updaters;
  - the button guards and the status colour;
  - the poll updater with its JavaScript `||` defaults;
  - the `HH:MM:SS` duration text.
- **DosMonitor/Dashboard.tsx** (`dashboard_page.dfy`, module `DashboardPage`)
  covers `formatBytes`, the success-rate colour and the 50-point chart series.
- **CozySpace.tsx** (`cozy_space.dfy`, module `CozySpace`) covers:
  - the trim-guarded submit and the newest-first message list;
  - the "special note" shown after a gentle share;
  - the grouping of messages by type, which is the `reduce`, modelled as a
    loop.

`shared.dfy` (module `Shared`) holds what the modules share:
- `Option` and the JSON value type;
- `LastN`, which models PHP's `array_slice($a, -n)`, Python's `a[-n:]` and
  JavaScript's `a.slice(-n)`;
- `RStrip`, which models Python's `rstrip`.

The three producers and consumers do not agree on the wire format, and the
model states the consequences instead of hiding them:
- `MetricsClient.SendPayloadRejected` proves that the client's payload always
  fails the controller's validation. It lacks `average_response_time`,
  `error_rate` and `status`, and it names the average and the error figure
  `response_time_avg` and `error_count`.
- The sender posts its samples to `/api/dos/metrics`. The monitor page polls
  `/api/dos/metrics`.
- The routes file (routes/web.php:29-32) registers `storeMetrics` under
  `/api/dos-metrics`, together with three methods the controller does not
  define.
- For the sender, `MetricsSender.GeneratedSampleAccepted` proves what the
  controller would do with its samples. The page's poll is modelled as
  receiving the response of `getMetrics`.

A stored payload without a `start_time` key passes validation. The controller
then reads `$validated['start_time']`, which does not exist. Laravel turns that
into an exception before either cache write. The model returns
`UndefinedStartTime` and leaves the cache unchanged.

## Model

| member | source | states |
|---|---|---|
| Shared.LastN | app/Http/Controllers/DosMonitorController.php:62-65 | keeps the last min(len, n) elements, in order, each equal to the element at the same distance from the end |
| Shared.LastNConcat | app/Http/Controllers/DosMonitorController.php:51-65 | trimming to the last n before appending more and trimming again gives the same window as trimming once at the end |
| Shared.SlideKeepsLast | dos_metrics_client.py:114-118 | appending items one at a time with a cap after each append leaves exactly the last n of all items |
| Shared.RStrip | dos_metrics_client.py:23 | the result is a prefix of the input that does not end in the stripped character, and only that character was removed |
| Monitor.ParseStatus | app/Http/Controllers/DosMonitorController.php:25 | accepts exactly the names running, stopped and paused, and returns the status of that name |
| Monitor.Validate | app/Http/Controllers/DosMonitorController.php:17-29 | fails exactly when not every field rule holds and then reports exactly the failing fields; a pass yields fields in range (non-negative counters, rates within 0..100, a URL, a known status, lists that are arrays, objects or blank strings) and records whether start_time was sent |
| Monitor.NoErrorsIffAllValid | app/Http/Controllers/DosMonitorController.php:17-29 | the set of failing fields is empty exactly when every field rule holds |
| Monitor.ValidateReportsErrors | app/Http/Controllers/DosMonitorController.php:17-29 | validation fails exactly when the error set is non-empty, and a field is in the error set exactly when it is one of the validated fields and its rule fails |
| Monitor.ToPayloadAt | app/Http/Controllers/DosMonitorController.php:17-29 | the body built from fields holds each of the eight required fields at its key, start_time as sent (left out, null or a string), and the two lists exactly when they are sent |
| Monitor.ToPayloadFieldsValid | app/Http/Controllers/DosMonitorController.php:17-29 | every rule holds for the payload built from fields that are in range |
| Monitor.ValidateToPayload | app/Http/Controllers/DosMonitorController.php:17-29 | validating the payload built from in-range fields gives those fields back (round trip) |
| Monitor.Live | app/Http/Controllers/DosMonitorController.php:48 | a cached value is returned exactly while its expiry time lies in the future |
| Monitor.Cache.constructor | app/Http/Controllers/DosMonitorController.php:83-84 | a fresh cache holds neither a snapshot nor a history |
| Monitor.Cache.PutMetrics | app/Http/Controllers/DosMonitorController.php:48 | the snapshot slot holds the value until now plus the TTL, and the history slot is untouched |
| Monitor.Cache.PutHistory | app/Http/Controllers/DosMonitorController.php:67 | the history slot holds the value until now plus the TTL, and the snapshot slot is untouched |
| Monitor.Cache.GetHistory | app/Http/Controllers/DosMonitorController.php:51 | returns the live history, or the empty list when it is missing or expired |
| Monitor.Cache.ForgetMetrics | app/Http/Controllers/DosMonitorController.php:111 | the snapshot slot is emptied and the history slot untouched |
| Monitor.Cache.ForgetHistory | app/Http/Controllers/DosMonitorController.php:112 | the history slot is emptied and the snapshot slot untouched |
| Monitor.StoreSpec | app/Http/Controllers/DosMonitorController.php:15-76 | stored exactly when every rule holds and start_time is present; invalid exactly when a rule fails, with exactly the failing fields; nothing is written unless stored; a store answers with the request time |
| Monitor.StoreMetrics | app/Http/Controllers/DosMonitorController.php:15-76 | the new cache state and the answer are those StoreSpec gives for the old state |
| Shared.PushCapped | app/Http/Controllers/DosMonitorController.php:52-65 | the sequence after the append and the `count > 100` trim is the last n of the old sequence followed by the new element; the client's response-time window (dos_metrics_client.py:115-118) is kept the same way |
| Monitor.ClearMetrics | app/Http/Controllers/DosMonitorController.php:109-118 | both slots are empty, so every later read sees no snapshot and an empty history |
| Monitor.GetMetrics | app/Http/Controllers/DosMonitorController.php:81-92 | the snapshot is returned exactly while it is live, together with the live history and the request time |
| Monitor.GetHistory | app/Http/Controllers/DosMonitorController.php:96-104 | the live history, or the empty list once it is missing or expired, with the request time |
| Monitor.StatusOf | app/Http/Controllers/DosMonitorController.php:135-145 | is_running holds exactly when the status is running; with no live snapshot the status is stopped and the other fields null; otherwise they are the snapshot's |
| Monitor.AcceptedStoreAppends | app/Http/Controllers/DosMonitorController.php:51-67 | an accepted store appends the entry for this request as the newest element of the previous live history, trimmed to the last 100 |
| Monitor.AcceptedStoreSnapshot | app/Http/Controllers/DosMonitorController.php:32-48 | an accepted store caches the validated figures, with the request time as the timestamp and a missing errors or response_codes list as the empty list |
| Monitor.StoreKeepsHistoryBounded | app/Http/Controllers/DosMonitorController.php:62-65 | a store never leaves more than 100 history entries when there were at most 100 before |
| Monitor.ReadAfterStore | app/Http/Controllers/DosMonitorController.php:48 | after an accepted store, getMetrics shows the new snapshot for 300 seconds and a non-empty history for 3600 seconds, and nothing after; the status reads running exactly within those 300 seconds and when running was posted |
| Monitor.SmokeTestPayloadAccepted | test_api.py:62-78 | the payload the API smoke test posts is stored |
| Monitor.BlankErrorsAccepted | app/Http/Controllers/DosMonitorController.php:27-28 | a blank string under errors passes the nullable array rule (the validator runs only implicit rules on blank strings), the request is stored, and the snapshot keeps the blank string because `??` replaces only null |
| MetricsClient.SumBounds | dos_metrics_client.py:121 | a sum of values within lo..hi lies within len·lo..len·hi |
| MetricsClient.MeanWithin | dos_metrics_client.py:121 | the average of a non-empty list of values within lo..hi lies within lo..hi |
| MetricsClient.SuccessRate | dos_metrics_client.py:122 | lies in 0..100 when the errors do not exceed the total; with requests made it is 100 exactly when no error occurred and 0 exactly when all failed |
| MetricsClient.SendPayloadDefaults | dos_metrics_client.py:63-74 | a missing or zero average becomes 0, a missing or zero success rate becomes 100 and any other is posted as given, a zero error count falls back to the client's own, and the total and the target are the client's |
| MetricsClient.SendPayloadRejected | dos_metrics_client.py:63-74 | the controller rejects every client payload, naming at least average_response_time, error_rate and status, and the cache is unchanged |
| MetricsClient.DosMetricsClient.constructor | dos_metrics_client.py:15-37 | the dashboard URL loses trailing slashes, the endpoint is that URL plus /api/dos-metrics, and all counters start at zero with an empty window |
| MetricsClient.DosMetricsClient.CountRequest | dos_metrics_client.py:107-112 | one more request, the bytes added, one more error exactly on failure, and the error count stays within the request count |
| MetricsClient.DosMetricsClient.RecordTime | dos_metrics_client.py:114-118 | a given time is appended to the record of all times and the window becomes the last 100 of them; no time leaves both unchanged |
| MetricsClient.DosMetricsClient.UpdateMetrics | dos_metrics_client.py:89-133 | counts one request and its bytes, counts an error on failure, keeps the last 100 response times of all recorded ones, and posts the payload built from the window's mean and the success rate |
| MetricsSender.TruncBounds | dos_metrics_sender.py:57 | int() of a real lies between 0 and the real for non-negative reals |
| MetricsSender.TruncTowardZero | dos_metrics_sender.py:72 | int() rounds toward zero: the result has the sign of its argument and is the whole number next to it on the side of zero |
| MetricsSender.TimesIsProduct | dos_metrics_sender.py:57 | the repeated sum used for a count times a factor equals the product |
| MetricsSender.RpsRange | dos_metrics_sender.py:54-57 | with a base rate in 500..2000 and a variation in 0.8..1.2, the request rate lies in 400..2400 |
| MetricsSender.ConnectionsRange | dos_metrics_sender.py:72 | with a factor in 0.3..0.7, the active connections lie between 0 and the request rate |
| MetricsSender.GenerateBounds | dos_metrics_sender.py:36-103 | a stopped sender reports the stopped sample with its total unchanged; a running one adds the rate to the total, keeps target and start time, reports a rate in 400..2400, connections up to the rate, success in 70..100 and errors in 0..30 summing to 100, and an average of at least 50 ms |
| MetricsSender.LoadMonotone | dos_metrics_sender.py:62-66 | a higher request rate never lowers the response time nor raises the success rate |
| MetricsSender.LoadShares | dos_metrics_sender.py:75-89 | the success and error loads are non-negative and add up to the request rate |
| MetricsSender.BreakdownWithinRate | dos_metrics_sender.py:75-89 | four error kinds and five response codes with non-negative counts; the error counts add up to at most the error load and the code counts to at most the request rate |
| MetricsSender.GeneratedSampleAccepted | dos_metrics_sender.py:91-103 | every generated sample, running or stopped, passes the controller's validation and is stored |
| MetricsSender.DosMetricsSender.constructor | dos_metrics_sender.py:17-22 | the dashboard URL loses trailing slashes, there is no start time, the total is zero and the sender is not running; the post URL (MetricsUrl) is that URL plus /api/dos/metrics, not the /api/dos-metrics the client uses |
| MetricsSender.DosMetricsSender.StartAttack | dos_metrics_sender.py:24-29 | running, with the given time as the start time and the total kept; the sender invariant (a non-negative total) is kept |
| MetricsSender.DosMetricsSender.StopAttack | dos_metrics_sender.py:31-34 | not running, with start time and total kept; the sender invariant is kept |
| MetricsSender.DosMetricsSender.GenerateMetrics | dos_metrics_sender.py:36-103 | the sample and the new total are those Generate gives for the old state, and the total stays non-negative |
| MonitorPage.NatToString | resources/js/Pages/DosMonitor.tsx:125 | the decimal text of a number is non-empty and all digits, has two or more digits exactly from 10 on, and has no leading zero |
| MonitorPage.ParseNatToString | resources/js/Pages/DosMonitor.tsx:125 | reading the decimal text back gives the number |
| MonitorPage.PadStart | resources/js/Pages/DosMonitor.tsx:125 | the result is at least the width long, ends with the input, and is filled on the left with the pad character |
| MonitorPage.PaddedValue | resources/js/Pages/DosMonitor.tsx:125 | a two-digit padded number is all digits, at least two long, and reads back as the number |
| MonitorPage.JsRem | resources/js/Pages/DosMonitor.tsx:122-123 | JavaScript's remainder: for a non-negative dividend the usual remainder; for a negative one its magnitude is |a| mod b and its sign is the dividend's, so it lies in -b+1..0 |
| MonitorPage.JsRemDivision | resources/js/Pages/DosMonitor.tsx:122-123 | the dividend is the quotient truncated toward zero times the divisor plus the remainder |
| MonitorPage.ElapsedBounds | resources/js/Pages/DosMonitor.tsx:120-123 | for a non-negative difference, minutes and seconds lie in 0..59 and h:m:s in milliseconds is at most the difference and within one second of it |
| MonitorPage.EmptyStartShowsZero | resources/js/Pages/DosMonitor.tsx:116-117 | an empty start time shows 00:00:00 |
| MonitorPage.ShowHmsReadsBack | resources/js/Pages/DosMonitor.tsx:125 | the colon-separated text splits into three parts of at least two digits that read back as the hours, minutes and seconds |
| MonitorPage.DurationReadsBack | resources/js/Pages/DosMonitor.tsx:116-125 | the shown duration reads back as whole hours, minutes in 0..59 and seconds in 0..59 that account for the elapsed time to within a second |
| MonitorPage.StartAttack | resources/js/Pages/DosMonitor.tsx:127-135 | running, started now, an empty chart and connected; every other figure is kept |
| MonitorPage.StopAttack | resources/js/Pages/DosMonitor.tsx:137-143 | stopped and disconnected; every other figure is kept |
| MonitorPage.PauseAttack | resources/js/Pages/DosMonitor.tsx:145-150 | paused; every other figure and the connection flag are kept |
| MonitorPage.ResetMetrics | resources/js/Pages/DosMonitor.tsx:152-168 | the page is the initial page except that the target URL is kept |
| MonitorPage.ResetIdempotent | resources/js/Pages/DosMonitor.tsx:152-168 | resetting twice equals resetting once, and resetting the initial page changes nothing |
| MonitorPage.GuardsComplement | resources/js/Pages/DosMonitor.tsx:228-245 | exactly one of Start and Pause is enabled, and Stop is enabled exactly when not stopped |
| MonitorPage.PausedOnlyFromRunning | resources/js/Pages/DosMonitor.tsx:145-150 | a click pauses the attack only when it is the Pause button pressed while running |
| MonitorPage.ClicksKeepTarget | resources/js/Pages/DosMonitor.tsx:127-168 | no sequence of clicks changes the target URL, and the response-code list is either kept or emptied |
| MonitorPage.StatusColorsDistinct | resources/js/Pages/DosMonitor.tsx:170-177 | the three statuses get three different colours, none of them the fallback grey |
| MonitorPage.ChartErrorsBounds | resources/js/Pages/DosMonitor.tsx:94 | a chart point's error count lies between 0 and its request rate when the error rate is in 0..100 |
| MonitorPage.PollFrame | resources/js/Pages/DosMonitor.tsx:74-104 | a poll never touches the response codes; an answer connects, a throw only disconnects, and a non-ok answer changes nothing |
| MonitorPage.PolledSnapshot | resources/js/Pages/DosMonitor.tsx:78-89 | a stored success rate of 0 is shown as 100 and any other as stored; rate, total and status are the snapshot's |
| MonitorPage.PolledNothing | resources/js/Pages/DosMonitor.tsx:78-97 | with no live snapshot, every displayed figure falls back to its initial value |
| MonitorPage.PolledChart | resources/js/Pages/DosMonitor.tsx:90-95 | one chart point per history entry, in order, with its time, its rate, the error count floor(error_rate / 100 * rate) and the average response time (0 stays 0 under `\|\| 0`); for a rate of 0 to 100 percent and a non-negative rate the count lies between 0 and the rate |
| DashboardPage.UnitIndexBounds | resources/js/Pages/DosMonitor/Dashboard.tsx:122 | the unit index i of a positive count satisfies 1024^i <= count < 1024^(i+1) |
| DashboardPage.UnitIndexUnique | resources/js/Pages/DosMonitor/Dashboard.tsx:122 | the unit index is i exactly when the count lies in the band 1024^i..1024^(i+1) |
| DashboardPage.FormatBytesUnits | resources/js/Pages/DosMonitor/Dashboard.tsx:118-124 | 0 is shown as 0 B and a negative count as NaN; a positive count is shown as an amount in 1..1024 of the unit of its band, with no unit from 1024^4 on |
| DashboardPage.SuccessColorMonotone | resources/js/Pages/DosMonitor/Dashboard.tsx:130-134 | a higher success rate never gets a worse colour |
| DashboardPage.ChartData | resources/js/Pages/DosMonitor/Dashboard.tsx:136-142 | at most 50 points, one per sample of the last 50 in order, each with its sample's figures |
| DashboardPage.ChartDataAppend | resources/js/Pages/DosMonitor/Dashboard.tsx:136-142 | a new sample becomes the last point; the other points are the previous ones, shifted by one once the window is full |
| CozySpace.TrimShape | resources/js/Pages/CozySpace.tsx:58 | trim returns a contiguous middle part of the input, with only white space removed around it, and the part neither starts nor ends with white space |
| CozySpace.TrimEmptyIffBlank | resources/js/Pages/CozySpace.tsx:54 | a message trims to nothing exactly when it is all white space |
| CozySpace.TrimIdempotent | resources/js/Pages/CozySpace.tsx:58 | trimming twice equals trimming once |
| CozySpace.SubmitEffect | resources/js/Pages/CozySpace.tsx:52-70 | a blank message changes nothing; any other becomes the first message, trimmed, with the selected type, ahead of the unchanged earlier messages, the input is cleared, and the special note shows when the apologetic prompt was selected and is otherwise kept |
| CozySpace.SubmitDisabledIffNoOp | resources/js/Pages/CozySpace.tsx:180 | the submit button is disabled exactly when submitting would change nothing |
| CozySpace.StepNote | resources/js/Pages/CozySpace.tsx:66-70 | a single event turns the special note on only when it is an accepted submit with the apologetic prompt |
| CozySpace.StepNoteShown | resources/js/Pages/CozySpace.tsx:66-70 | an accepted submit with the apologetic prompt always shows the note, every other event keeps a showing note, and the 4-second timer hides it |
| CozySpace.NoteOnlyAfterApology | resources/js/Pages/CozySpace.tsx:66-70 | whenever the special note is showing, an earlier event was an accepted submit with the apologetic prompt |
| CozySpace.Kinds | resources/js/Pages/CozySpace.tsx:76-80 | the group keys are exactly the types present, each once |
| CozySpace.KindsOrder | resources/js/Pages/CozySpace.tsx:76-80 | the group keys come in order of the first message of each type: an earlier key's first message is earlier in the list |
| CozySpace.GroupMessages | resources/js/Pages/CozySpace.tsx:76-80 | the keys are the types present in first-appearance order, and each group holds exactly the messages of its type in list order |
| CozySpace.OfKindPosition | resources/js/Pages/CozySpace.tsx:76-80 | a message sits in its type's group right after the earlier messages of that type, so groups keep list order |
| CozySpace.GroupSizesTotal | resources/js/Pages/CozySpace.tsx:199 | the group sizes add up to the number of messages, so every message is shown exactly once |

## Left out

- HTTP and network I/O are not modelled: requests, response codes, JSON encoding, sessions, timeouts and the `try`/`except` around the posts.
- The 2-second polling interval and the sender's `run` loop (sleep, KeyboardInterrupt) are not modelled. Each poll or sample is one call.
- `Log::info`, console output and all rendering are not modelled. That includes icons, badges, `toLocaleString`, `toLocaleTimeString` and the time-of-day labels of chart points.
- The controller's `health` endpoint is not modelled. Its `uptime` is a clock computation with no stored state.
- The `dashboard` page action is not modelled, nor the `getCurrentMetrics`, `getHistoricalData` and `getStats` actions that routes/web.php names. The controller does not define those actions, so there is nothing to model.
- The Dashboard page's fetch handlers, auto-refresh timer and stats cards are not modelled. Only its pure helpers are.
- Clock readings (`now()`, `time.time()`, `datetime.now()`, `new Date()`, `Date.now()`) are parameters. ISO-8601 rendering and parsing of times are not modelled. One request reads one clock value.
- The `random` draws of the sender are the fields of `Draws`, constrained to the ranges the sender draws from.
- Monitor.Validate: Laravel's `numeric` also accepts numeric strings. The model accepts JSON numbers only.
- Monitor.Validate: Laravel's `url` rule, a regular-expression test, is abstracted as the parameter `isUrl`.
- Monitor.Validate: the payload is taken as the validator sees it. A default Laravel application first runs the global TrimStrings and ConvertEmptyStringsToNull middleware, which trim every string and turn an empty one into null (so `" running "` would be accepted as `running`, and an empty errors string stored as `[]`). The application's middleware setup is not part of this model.
- MetricsSender.GenerateBounds: `round(x, 2)` and `round(x, 1)` on the average and the rates are not modelled.
- MonitorPage.PolledChart: reals stand for the floats of Python and JavaScript throughout the model, so rounding before a floor or an `int()` is not captured. In the page, `Math.floor((29 / 100) * 100)` is 28, because the product is 28.999999999999996; error rates of 57 and 58 behave the same way. The model gives 29. The sender's truncations (`MetricsSender.GenerateBounds`, `MetricsSender.BreakdownWithinRate`) can differ by one in the same way.
- DashboardPage.FormatBytesUnits: the byte count is an integer here, while formatBytes takes any number. A fraction between 0 and 1 would give a negative unit index and the unit `undefined`. Every producer of the figures sends whole byte counts.
- DashboardPage.FormatBytesUnits: `Math.log` is computed exactly here. Float imprecision at exact powers of 1024 is not captured, and neither is `toFixed(2)`/`parseFloat` on the amount.
- MonitorPage.DurationReadsBack: the elapsed milliseconds are a parameter. Parsing `startTime` with `new Date` is not modelled, so an unparsable start time (NaN duration) is not captured.
- Persistence of Cozy Space messages in `localStorage` is not modelled. That covers loading on mount and saving on change.
- The 4-second timer that hides the special note is an explicit `NoteTimeout` event. Timer ordering and cancellation are not modelled.
- Message types come from a four-item select. The model lets any text through as the type. Object keys such as `constructor`, inherited by the accumulator object, are not modelled.
- CozySpace.Kinds: JavaScript orders integer-like object keys numerically before the others. The model proves first-appearance order for every key, which is what the four non-numeric types the page offers get.
- Concurrency is not modelled. Two overlapping stores on the shared cache could interleave their read and write of the history.
