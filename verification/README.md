# easyspeedtest dashboard and test service: a Dafny model

easyspeedtest is a small speed-test dashboard. It has two parts:

- A Flask service (`app.py`). It keeps one test record, `current_test`, and runs the speed-test library in a background thread. It serves `POST /api/start-test` and `GET /api/status`.
- A browser script (`static/script.js`). It starts a test, polls the status every 300 ms, and shows the results. The display has quality ratings, a progress bar, a speedometer gauge and a rolling line chart.

This project models the sequential logic of both parts and proves properties about it:

| file | module | what it models |
|---|---|---|
| `wrappers.dfy` | `Wrappers` | `Option`, standing for JSON `null` |
| `wire.dfy` | `Wire` | the status payload and the server object; JavaScript `text \|\| fallback` on strings |
| `quality.dfy` | `Quality` | `getPingQuality`, `getSpeedQuality` |
| `speedometer.dfy` | `Speedometer` | the arc dash offset computed by `updateSpeedometer` |
| `chart_buffer.dfy` | `ChartBuffer` | `chartData`, `addChartDataPoint`, the chart part of `resetUI` |
| `chart_binding.dfy` | `ChartBinding` | what the Chart.js instance draws, as written and corrected (see Findings) |
| `status_view.dfy` | `StatusView` | `updateUI` (status table, readings, gauge, chart rule), the rest of `resetUI` |
| `session.dfy` | `Session` | the click handler, `pollStatus`, the settle timer, `showError`, `showSuccess`, `resetButton` as a state machine |
| `test_server.dfy` | `TestServer` | `current_test`, `start_test`, `get_status`, `run_speedtest` as a list of record writes |
| `dashboard.dfy` | `Dashboard` | how the client's status table meets the statuses the service writes |

Requests, timers and responses are abstract events of the session machine. A response may arrive in any state, so a late reply to a poll issued before the loop stopped is also covered.

`run_speedtest` is modelled as the fixed list of writes it makes to the record (`Program`). The speed-test library is replaced by a `Probe`: the outcome of each library call, either a value or the message of the exception it raised. A poll during the run reads the record after some prefix of these writes.

The eviction guard `labels.length > 20` runs before the push (static/script.js:179-187), so the buffer holds up to 21 points, not 20. The model has `EvictAbove = 20` and `MaxPoints = 21`.

## Model

| member | source | states |
|---|---|---|
| Quality.PingQuality | static/script.js:119-124 | Excellent exactly below 20 ms, Good on [20, 50), Fair on [50, 100), Poor from 100 on; the bar width is the rating's percent, one of 25/50/75/100 |
| Quality.SpeedQuality | static/script.js:126-132 | strict lower bounds: Excellent above 100, Good on (50, 100], Fair on (25, 50], Slow on (10, 25], Very Slow up to 10; the percent is one of 15/30/50/75/100 |
| Quality.PingQualityAntitone | static/script.js:119-124 | a higher latency never gets a wider bar |
| Quality.SpeedQualityMonotone | static/script.js:126-132 | a higher throughput never gets a narrower bar |
| Quality.PingBoundaries | static/script.js:119-124 | 19.99 ms is Excellent; 20, 50 and 100 ms fall into the worse class |
| Quality.SpeedBoundaries | static/script.js:126-132 | 100 Mbps is Good, 100.01 is Excellent, 42 is Fair, 10 is "Very Slow" |
| Speedometer.ArcOffset | static/script.js:151-155 | for speed ≥ 0 the offset is in [0, 377]; it is 0 from 500 Mbps up; below 500 the drawn part of the arc is speed/500 of 377; a negative speed gives more than 377 |
| Speedometer.ArcOffsetAntitone | static/script.js:151-155 | a faster reading never leaves more of the arc undrawn |
| Speedometer.ArcOffsetAtRest | static/script.js:220 | the reset to speed 0 leaves the whole arc (377) undrawn |
| ChartBuffer.Reset | static/script.js:215-217 | after a reset all three series are empty |
| ChartBuffer.Push | static/script.js:176-187 | each series gets exactly one new last entry: the label, then download and upload with a missing value stored as 0; equal-length series stay equal; on a buffer of at most 21 points the result is the last 21 of the old points plus the new one |
| ChartBuffer.ColumnsRoundTrip | static/script.js:23-27 | the three parallel series and the list of points are inverse views of the same data |
| ChartBuffer.FillKeepsLatest | static/script.js:179-187 | any run of pushes on a valid buffer leaves exactly the most recent 21 points of old and new together, in arrival order |
| ChartBuffer.FillFromEmpty | static/script.js:179-187 | from empty the buffer never exceeds 21 points, and its three series are exactly those of the last 21 samples pushed: all of them after up to 21 pushes, oldest evicted first after more |
| ChartBinding.InitPlot | static/script.js:30-56 | the chart is created over the `chartData` arrays themselves, so it starts bound to them, drawing exactly the (empty) data |
| ChartBinding.PlotPush | static/script.js:185-189 | a push always reaches `chartData`; it reaches the drawn chart only while the chart is still bound to those arrays |
| ChartBinding.ResetAsWritten | static/script.js:214-218 | as written, the reset empties `chartData` but leaves the drawn arrays alone and unbinds them |
| ChartBinding.ResetInPlace | static/script.js:214-218 | the corrected reset empties the `chartData` arrays in place and keeps the binding; the drawn arrays are emptied too exactly when they are the same arrays, and are untouched otherwise |
| ChartBinding.DetachedChartIsFrozen | static/script.js:185-189 | once the chart is unbound, no number of pushes changes what it draws |
| ChartBinding.ResetAsWrittenHidesSamples | static/script.js:214-218 | as written: after the reset that every start performs, any non-empty run of samples is buffered while the chart still draws nothing |
| ChartBinding.FixedChartShowsData | static/script.js:214-218 | with the in-place reset, any mix of resets and pushes keeps the drawn chart equal to the buffered data |
| StatusView.Entry | static/script.js:298-308 | a status the table does not know is shown as its own text with progress 0; every progress value is one of 0/5/15/30/50/80/100 |
| StatusView.EntryValues | static/script.js:298-308 | each of the seven table entries with its text and progress: "Initializing test..." 5, "Finding optimal server..." 15, "Testing latency..." 30, "Testing download speed..." 50, "Testing upload speed..." 80, "Test completed!" 100, "Error occurred" 0; and `running` falls back to its own text with 0 |
| StatusView.ResetPanel | static/script.js:193-220 | the reset restores the placeholders: "Initializing...", "Testing...", an empty bar, no server, blank readings, a gauge at rest; the status line's colour classes stay as they were |
| StatusView.UpdateHeader | static/script.js:308-337 | status text, gauge label and bar come from the table; the server block and ping reading change only when the snapshot carries them |
| StatusView.UpdateDownload | static/script.js:340-357 | a present download is shown with its speed rating; only while `testing_download` does it move the gauge and push the point (download, 0) |
| StatusView.UpdateUpload | static/script.js:360-377 | a present upload is shown with its speed rating; only while `testing_upload` or `completed` does it move the gauge and push (download or 0, upload) |
| StatusView.UpdateUI | static/script.js:297-378 | the panel follows the table and the present metrics; the chart and gauge change exactly as the rule `SampleFor` says: one point or none |
| StatusView.AtMostOnePointPerUpdate | static/script.js:340-369 | one status reply keeps the buffer valid and either leaves it unchanged (when `SampleFor` names no point) or leaves the last 21 of the old points followed by the one point `SampleFor` names, so a full buffer never loses two points to one reply |
| Session.ShowError | static/script.js:388-393 | the status line reads "Error: " and the message, turns red, the gauge label reads "Test failed" and the bar empties; the readings, server block, gauge and green class are left as they were |
| Session.ShowSuccess | static/script.js:396-408 | the status line reads "Test completed successfully!", loses red and turns green; the bar, gauge label, readings, server block and gauge are left as they were |
| Wire.StringOr | static/script.js:245 | JavaScript `text \|\| fallback` on a string that may be `null`: the text when it is present and non-empty, the fallback when it is `null` or empty (also static/script.js:278) |
| Session.StartMessage | static/script.js:243-251 | a refused start shows the reply's `error`, or "Failed to start test" when that is missing or empty; a thrown error shows its own message |
| Session.PollMessage | static/script.js:261-262 | the text after "Connection error: ": "Server error" for a non-2xx status reply, the thrown error's own message otherwise (static/script.js:290) |
| Session.OnClick | static/script.js:224-236 | a click on a disabled button changes nothing; otherwise the poll timer is cleared, display and chart are reset, and the button is disabled; pending settles, the poll count and the error count are untouched |
| Session.OnStartOk | static/script.js:248 | an accepted start sets the poll timer and begins a session with no connection error counted; panel, chart, button, pending settles and poll count are unchanged |
| Session.OnStartFail | static/script.js:250-253 | a failed start shows the start error and re-enables the button; the poll timer, chart, pending settles and both counts are unchanged |
| Session.OnTick | static/script.js:248 | the poll interval issues a status request exactly when the timer is set, and changes nothing else: panel, chart, button, timer, settles and error count stay |
| Session.OnPollOk | static/script.js:265-283 | a reply always goes through `updateUI`; a terminal status clears the timer and queues one settle timer carrying the reply |
| Session.OnPollFail | static/script.js:285-293 | a failed poll is reported only while the timer is set; it then clears the timer and re-enables the button; otherwise it is ignored; the chart, pending settles and poll count are never touched |
| Session.OnSettle | static/script.js:274-282 | the earliest settle timer re-enables the button, then shows the server's error (or "An error occurred") for `error` and success otherwise; the timer, chart and both counts are unchanged |
| Session.Step | static/script.js:223-293 | each event goes to its handler; no event other than an accepted start sets the poll timer, one event issues at most one status request, and it reports at most one connection error, only while the timer is set |
| Session.ClickWhileDisabledIsNoop | static/script.js:225 | a click while the button is disabled is a no-op |
| Session.StepKeepsStopped | static/script.js:248 | only an accepted start sets the poll timer |
| Session.NoPollsWithoutStart | static/script.js:269-271 | once the timer is cleared, no status request is issued again until a start is accepted, whatever events follow |
| Session.AtMostOneConnectionError | static/script.js:285-293 | between accepted starts at most one connection error is reported, and only if the timer was set; clicks in between do not reset the count |
| Session.OneConnectionErrorPerSession | static/script.js:285-293 | an accepted click followed by its accepted start reports at most one connection error |
| Session.FailedStartLeavesIdle | static/script.js:238-253 | a click followed by a start failure leaves no poll timer, an enabled button and the start error in red |
| Session.CompletedSession | static/script.js:269-283 | click, start, one poll answered `completed`, settle: polling stopped after exactly one request, the button enabled, success shown |
| Session.BrokenFirstPoll | static/script.js:285-292 | click, start, a failing first poll: exactly one connection error, the button enabled, polling stopped |
| Session.DownloadSnapshotShown | static/script.js:340-349 | a `testing_download` reply with 42 Mbps shows 42 rated Fair, a 50% bar, and buffers one chart point (42, 0) in `chartData` |
| TestServer.NameRoundTrip | app.py:93 | the status string written reads back to the status |
| TestServer.NameInjective | app.py:93 | a status string reads back to a status only if it is that status's own name, so the names are distinct |
| TestServer.InitialRecord | app.py:10-17 | the record starts `idle` with ping, download, upload, server and error all null |
| TestServer.StartTest | app.py:93-104 | a start is refused with 400 "Test already in progress" exactly while the status is running, starting, finding_server, testing_ping, testing_download or testing_upload, and the record is then unchanged; otherwise the record becomes `starting` with every other field null |
| TestServer.SecondStartRefused | app.py:93-104 | a second start right after an admitted one is refused and changes nothing |
| TestServer.GetStatus | app.py:113-116 | the reply carries every field of the record, the status string reads back to the status, and the record is unchanged |
| TestServer.DownloadRates | app.py:50-56 | the download progress callback only moves the download reading, to its latest rate |
| TestServer.UploadRates | app.py:66-72 | the upload progress callback only moves the upload reading, to its latest rate |
| TestServer.RunClearsErrorFirst | app.py:24-25 | the run first sets `running` and clears any earlier error message |
| TestServer.Program | app.py:18-81 | the list of writes `run_speedtest` makes to the record, in order; its behaviour is stated by `ProgramEnding`, `RunClearsErrorFirst`, `RunStatuses`, `SuccessfulRun` and `FailedRun` |
| TestServer.RunSpeedtest | app.py:18-81 | the record after the run: `completed` with the chosen server, ping, final download and upload rates and no error, or `error` with the message of the first library call that raised |
| TestServer.RunStatuses | app.py:23-81 | for every library outcome, the statuses written follow the ladder running, finding_server, testing_ping, testing_download, testing_upload, completed up to the step that raised, then `error` |
| TestServer.SuccessfulRunStatuses | app.py:24-77 | a run without failure writes exactly running, finding_server, testing_ping, testing_download, testing_upload, completed, in that order |
| TestServer.SuccessfulRun | app.py:23-77 | a run without failure ends `completed` with the chosen server, the ping, the final download and upload rates, and no error |
| TestServer.ProgramEnding | app.py:77-81 | the writes end with `completed` on success, or with `error` and the first failure's message |
| TestServer.FailedRun | app.py:79-81 | a failing run ends `error` with the message of the call that raised; server, ping and partial rates keep the values written before the failure |
| TestServer.CompletedOnlyAtEnd | app.py:77 | a record that was not `completed` reads `completed` only after the last write of a run without failure |
| TestServer.CompletedHasResults | app.py:33-77 | at every point of a run, a `completed` record has server, ping, download and upload all present |
| TestServer.StartThenRun | app.py:96-109 | an admitted start followed by a run without failure ends `completed` with all results |
| Dashboard.UnmappedServerStatuses | static/script.js:298-308 | of the statuses the service writes, only `idle` and `running` are missing from the client's table; both show their own name and an empty bar |
| Dashboard.ProgressAlongSuccessfulRun | static/script.js:298-308 | during a run without failure the bar reads 0, 15, 30, 50, 80, 100 and never moves back; the `starting` record shows 5 before `running` shows 0 |
| Dashboard.FailedRunMessage | static/script.js:277-278 | a failed run reaches the client as `error` with the service's message, or "An error occurred" when the message is empty |

## Left out

- DOM writes are not modelled: `innerHTML` templates, the button label and spinner, the `serverText` string and the speedometer `testing` class. They are presentation only. The panel keeps what is behaviourally relevant: texts, bar widths, readings, server, gauge target and colour classes.
- Chart.js configuration and `speedChart.update` are not modelled, because they are rendering. Only which arrays the chart draws is modelled, in `ChartBinding`.
- gsap tweens, `animateValue` and the animated number in `speedDisplay` are not modelled, because they are animation timing. The gauge holds the offset it is animated to.
- `fetch`, HTTP transport, the 300 ms interval and the 500 ms delay are events, not real time. Settle timers fire in the order they were scheduled, since all use the same delay.
- Clock labels from `toLocaleTimeString` are opaque `Stamp` values supplied by the caller.
- JavaScript numbers are modelled as `real`. NaN, infinities and non-numeric JSON values are not modelled.
- A status named like an `Object.prototype` member (such as `toString`) would find the inherited member in the status table. The model treats every status the table does not list as unknown.
- The page's initial markup (`index.html`) is not part of this model. The session starts from whatever panel it is given, and the model assumes the global `speedometer` element that `resetButton` uses exists.
- `pollStatus`'s `catch` would also catch an exception thrown by `updateUI` or the animation library. The model assumes those do not throw.
- Session.OnStartOk: sets a single timer flag. If a second start reply arrived while a timer was already set, the source would overwrite `pollInterval` and orphan the earlier interval; the model does not track orphaned timers.
- Flask routing, CORS, `render_template` and `app.run` are not modelled, because they are framework plumbing.
- `threading.Thread` and the unsynchronised sharing of `current_test` are not modelled as concurrency. A poll during a run reads the record after some prefix of the run's writes.
- The `speedtest` library, the callbacks' bytes/elapsed-time Mbps computation and `round(…, 2)` are not modelled, because they are foreign code and floating point. The `Probe` supplies the rates already computed.

## Findings

| source | as written | input that shows it | evidently intended | confidence | as-written member | corrected member |
|---|---|---|---|---|---|---|
| static/script.js:214-218 | `resetUI` assigns new empty arrays to `chartData.labels`, `.download` and `.upload`. The chart was built over the original arrays (static/script.js:35, 39, 49), so it stays bound to them, and later `addChartDataPoint` calls fill arrays the chart does not draw. Every start click runs `resetUI` before any point is pushed, so the chart never shows a point. | click Start, then any status reply in `testing_download` with a download value | the reset clears the series the chart draws, so the chart shows the new test's points | medium: this relies on Chart.js keeping the arrays it was given by reference; not executed | ChartBinding.ResetAsWrittenHidesSamples | ChartBinding.FixedChartShowsData |

`Session.chart` is `chartData`, which both readings of the reset leave empty; what Chart.js draws is modelled only in `ChartBinding`.
