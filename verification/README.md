# RestartApp — a Dafny model

`RestartApp` is an MSBuild task that restarts a Cloud Foundry application
and shows the application's logs while it comes back up. `Execute` trims
the organization and space names. It resolves the space and then the app.
It reads the controller info and picks a log backend: Doppler when its
endpoint is usable, otherwise Loggregator. Inside the backend client's
`using` block it tails the app's log stream and calls `MonitorApp`, which:

- stops the app unless it is already `STOPPED`;
- starts it;
- polls the app summary every 3000 ms until an instance runs, staging
  fails, or cancellation is requested.

Any exception inside the `try` is logged as "Restart App failed" and turned
into `false`. The log handlers print each record with its nanosecond
timestamp cut down to whole milliseconds.

The model is built from pure functions over immutable data:

- `Wrappers`: `Option`, for a null reference or an empty `Nullable<T>`.
- `Strings`: `string.Trim` and `string.IsNullOrWhiteSpace`. `TrimStart`
  and `TrimEnd` are the two halves that specify `Trim`; the task does not
  call them.
- `Timestamps`: C#'s truncating `long` division. `NanosToMillis` is
  `timestamp / 1000 / 1000`.
- `LogStream`: the two backends' envelopes and event handlers.
- `Controller`: what the task sees of, and does to, the controller. A
  remote call is an input `Remote<T>`: either the answer or a `Fault` (the
  exception `.Result` or `.Wait()` raises). Everything the task does is an
  `Effect`: a lookup, a stream-client call, a stop or start command, a
  summary fetch, a sleep, or a logged line. One run is the ordered trace of
  its effects.
- `Monitor`: `MonitorApp`. The loop that never ends by itself runs here over
  a finite sequence of `Tick`s, one per pass. Each tick holds the
  cancellation flag and the summary reply. The run ends `Polling` when the
  ticks run out first.
- `RestartApp`: `GetLogsUsingDoppler` / `GetLogsUsingLoggregator` (as
  `FollowLogs`), the part of `Execute` after the app is found (`Restart`),
  and `Execute`. `Execute` returns `Returned(ok)`, or `StillPolling` when
  `MonitorApp` is still polling.
- `MonitorProperties` and `RestartProperties`: the properties, stated and
  proved about the model.

## Behaviour worth knowing

Some of what the code does is easy to misread. The model does what the
code does:

- **Timestamps before the epoch.** C#'s `/` on `long` rounds toward zero,
  so before the epoch the millisecond count rounds toward zero, not down:
  a timestamp that is not a whole number of milliseconds gives one more
  than the floor (`NanosToMillisBeforeEpoch`).
- **An app that is already started.** Every app whose state is not
  `STOPPED` is sent a stop, so an app whose state is `STARTED` is stopped
  and then started again (`AlreadyStartedScenario`).
- **Failures while polling.** A summary fetch that faults is not retried:
  the exception from `.Result` leaves the loop, and `Execute` returns false.
- **Failures while connecting to the log stream.** An exception from the
  client's constructor or from `Tail` leaves the `using` block, and
  `Execute` returns false.
- **No usable log endpoint.** The task logs "Could not retrieve
  application logs" and returns true without calling `MonitorApp`, so the
  app is never stopped or started (`NoEndpointLeavesAppAlone`).
- **Blank organization or space.** `spaceGuid` stays null and
  `spaceGuid.Value` throws inside the `try`. The task logs the failure and
  returns false before any lookup (`BlankNamesFail`).
- **A `MonitorApp` that throws.** `StopLogStream` is skipped. Only the
  `using` block's disposal runs (`StreamReleased`, `StagingFailureFails`).

## Model

| member | source | states |
|---|---|---|
| Strings.TrimStart | src/CloudFoundry.Build.Tasks/src/RestartApp.cs:25-26 | reference half of `Trim`: the result is a suffix of the input; every dropped character is white space; the result does not start with white space |
| Strings.TrimEnd | src/CloudFoundry.Build.Tasks/src/RestartApp.cs:25-26 | reference half of `Trim`: the result is a prefix of the input; every dropped character is white space; the result does not end with white space |
| Strings.Trim | src/CloudFoundry.Build.Tasks/src/RestartApp.cs:25-26 | the trimmed name is no longer than the input and neither starts nor ends with white space; it is empty exactly when the input is blank |
| Strings.TrimIsTrimEndOfTrimStart | src/CloudFoundry.Build.Tasks/src/RestartApp.cs:25-26 | trimming both ends equals trimming the start and then the end, so `Trim` keeps exactly the infix between leading and trailing white space |
| Timestamps.TruncDiv | src/CloudFoundry.Build.Tasks/src/RestartApp.cs:104 | C# `long` division: the magnitude of the quotient times the divisor lies within one divisor below the dividend's magnitude, and the quotient's sign is the product of the operands' signs |
| Timestamps.NanosToMillis | src/CloudFoundry.Build.Tasks/src/RestartApp.cs:104 | `timestamp / 1000 / 1000` is the nanosecond count in whole milliseconds, rounded toward zero |
| Timestamps.TruncatedMillisUnique | src/CloudFoundry.Build.Tasks/src/RestartApp.cs:104 | at most one millisecond count is the truncation of a given nanosecond count |
| Timestamps.NanosToMillisIsOneDivision | src/CloudFoundry.Build.Tasks/src/RestartApp.cs:104 | the two divisions by 1000 equal one truncating division by 1_000_000 |
| Timestamps.NanosToMillisFloorsNonNegative | src/CloudFoundry.Build.Tasks/src/RestartApp.cs:104 | at or after the epoch, the result is the floor of nanoseconds / 1_000_000 |
| Timestamps.NanosToMillisBeforeEpoch | src/CloudFoundry.Build.Tasks/src/RestartApp.cs:104 | before the epoch, the result rounds toward zero: it is one more than the floor whenever the timestamp is not a whole millisecond |
| Timestamps.NanosToMillisBoundaries | src/CloudFoundry.Build.Tasks/src/RestartApp.cs:104 | 0 → 0, 999_999 → 0, 1_000_000 → 1, -999_999 → 0, -1_000_000 → -1 |
| Timestamps.NanosToMillisMonotonic | src/CloudFoundry.Build.Tasks/src/RestartApp.cs:104 | a later timestamp never gives an earlier millisecond |
| LogStream.FromDoppler | src/CloudFoundry.Build.Tasks/src/RestartApp.cs:102-107 | a Doppler record keeps the source type and the UTF-8-decoded message, and its time is the truncated millisecond count of the envelope's timestamp |
| LogStream.FromLoggregator | src/CloudFoundry.Build.Tasks/src/RestartApp.cs:137-142 | a Loggregator record keeps the source name and message, and its time is the truncated millisecond count of the envelope's timestamp |
| LogStream.HandleDoppler | src/CloudFoundry.Build.Tasks/src/RestartApp.cs:87-108 | each Doppler event gives its own kind of line; an error keeps its cause; only a message gives a record, with the source type, the decoded text and the truncated millisecond count of its timestamp |
| LogStream.HandleLoggregator | src/CloudFoundry.Build.Tasks/src/RestartApp.cs:122-143 | each Loggregator event gives its own kind of line; an error keeps its cause; only a message gives a record, with the source name, the text and the truncated millisecond count of its timestamp |
| LogStream.HandlersAgree | src/CloudFoundry.Build.Tasks/src/RestartApp.cs:87-142 | for the same event, the Doppler and Loggregator handlers write the same line (open, close, error or record), given bytes that decode back to the text |
| Monitor.ExitOf | src/CloudFoundry.Build.Tasks/src/RestartApp.cs:171-186 | a pass that does not go round again ends the loop: cancelled whenever cancellation is requested, before anything is fetched; thrown on a faulted fetch; running whenever an instance runs, even if the package is FAILED; the staging failure exactly when nothing runs and the package is FAILED; never still polling |
| Monitor.NoticeOf | src/CloudFoundry.Build.Tasks/src/RestartApp.cs:187-194 | "App is staging" exactly on PENDING, "App staged" exactly on STAGED, and no notice on any other package state |
| Monitor.Step | src/CloudFoundry.Build.Tasks/src/RestartApp.cs:171-194 | a pass goes round again exactly when it is not cancelled, its fetch answers, nothing runs and staging has not failed. It exits as cancelled exactly when cancellation is requested, as running exactly when an uncancelled fetch shows a running instance, with the fault exactly on a faulted fetch, and with the staging failure exactly on FAILED with nothing running. It logs "App is staging" exactly on PENDING and "App staged" exactly on STAGED |
| Monitor.PollLoop | src/CloudFoundry.Build.Tasks/src/RestartApp.cs:169-197 | the loop fetches at most once per pass; it is still polling exactly when every pass went round again |
| Monitor.PollLoopOnlyPolls | src/CloudFoundry.Build.Tasks/src/RestartApp.cs:169-197 | the loop only fetches the app's summary, sleeps 3000 ms and logs "App is staging" or "App staged": it sends no command and touches no stream |
| Monitor.Prelude | src/CloudFoundry.Build.Tasks/src/RestartApp.cs:155-166 | the first fetch, then one stop exactly when the first summary is not STOPPED, and one start exactly when nothing before it faulted, the stop first |
| Monitor.MonitorApp | src/CloudFoundry.Build.Tasks/src/RestartApp.cs:153-198 | it starts with a fetch, sends one stop exactly when needed and one start exactly when nothing before it faulted, sends no other command, and throws when a command faults; once the start is acknowledged, the rest of its trace and its ending are the poll loop's |
| Monitor.MonitorAppOrder | src/CloudFoundry.Build.Tasks/src/RestartApp.cs:155-176 | the stop comes before the start, and both come before anything the poll loop does |
| MonitorProperties.UnfoldContinue | src/CloudFoundry.Build.Tasks/src/RestartApp.cs:176-196 | a pass that goes round again adds one fetch, one sleep and a notice exactly on PENDING or STAGED to what the remaining passes do |
| MonitorProperties.PassCounts | src/CloudFoundry.Build.Tasks/src/RestartApp.cs:176-196 | such a pass fetches once and sleeps once, and logs a notice exactly when it is a staging poll |
| MonitorProperties.UnfoldExit | src/CloudFoundry.Build.Tasks/src/RestartApp.cs:171-186 | a pass that does not go round again ends the loop as its exit says, after one fetch, or none when cancelled |
| MonitorProperties.PollLoopFirstExit | src/CloudFoundry.Build.Tasks/src/RestartApp.cs:169-197 | the loop ends at the first pass that does not go round again, ending as that pass decides. Before it: k fetches, k sleeps and one notice per staging poll; the last pass adds one fetch unless cancelled |
| MonitorProperties.PollLoopOutOfTicks | src/CloudFoundry.Build.Tasks/src/RestartApp.cs:169-197 | when every pass goes round again, the loop is still polling after one fetch and one sleep per pass |
| MonitorProperties.EventuallyRunning | src/CloudFoundry.Build.Tasks/src/RestartApp.cs:176-196 | a running instance, reached with no cancellation, fault or failed package before it, ends the loop as running; when nothing ran before it, the loop made k + 1 fetches, k sleeps and one notice per PENDING or STAGED summary before it |
| MonitorProperties.FailedBeforeRunning | src/CloudFoundry.Build.Tasks/src/RestartApp.cs:178-186 | a failed package, reached with no cancellation, fault or running instance before it, ends the loop with the staging failure |
| MonitorProperties.CancelledBeforeDecision | src/CloudFoundry.Build.Tasks/src/RestartApp.cs:171-174 | cancellation before any deciding summary ends the loop cleanly; the cancelled pass fetches nothing |
| MonitorProperties.AlreadyStartedScenario | src/CloudFoundry.Build.Tasks/src/RestartApp.cs:155-181 | a STARTED app whose first poll shows two instances gets exactly: fetch, stop, start, fetch; it ends running with no notice |
| MonitorProperties.MonitorAppFirstExit | src/CloudFoundry.Build.Tasks/src/RestartApp.cs:155-197 | once the start is acknowledged, `MonitorApp` ends as the first pass that does not go round again decides, after one fetch before the loop, one per pass except a cancelled last one, and one notice per staging poll |
| MonitorProperties.PreludeCounts | src/CloudFoundry.Build.Tasks/src/RestartApp.cs:155-166 | before the loop, `MonitorApp` fetches the summary once and logs no notice |
| MonitorProperties.StoppedThenStagingScenario | src/CloudFoundry.Build.Tasks/src/RestartApp.cs:155-196 | a STOPPED app polled PENDING, PENDING, then running gets no stop and one start, logs two notices and ends running |
| RestartApp.SelectBackend | src/CloudFoundry.Build.Tasks/src/RestartApp.cs:60-72 | Doppler exactly when its endpoint is not null or blank; Loggregator exactly when only Loggregator's is usable; no stream exactly when neither is |
| RestartApp.FollowLogs | src/CloudFoundry.Build.Tasks/src/RestartApp.cs:83-151 | the client is constructed first. The block still polls exactly when the client was built, tailed and `MonitorApp` still polls. It returns normally exactly when the client was built and tailed, `MonitorApp` returned normally and `StopLogStream` succeeded |
| RestartApp.Closing | src/CloudFoundry.Build.Tasks/src/RestartApp.cs:112-115 | leaving the block calls `StopLogStream` once exactly after a normal return, and disposes of the client once, last, unless still polling; it sends no command |
| RestartApp.MonitorTouchesNoStream | src/CloudFoundry.Build.Tasks/src/RestartApp.cs:153-198 | `MonitorApp` never constructs, tails, stops or disposes of a stream client |
| RestartApp.Restart | src/CloudFoundry.Build.Tasks/src/RestartApp.cs:55-80 | after the app is found, `Execute` returns true exactly when the info is read and either no endpoint is usable or `MonitorApp` returned normally and the stream stopped cleanly; it is still polling exactly when the stream opened and `MonitorApp` still polls |
| RestartApp.Execute | src/CloudFoundry.Build.Tasks/src/RestartApp.cs:23-81 | true exactly when the space and app are found and the restart succeeds; still polling exactly when they are found, the stream opened and `MonitorApp` still polls; false on every other path |
| RestartProperties.ExecuteFound | src/CloudFoundry.Build.Tasks/src/RestartApp.cs:37-55 | once the space and app are found, `Execute` is the two lookups followed by the restart |
| RestartProperties.NamesGivenIgnoresTrim | src/CloudFoundry.Build.Tasks/src/RestartApp.cs:25-37 | the space is looked up exactly when neither raw name is blank; trimming never changes that |
| RestartProperties.FollowLogsOpened | src/CloudFoundry.Build.Tasks/src/RestartApp.cs:110-115 | with the stream open, the block is: construct, tail, `MonitorApp`'s run, then the exit of the block |
| RestartProperties.StreamOpenedFirst | src/CloudFoundry.Build.Tasks/src/RestartApp.cs:85-112 | the client is constructed first, then tailed once, and every command comes after both |
| RestartProperties.TailedOnce | src/CloudFoundry.Build.Tasks/src/RestartApp.cs:110-112 | with the stream open, the tail is the second step, happens once, and precedes every command |
| RestartProperties.StreamReleased | src/CloudFoundry.Build.Tasks/src/RestartApp.cs:85-115 | `StopLogStream` happens once exactly when `MonitorApp` returned normally. The client is disposed of once, last, whenever it was built and the block was left. Never when it was not built or while polling |
| RestartProperties.RestartStreamed | src/CloudFoundry.Build.Tasks/src/RestartApp.cs:55-67 | with the stream open, the restart is: log "Restarting", read the info, construct, tail, `MonitorApp`, leave the block, log any exception |
| RestartProperties.Unopened | src/CloudFoundry.Build.Tasks/src/RestartApp.cs:58-78 | when no stream opens, what follows the info read holds no command and ends in a logged error; it is just "Could not retrieve application logs" exactly when no endpoint is usable |
| RestartProperties.RestartUnstreamed | src/CloudFoundry.Build.Tasks/src/RestartApp.cs:55-78 | when no stream opens, the restart is the info read followed by `Unopened`, and it sends no command |
| RestartProperties.UnresolvedSendsNothing | src/CloudFoundry.Build.Tasks/src/RestartApp.cs:37-53 | until the app is found, `Execute` sends no command |
| RestartProperties.RestartTailedBeforeCommands | src/CloudFoundry.Build.Tasks/src/RestartApp.cs:58-112 | every command the restart sends is preceded by a tail |
| RestartProperties.RestartCommands | src/CloudFoundry.Build.Tasks/src/RestartApp.cs:62-115 | with the stream open, the restart sends each command exactly as often as `MonitorApp` does |
| RestartProperties.RestartStagingFailure | src/CloudFoundry.Build.Tasks/src/RestartApp.cs:74-115 | a staging failure leaves the block through disposal alone, is logged last, adds no `StopLogStream`, and the restart fails |
| RestartProperties.RestartReturnedNormally | src/CloudFoundry.Build.Tasks/src/RestartApp.cs:112-115 | after `MonitorApp` returns normally, running or cancelled, the restart calls `StopLogStream` exactly once, and succeeds exactly when that call does |
| RestartProperties.NoRestartUnlessStreamed | src/CloudFoundry.Build.Tasks/src/RestartApp.cs:37-112 | without a found app, a read info, a chosen backend and an open stream, `Execute` sends no stop or start command |
| RestartProperties.StreamTailedBeforeCommands | src/CloudFoundry.Build.Tasks/src/RestartApp.cs:110-112 | on every path of `Execute`, each command is preceded by a tail of the log stream |
| RestartProperties.CommandsAreMonitorApps | src/CloudFoundry.Build.Tasks/src/RestartApp.cs:155-166 | once the stream is open, `Execute` sends one stop exactly when the app was not STOPPED, and one start exactly when nothing faulted before it |
| RestartProperties.BlankNamesFail | src/CloudFoundry.Build.Tasks/src/RestartApp.cs:37-47 | a blank organization or space makes `Execute` log the failure and return false, having looked nothing up |
| RestartProperties.SpaceNotFoundFails | src/CloudFoundry.Build.Tasks/src/RestartApp.cs:39-44 | a space lookup that finds nothing returns false right after that lookup |
| RestartProperties.AppNotFoundFails | src/CloudFoundry.Build.Tasks/src/RestartApp.cs:47-53 | an app lookup that finds nothing logs "not found" and returns false right after the two lookups |
| RestartProperties.NoEndpointLeavesAppAlone | src/CloudFoundry.Build.Tasks/src/RestartApp.cs:69-72 | with no usable endpoint, `Execute` logs that no logs can be retrieved and returns true, with no tail and no command |
| RestartProperties.StagingFailureFails | src/CloudFoundry.Build.Tasks/src/RestartApp.cs:183-186 | a failed package at the first pass that ends the loop makes `Execute` return false. Its trace ends with disposal then the logged failure, and holds no `StopLogStream` |
| RestartProperties.ExecuteStagingFailure | src/CloudFoundry.Build.Tasks/src/RestartApp.cs:55-115 | once the app is found and the stream is opened, a staging failure thrown by `MonitorApp` without touching the stream makes `Execute` return false. Disposal and the logged failure come last, and no `StopLogStream` is issued |
| RestartProperties.ExecuteNormalReturn | src/CloudFoundry.Build.Tasks/src/RestartApp.cs:55-115 | once the app is found and the stream is opened, a normal return of `MonitorApp` that did not touch the stream makes `Execute` stop the stream exactly once. It then returns true exactly when stopping succeeds |
| RestartProperties.NormalReturnSucceeds | src/CloudFoundry.Build.Tasks/src/RestartApp.cs:110-115 | when the first pass that ends the loop sees a running instance or a cancellation, the stream is stopped exactly once, and `Execute` returns true exactly when stopping it succeeds |
| RestartProperties.RunningSucceeds | src/CloudFoundry.Build.Tasks/src/RestartApp.cs:110-115 | a running instance at the first pass that ends the loop: the stream is stopped exactly once, and `Execute` returns true exactly when stopping it succeeds |
| RestartProperties.CancelledSucceeds | src/CloudFoundry.Build.Tasks/src/RestartApp.cs:171-174 | after cancellation at the first pass that ends the loop, the stream is stopped exactly once, and `Execute` returns true exactly when stopping it succeeds |
| RestartProperties.BackendPriority | src/CloudFoundry.Build.Tasks/src/RestartApp.cs:60-72 | a usable Doppler endpoint wins whatever the Loggregator endpoint is; ("", "x") picks Loggregator, ("y", "x") picks Doppler, (" ", null) picks none |

## Left out

- Threads and I/O. The stream handlers run on the client's own thread. Here each handler is a pure function from an event to the line it logs, and its lines are not interleaved with the trace. Logging is an `Effect` or a `Line`, not text written anywhere.
- Formatting. The `DateTime` built from the milliseconds and its invariant-culture rendering are left out; the record keeps the millisecond count. `AddMilliseconds` cannot throw here: every `long` nanosecond count lands between the years 1677 and 2263.
- `Encoding.UTF8.GetString` is a function parameter; UTF-8 decoding itself is not modelled.
- `LoadAppFromManifest`, `InitClient`, `TaskLogger` and the internals of `Utils.GetSpaceGuid` / `Utils.GetAppGuid` are not part of this model. Their results are inputs: the app name, and the replies in `World`. Exceptions from `LoadAppFromManifest`, which runs outside the `try`, are left out.
- Null organization or space names. Both properties are `[Required]`, so `Trim` at lines 25-26 never sees null; a null would throw outside the `try`.
- Stream-client construction. A failure to build the endpoint `Uri` or the client is one `Fault` reply (`connect`). Disposal is assumed not to throw.
- The poll loop's clock and cancellation token. Each pass reads one `Tick`; `Thread.Sleep` is a `Sleep(3000)` effect and no time passes.
- The infinite loop. A finite tick sequence stands for it, and `Polling` / `StillPolling` report that the ticks ran out before the loop ended.
- Null summary fields are not values of their own. A summary holds a string state, an integer count and a string package state. A null `State` behaves as any state other than "STOPPED" (a stop is sent), a null `RunningInstances` as a count of 0 (the loop does not break), and a null or other `PackageState` as a state that gives no notice; the model represents each by that value.
- `char.IsWhiteSpace`. The model uses a fixed set of code points (Unicode White_Space). The general properties hold for any set; only the concrete endpoint pairs of `RestartProperties.BackendPriority` use that `' '` is white space and `'x'` and `'y'` are not.
- The text of the logged lines. Each notice and error is a constructor, not a formatted string.
- Monitor.PollLoop: its own contract bounds the fetches by the number of passes. Which effects the loop has is in `Monitor.PollLoopOnlyPolls`, and the exact counts of fetches, sleeps and notices are in `MonitorProperties.PollLoopFirstExit` and `MonitorProperties.PollLoopOutOfTicks`.
