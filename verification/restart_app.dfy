/** `RestartApp.Execute` and the two `GetLogsUsing…` methods: resolve the
    space and the app, pick a log backend, and, inside the backend's `using`
    block, tail the log stream around `MonitorApp`. Any exception inside the
    `try` is logged and turned into `false`. */
module RestartApp {
  import opened Wrappers
  import opened Strings
  import opened LogStream
  import opened Controller
  import opened Monitor

  /** The task's inputs: the organization and space (both required, so never
      null) and the app name the manifest gives. */
  datatype Task = Task(org: string, space: string, appName: string)

  /** What the stream client's constructor, `Tail` and `StopLogStream` do. */
  datatype StreamReplies = StreamReplies(connect: Remote<()>, tail: Remote<()>, stop: Remote<()>)

  /** The replies of everything the task calls out to. */
  datatype World = World(
    spaceGuid: Remote<Option<Guid>>,  // Utils.GetSpaceGuid
    appGuid: Remote<Option<Guid>>,    // Utils.GetAppGuid
    info: Remote<Info>,               // client.Info.GetInfo
    stream: StreamReplies,
    replies: Replies)                 // what MonitorApp sees

  /** `Execute` returned `ok`, or it was still polling when the ticks ran out. */
  datatype Verdict = Returned(ok: bool) | StillPolling

  datatype Outcome = Outcome(effects: seq<Effect>, verdict: Verdict)

  /** Doppler whenever its endpoint is usable, whatever the Loggregator
      endpoint says; otherwise Loggregator if its endpoint is usable;
      otherwise no stream at all. */
  function SelectBackend(info: Info): (b: Option<Backend>)
    ensures b == Some(Doppler) <==> !IsNullOrWhiteSpace(info.dopplerLoggingEndpoint)
    ensures b == Some(Loggregator) <==>
              IsNullOrWhiteSpace(info.dopplerLoggingEndpoint) && !IsNullOrWhiteSpace(info.loggingEndpoint)
    ensures b == None <==>
              IsNullOrWhiteSpace(info.dopplerLoggingEndpoint) && IsNullOrWhiteSpace(info.loggingEndpoint)
  {
    if !IsNullOrWhiteSpace(info.dopplerLoggingEndpoint) then Some(Doppler)
    else if !IsNullOrWhiteSpace(info.loggingEndpoint) then Some(Loggregator)
    else None
  }

  /** `MonitorApp` returned normally rather than throwing or still polling. */
  predicate EndedNormally(e: End) {
    e == Running || e == Cancelled
  }

  /** The effects of `MonitorApp` never involve the stream client. */
  predicate StreamFree(effects: seq<Effect>) {
    forall e :: e in effects ==> !e.Connect? && !e.Tail? && !e.StopLogStream? && !e.Dispose?
  }

  /** `GetLogsUsingDoppler` / `GetLogsUsingLoggregator`, which differ only in
      the client they construct; `m` is what `MonitorApp` does once called.
      The stream is tailed before `MonitorApp` runs; `StopLogStream` is
      called when `MonitorApp` returns normally; once the client exists,
      leaving the `using` block disposes of it. Only a normal return from
      `MonitorApp` followed by a clean stop returns normally. */
  function FollowLogs(b: Backend, app: Guid, s: StreamReplies, m: Run): (r: Run)
    ensures |r.effects| > 0 && r.effects[0] == Connect(b)
    ensures r.end == Polling <==> s.connect.Answer? && s.tail.Answer? && m.end == Polling
    ensures EndedNormally(r.end) <==> s.connect.Answer? && s.tail.Answer? && EndedNormally(m.end) && s.stop.Answer?
  {
    if s.connect.Fault? then
      Run([Connect(b)], Threw(RemoteFault))
    else if s.tail.Fault? then
      Run([Connect(b), Tail(b, app), Dispose(b)], Threw(RemoteFault))
    else
      Run([Connect(b), Tail(b, app)] + m.effects + Closing(b, m.end),
          if EndedNormally(m.end) && s.stop.Fault? then Threw(RemoteFault) else m.end)
  }

  /** How the `using` block is left once `MonitorApp` has ended as `e`:
      `StopLogStream` then disposal after a normal return, disposal alone
      after an exception, and nothing yet while it is still polling. */
  function Closing(b: Backend, e: End): (r: seq<Effect>)
    ensures Occurrences(r, StopLogStream(b)) == (if EndedNormally(e) then 1 else 0)
    ensures Occurrences(r, Dispose(b)) == (if e == Polling then 0 else 1)
    ensures e != Polling ==> |r| > 0 && r[|r| - 1] == Dispose(b)
    ensures forall x :: x in r ==> !IsCommand(x) && !x.Tail?
  {
    match e
    case Polling => []
    case Threw(_) => [Dispose(b)]
    case _ => [StopLogStream(b), Dispose(b)]
  }

  /** `MonitorApp` never calls the stream client. */
  lemma MonitorTouchesNoStream(app: Guid, c: Replies)
    ensures StreamFree(MonitorApp(app, c).effects)
  {
    var p := Prelude(app, c);
    PreludeStreamFree(app, c);
    if StartSent(c) && c.start.Answer? {
      var loop := PollLoop(app, c.ticks).effects;
      LoopStreamFree(app, c.ticks);
      StreamFreeAppend(p, loop);
      assert MonitorApp(app, c).effects == p + loop;
    }
  }

  /** Before the loop, `MonitorApp` only fetches and sends commands. */
  lemma PreludeStreamFree(app: Guid, c: Replies)
    ensures StreamFree(Prelude(app, c))
  {
    var p := Prelude(app, c);
    forall e | e in p
      ensures !e.Connect? && !e.Tail? && !e.StopLogStream? && !e.Dispose?
    {
      var i :| 0 <= i < |p| && p[i] == e;
    }
  }

  /** The poll loop never calls the stream client. */
  lemma LoopStreamFree(app: Guid, ticks: seq<Tick>)
    ensures StreamFree(PollLoop(app, ticks).effects)
  {
    var loop := PollLoop(app, ticks).effects;
    PollLoopOnlyPolls(app, ticks);
    forall e | e in loop
      ensures !e.Connect? && !e.Tail? && !e.StopLogStream? && !e.Dispose?
    {
      assert IsPollEffect(app, e);
    }
  }

  /** Two traces that leave the stream alone still do when joined. */
  lemma StreamFreeAppend(a: seq<Effect>, b: seq<Effect>)
    requires StreamFree(a) && StreamFree(b)
    ensures StreamFree(a + b)
  {
    forall e | e in a + b
      ensures !e.Connect? && !e.Tail? && !e.StopLogStream? && !e.Dispose?
    {
      assert e in a || e in b;
    }
  }

  /** The organization and space, trimmed as `Execute` does before anything
      else; both must be non-blank for the space to be looked up. */
  predicate NamesGiven(t: Task) {
    !IsNullOrWhiteSpace(Some(Trim(t.space))) && !IsNullOrWhiteSpace(Some(Trim(t.org)))
  }

  /** The space and the app were found. */
  predicate Resolved(t: Task, w: World) {
    && NamesGiven(t)
    && w.spaceGuid.Answer? && w.spaceGuid.value.Some?
    && w.appGuid.Answer? && w.appGuid.value.Some?
  }

  /** The controller info was read, a backend was chosen and the stream was
      opened, so `MonitorApp` ran. */
  predicate Streamed(w: World) {
    && w.info.Answer?
    && SelectBackend(w.info.value).Some?
    && w.stream.connect.Answer?
    && w.stream.tail.Answer?
  }

  /** After the app is found: the info was read, and either there is no
      usable endpoint, or `MonitorApp`, having ended as `e`, returned
      normally and the stream stopped cleanly. */
  predicate RestartSucceeds(w: World, e: End) {
    && w.info.Answer?
    && (|| SelectBackend(w.info.value).None?
        || (&& Streamed(w)
            && EndedNormally(e)
            && w.stream.stop.Answer?))
  }

  function Fail(effects: seq<Effect>, e: Exn): Outcome {
    Outcome(effects + [Error(RestartFailed(e))], Returned(false))
  }

  /** The part of `Execute` after the app is found: read the info, pick the
      backend and follow the logs around `MonitorApp`, whose run is `m`,
      after `prior`. */
  function Restart(app: Guid, w: World, m: Run, prior: seq<Effect>): (r: Outcome)
    ensures r.verdict == Returned(true) <==> RestartSucceeds(w, m.end)
    ensures r.verdict == StillPolling <==> Streamed(w) && m.end == Polling
  {
    var asked := prior + [Message(Restarting), GetInfo];
    match w.info
    case Fault => Fail(asked, RemoteFault)
    case Answer(info) =>
      match SelectBackend(info)
      case None => Outcome(asked + [Error(LogsUnavailable)], Returned(true))
      case Some(b) =>
        var f := FollowLogs(b, app, w.stream, m);
        Outcome(asked + f.effects + Reported(f.end), VerdictOf(f.end))
  }

  /** The `catch` block: an exception is logged as the restart failing. */
  function Reported(e: End): seq<Effect> {
    if e.Threw? then [Error(RestartFailed(e.e))] else []
  }

  /** What `Execute` returns once the `using` block ends as `e`. */
  function VerdictOf(e: End): Verdict {
    match e
    case Polling => StillPolling
    case Threw(_) => Returned(false)
    case _ => Returned(true)
  }

  /** `Execute`. It returns true exactly when the space and the app are
      found and the restart succeeds: when there is no usable log endpoint
      (the app is then left alone), and when `MonitorApp` returns normally,
      be it running or cancelled, and the stream stops cleanly. It is still
      polling only while `MonitorApp` is; every other path returns false. */
  function Execute(t: Task, w: World): (r: Outcome)
    ensures r.verdict == Returned(true) <==>
              Resolved(t, w) && RestartSucceeds(w, MonitorApp(w.appGuid.value.value, w.replies).end)
    ensures r.verdict == StillPolling <==>
              Resolved(t, w) && Streamed(w) && MonitorApp(w.appGuid.value.value, w.replies).end == Polling
  {
    if !NamesGiven(t) then
      // `spaceGuid` stays null and `spaceGuid.Value` throws.
      Fail([], NoSpaceGuid)
    else
      var looked := [ResolveSpace(Trim(t.org), Trim(t.space))];
      match w.spaceGuid
      case Fault => Fail(looked, RemoteFault)
      case Answer(None) => Outcome(looked, Returned(false))
      case Answer(Some(spaceGuid)) =>
        var found := looked + [ResolveApp(t.appName, spaceGuid)];
        match w.appGuid
        case Fault => Fail(found, RemoteFault)
        case Answer(None) => Outcome(found + [Error(AppNotFound)], Returned(false))
        case Answer(Some(app)) => Restart(app, w, MonitorApp(app, w.replies), found)
  }
}
