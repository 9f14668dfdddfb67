/** What `Execute` does on each of its paths: the stream's lifetime around
    the commands, which paths restart the app, and what each returns. */
module RestartProperties {
  import opened Wrappers
  import opened Strings
  import opened LogStream
  import opened Controller
  import opened Monitor
  import opened MonitorProperties
  import opened RestartApp

  /** Every command is preceded by a `Tail`. */
  ghost predicate TailedBeforeCommands(effects: seq<Effect>) {
    forall i :: 0 <= i < |effects| && IsCommand(effects[i]) ==> exists j :: 0 <= j < i && effects[j].Tail?
  }

  predicate NoCommands(effects: seq<Effect>) {
    forall e :: e in effects ==> !IsCommand(e)
  }

  /** Every command after a command-free prefix lies beyond it. */
  lemma CommandsAfterPrefix(prefix: seq<Effect>, rest: seq<Effect>)
    requires NoCommands(prefix)
    ensures forall i :: 0 <= i < |prefix + rest| && IsCommand((prefix + rest)[i]) ==> |prefix| <= i
  {
    forall i | 0 <= i < |prefix|
      ensures !IsCommand((prefix + rest)[i])
    {
      assert (prefix + rest)[i] == prefix[i] && prefix[i] in prefix;
    }
  }

  /** A command-free prefix that ends in a `Tail` puts a `Tail` before every
      command that follows it. */
  lemma TailThenCommands(prefix: seq<Effect>, rest: seq<Effect>)
    requires NoCommands(prefix) && |prefix| > 0 && prefix[|prefix| - 1].Tail?
    ensures TailedBeforeCommands(prefix + rest)
  {
    CommandsAfterPrefix(prefix, rest);
    var r := prefix + rest;
    forall i | 0 <= i < |r| && IsCommand(r[i])
      ensures exists j :: 0 <= j < i && r[j].Tail?
    {
      assert r[|prefix| - 1].Tail?;
    }
  }

  /** The app lookups `Execute` makes before restarting a found app. */
  function Found(t: Task, w: World): seq<Effect>
    requires w.spaceGuid.Answer? && w.spaceGuid.value.Some?
  {
    [ResolveSpace(Trim(t.org), Trim(t.space)), ResolveApp(t.appName, w.spaceGuid.value.value)]
  }

  /** Once the app is found, `Execute` is the restart that follows. */
  lemma ExecuteFound(t: Task, w: World)
    requires Resolved(t, w)
    ensures Execute(t, w) == Restart(w.appGuid.value.value, w, MonitorApp(w.appGuid.value.value, w.replies), Found(t, w))
  {
    var looked := [ResolveSpace(Trim(t.org), Trim(t.space))];
    var found := looked + [ResolveApp(t.appName, w.spaceGuid.value.value)];
    assert found == Found(t, w);
    assert Execute(t, w) == Restart(w.appGuid.value.value, w, MonitorApp(w.appGuid.value.value, w.replies), found);
  }

  /** Trimming the organization and space never changes whether they are
      blank, so the space is looked up exactly when neither is blank. */
  lemma NamesGivenIgnoresTrim(t: Task)
    ensures NamesGiven(t) <==> !IsBlank(t.org) && !IsBlank(t.space)
  {
  }

  /** With the stream open, the `using` block is the tail, `MonitorApp`'s
      run, and the way the block is left. */
  lemma FollowLogsOpened(b: Backend, app: Guid, s: StreamReplies, m: Run)
    requires s.connect.Answer? && s.tail.Answer?
    ensures FollowLogs(b, app, s, m).effects == [Connect(b), Tail(b, app)] + (m.effects + Closing(b, m.end))
  {
  }

  /** The stream is opened first: the client is constructed, then tailed
      once, and only then can `MonitorApp` send a command. */
  lemma StreamOpenedFirst(b: Backend, app: Guid, s: StreamReplies, m: Run)
    requires StreamFree(m.effects)
    ensures var r := FollowLogs(b, app, s, m);
            && (s.connect.Fault? ==> r.effects == [Connect(b)])
            && (s.connect.Answer? ==> |r.effects| > 1 && r.effects[1] == Tail(b, app))
            && Occurrences(r.effects, Tail(b, app)) == (if s.connect.Answer? then 1 else 0)
            && forall i :: 0 <= i < |r.effects| && IsCommand(r.effects[i]) ==> 2 <= i
  {
    var r := FollowLogs(b, app, s, m);
    if s.connect.Fault? {
      assert r.effects == [Connect(b)];
      CommandsAfterPrefix(r.effects, []);
    } else if s.tail.Fault? {
      assert r.effects == [Connect(b), Tail(b, app), Dispose(b)];
      CommandsAfterPrefix(r.effects, []);
    } else {
      TailedOnce(b, app, s, m);
    }
  }

  /** With the stream open, the `using` block tails it once, at its second
      step, and sends commands only after that. */
  lemma TailedOnce(b: Backend, app: Guid, s: StreamReplies, m: Run)
    requires StreamFree(m.effects) && s.connect.Answer? && s.tail.Answer?
    ensures var r := FollowLogs(b, app, s, m).effects;
            && |r| > 1 && r[1] == Tail(b, app)
            && Occurrences(r, Tail(b, app)) == 1
            && forall i :: 0 <= i < |r| && IsCommand(r[i]) ==> 2 <= i
  {
    var rest := m.effects + Closing(b, m.end);
    FollowLogsOpened(b, app, s, m);
    assert Tail(b, app) !in m.effects;
    CountAppend(m.effects, Closing(b, m.end), Tail(b, app));
    CountAppend([Connect(b), Tail(b, app)], rest, Tail(b, app));
    CommandsAfterPrefix([Connect(b), Tail(b, app)], rest);
  }

  /** The stream is released on every path that leaves the `using` block:
      `StopLogStream` once exactly when `MonitorApp` returns normally, and
      the client disposed of once, last, whenever it was constructed. A
      `MonitorApp` that throws skips `StopLogStream`. */
  lemma StreamReleased(b: Backend, app: Guid, s: StreamReplies, m: Run)
    requires StreamFree(m.effects)
    ensures var r := FollowLogs(b, app, s, m);
            && Occurrences(r.effects, StopLogStream(b)) ==
                 (if s.connect.Answer? && s.tail.Answer? && EndedNormally(m.end) then 1 else 0)
            && (s.connect.Answer? && r.end != Polling ==>
                  Occurrences(r.effects, Dispose(b)) == 1 && r.effects[|r.effects| - 1] == Dispose(b))
            && (s.connect.Fault? || r.end == Polling ==> Occurrences(r.effects, Dispose(b)) == 0)
  {
    if s.connect.Answer? && s.tail.Answer? {
      var tailed := [Connect(b), Tail(b, app)] + m.effects;
      FollowLogsOpened(b, app, s, m);
      assert StopLogStream(b) !in m.effects && Dispose(b) !in m.effects;
      assert FollowLogs(b, app, s, m).effects == tailed + Closing(b, m.end);
      CountAppend([Connect(b), Tail(b, app)], m.effects, StopLogStream(b));
      CountAppend([Connect(b), Tail(b, app)], m.effects, Dispose(b));
      CountAppend(tailed, Closing(b, m.end), StopLogStream(b));
      CountAppend(tailed, Closing(b, m.end), Dispose(b));
    }
  }

  /** How many times `x` occurs in a trace made of four parts. */
  lemma CountParts(a: seq<Effect>, b: seq<Effect>, c: seq<Effect>, d: seq<Effect>, x: Effect)
    ensures Occurrences(a + b + c + d, x) == Occurrences(a, x) + Occurrences(b, x) + Occurrences(c, x) + Occurrences(d, x)
  {
    CountAppend(a, b, x);
    CountAppend(a + b, c, x);
    CountAppend(a + b + c, d, x);
  }

  /** What the restart does before `MonitorApp` once the stream opens. */
  function Opening(b: Backend, app: Guid): seq<Effect> {
    [Message(Restarting), GetInfo, Connect(b), Tail(b, app)]
  }

  /** What the restart does after `MonitorApp`: leave the `using` block and
      log any exception. */
  function Leaving(b: Backend, app: Guid, s: StreamReplies, m: Run): seq<Effect> {
    Closing(b, m.end) + Reported(FollowLogs(b, app, s, m).end)
  }

  /** Once the stream is open, the restart after `prior` has read the info,
      constructed and tailed the client, and then runs `MonitorApp` inside
      the `using` block. */
  lemma RestartStreamed(app: Guid, w: World, m: Run, prior: seq<Effect>)
    requires Streamed(w)
    ensures var b := SelectBackend(w.info.value).value;
            Restart(app, w, m, prior).effects == prior + Opening(b, app) + m.effects + Leaving(b, app, w.stream, m)
  {
    var b := SelectBackend(w.info.value).value;
    FollowLogsOpened(b, app, w.stream, m);
  }

  /** What the restart does after reading the info when it never opens
      the stream: it fails on the info, finds no usable endpoint, or fails
      to construct or tail the client. */
  function Unopened(app: Guid, w: World): (extra: seq<Effect>)
    requires !Streamed(w)
    ensures NoCommands(extra)
    ensures |extra| > 0 && extra[|extra| - 1].Error?
    ensures (w.info.Answer? && SelectBackend(w.info.value).None?) <==> extra == [Error(LogsUnavailable)]
  {
    if w.info.Fault? then [Error(RestartFailed(RemoteFault))]
    else match SelectBackend(w.info.value)
      case None => [Error(LogsUnavailable)]
      case Some(b) =>
        if w.stream.connect.Fault? then [Connect(b), Error(RestartFailed(RemoteFault))]
        else [Connect(b), Tail(b, app), Dispose(b), Error(RestartFailed(RemoteFault))]
  }

  /** Unless the stream is opened, the restart after `prior` is the info
      request followed by `Unopened`, so it sends no command. */
  lemma RestartUnstreamed(app: Guid, w: World, m: Run, prior: seq<Effect>)
    requires !Streamed(w)
    ensures Restart(app, w, m, prior).effects == prior + [Message(Restarting), GetInfo] + Unopened(app, w)
    ensures NoCommands(prior) ==> NoCommands(Restart(app, w, m, prior).effects)
  {
    var asked := prior + [Message(Restarting), GetInfo];
    if w.info.Answer? && SelectBackend(w.info.value).Some? {
      var b := SelectBackend(w.info.value).value;
      var f := FollowLogs(b, app, w.stream, m);
      assert f.effects + Reported(f.end) == Unopened(app, w);
    }
    if NoCommands(prior) {
      CommandsAfterPrefix(asked, Unopened(app, w));
    }
  }

  /** A command-free trace puts a `Tail` before every command, there
      being none. */
  lemma QuietIsTailed(effects: seq<Effect>)
    requires NoCommands(effects)
    ensures TailedBeforeCommands(effects)
  {
    forall i | 0 <= i < |effects|
      ensures !IsCommand(effects[i])
    {
      assert effects[i] in effects;
    }
  }

  /** Until the app is found, `Execute` sends no command. */
  lemma UnresolvedSendsNothing(t: Task, w: World)
    requires !Resolved(t, w)
    ensures NoCommands(Execute(t, w).effects)
  {
    var r := Execute(t, w).effects;
    if !NamesGiven(t) {
      assert r == [Error(RestartFailed(NoSpaceGuid))];
    } else {
      var looked := [ResolveSpace(Trim(t.org), Trim(t.space))];
      if w.spaceGuid.Fault? {
        assert r == looked + [Error(RestartFailed(RemoteFault))];
      } else if w.spaceGuid.value.None? {
        assert r == looked;
      } else {
        var found := looked + [ResolveApp(t.appName, w.spaceGuid.value.value)];
        if w.appGuid.Fault? {
          assert r == found + [Error(RestartFailed(RemoteFault))];
        } else {
          assert r == found + [Error(AppNotFound)];
        }
      }
    }
  }

  /** After a command-free `prior`, the restart puts a `Tail` before every
      command it sends. */
  lemma RestartTailedBeforeCommands(app: Guid, w: World, m: Run, prior: seq<Effect>)
    requires NoCommands(prior)
    ensures TailedBeforeCommands(Restart(app, w, m, prior).effects)
  {
    if Streamed(w) {
      var b := SelectBackend(w.info.value).value;
      RestartStreamed(app, w, m, prior);
      assert prior + Opening(b, app) + m.effects + Leaving(b, app, w.stream, m)
          == (prior + Opening(b, app)) + (m.effects + Leaving(b, app, w.stream, m));
      TailThenCommands(prior + Opening(b, app), m.effects + Leaving(b, app, w.stream, m));
    } else {
      RestartUnstreamed(app, w, m, prior);
      QuietIsTailed(Restart(app, w, m, prior).effects);
    }
  }

  /** With the stream open, the restart after a command-free `prior` sends
      exactly the commands `MonitorApp` sends. */
  lemma RestartCommands(app: Guid, w: World, m: Run, prior: seq<Effect>, x: Effect)
    requires NoCommands(prior) && Streamed(w) && IsCommand(x)
    ensures Occurrences(Restart(app, w, m, prior).effects, x) == Occurrences(m.effects, x)
  {
    var b := SelectBackend(w.info.value).value;
    RestartStreamed(app, w, m, prior);
    CountParts(prior, Opening(b, app), m.effects, Leaving(b, app, w.stream, m), x);
    assert x !in multiset(prior) && x !in multiset(Opening(b, app)) && x !in multiset(Leaving(b, app, w.stream, m));
  }

  /** With the stream open, a staging failure inside `MonitorApp` leaves
      the `using` block through disposal alone, and is then logged; the
      restart fails. */
  lemma RestartStagingFailure(app: Guid, w: World, m: Run, prior: seq<Effect>)
    requires Streamed(w) && StreamFree(m.effects) && m.end == Threw(StagingFailed)
    ensures var r := Restart(app, w, m, prior);
            var b := SelectBackend(w.info.value).value;
            && r.verdict == Returned(false)
            && |r.effects| >= 2
            && r.effects[|r.effects| - 1] == Error(RestartFailed(StagingFailed))
            && r.effects[|r.effects| - 2] == Dispose(b)
            && Occurrences(r.effects, StopLogStream(b)) == Occurrences(prior, StopLogStream(b))
  {
    var b := SelectBackend(w.info.value).value;
    RestartStreamed(app, w, m, prior);
    ThrownLeaving(b, app, w.stream, m, StagingFailed);
    CountParts(prior, Opening(b, app), m.effects, Leaving(b, app, w.stream, m), StopLogStream(b));
    assert StopLogStream(b) !in m.effects;
  }

  /** A `MonitorApp` that throws leaves the open block through disposal
      alone, and the exception is logged after it. */
  lemma ThrownLeaving(b: Backend, app: Guid, s: StreamReplies, m: Run, e: Exn)
    requires s.connect.Answer? && s.tail.Answer? && m.end == Threw(e)
    ensures Leaving(b, app, s, m) == [Dispose(b), Error(RestartFailed(e))]
  {
    assert FollowLogs(b, app, s, m).end == Threw(e);
  }

  /** With the stream open, a `MonitorApp` that returns normally, running
      or cancelled, makes the restart stop the stream once before disposing
      of it; the restart succeeds exactly when that stop succeeds. */
  lemma RestartReturnedNormally(app: Guid, w: World, m: Run, prior: seq<Effect>)
    requires Streamed(w) && StreamFree(m.effects) && EndedNormally(m.end)
    ensures var b := SelectBackend(w.info.value).value;
            var r := Restart(app, w, m, prior);
            && (r.verdict == Returned(true) <==> w.stream.stop.Answer?)
            && Occurrences(r.effects, StopLogStream(b)) == Occurrences(prior, StopLogStream(b)) + 1
  {
    var b := SelectBackend(w.info.value).value;
    RestartStreamed(app, w, m, prior);
    assert Leaving(b, app, w.stream, m) == [StopLogStream(b), Dispose(b)] + Reported(FollowLogs(b, app, w.stream, m).end);
    CountParts(prior, Opening(b, app), m.effects, Leaving(b, app, w.stream, m), StopLogStream(b));
    assert StopLogStream(b) !in m.effects;
  }

  /** Without a found app, a read info, a chosen backend and an open stream,
      `Execute` sends no stop or start command at all. */
  lemma NoRestartUnlessStreamed(t: Task, w: World)
    requires !(Resolved(t, w) && Streamed(w))
    ensures NoCommands(Execute(t, w).effects)
  {
    if Resolved(t, w) {
      ExecuteFound(t, w);
      RestartUnstreamed(w.appGuid.value.value, w, MonitorApp(w.appGuid.value.value, w.replies), Found(t, w));
    } else {
      UnresolvedSendsNothing(t, w);
    }
  }

  /** On every path, a command comes after the log stream was tailed, so
      the app's staging output can be seen from the first command on. */
  lemma StreamTailedBeforeCommands(t: Task, w: World)
    ensures TailedBeforeCommands(Execute(t, w).effects)
  {
    if Resolved(t, w) {
      ExecuteFound(t, w);
      RestartTailedBeforeCommands(w.appGuid.value.value, w, MonitorApp(w.appGuid.value.value, w.replies), Found(t, w));
    } else {
      UnresolvedSendsNothing(t, w);
      QuietIsTailed(Execute(t, w).effects);
    }
  }

  /** Once the stream is open, `Execute` sends exactly the commands
      `MonitorApp` sends: one stop unless the app was already stopped, and
      one start unless a remote call faulted before it. */
  lemma CommandsAreMonitorApps(t: Task, w: World)
    requires Resolved(t, w) && Streamed(w)
    ensures var app := w.appGuid.value.value;
            var r := Execute(t, w).effects;
            && Occurrences(r, UpdateApp(app, Stopped)) == (if StopNeeded(w.replies) then 1 else 0)
            && Occurrences(r, UpdateApp(app, Started)) == (if StartSent(w.replies) then 1 else 0)
  {
    var app := w.appGuid.value.value;
    ExecuteFound(t, w);
    RestartCommands(app, w, MonitorApp(app, w.replies), Found(t, w), UpdateApp(app, Stopped));
    RestartCommands(app, w, MonitorApp(app, w.replies), Found(t, w), UpdateApp(app, Started));
  }

  /** A blank organization or space leaves the space id null; reading it
      throws before anything is looked up, and `Execute` returns false. */
  lemma BlankNamesFail(t: Task, w: World)
    requires IsBlank(t.org) || IsBlank(t.space)
    ensures Execute(t, w) == Outcome([Error(RestartFailed(NoSpaceGuid))], Returned(false))
  {
  }

  /** A space lookup that finds nothing returns false straight away. */
  lemma SpaceNotFoundFails(t: Task, w: World)
    requires NamesGiven(t) && w.spaceGuid == Answer(None)
    ensures Execute(t, w) == Outcome([ResolveSpace(Trim(t.org), Trim(t.space))], Returned(false))
  {
  }

  /** An app lookup that finds nothing logs that the app was not found and
      returns false. */
  lemma AppNotFoundFails(t: Task, w: World)
    requires NamesGiven(t) && w.spaceGuid.Answer? && w.spaceGuid.value.Some? && w.appGuid == Answer(None)
    ensures Execute(t, w) == Outcome(Found(t, w) + [Error(AppNotFound)], Returned(false))
  {
    var looked := [ResolveSpace(Trim(t.org), Trim(t.space))];
    assert looked + [ResolveApp(t.appName, w.spaceGuid.value.value)] == Found(t, w);
  }

  /** With neither endpoint usable, `Execute` logs that no logs can be
      retrieved and returns true, having neither tailed a stream nor sent a
      command: the app is not restarted. */
  lemma NoEndpointLeavesAppAlone(t: Task, w: World)
    requires Resolved(t, w) && w.info.Answer?
    requires IsNullOrWhiteSpace(w.info.value.dopplerLoggingEndpoint)
    requires IsNullOrWhiteSpace(w.info.value.loggingEndpoint)
    ensures Execute(t, w) == Outcome(Found(t, w) + [Message(Restarting), GetInfo, Error(LogsUnavailable)], Returned(true))
  {
    ExecuteFound(t, w);
    RestartUnstreamed(w.appGuid.value.value, w, MonitorApp(w.appGuid.value.value, w.replies), Found(t, w));
  }

  /** The two lookups never stop a stream. */
  lemma FoundStopsNothing(t: Task, w: World, b: Backend)
    requires Resolved(t, w)
    ensures Occurrences(Found(t, w), StopLogStream(b)) == 0
  {
    assert StopLogStream(b) !in Found(t, w);
  }

  /** A staging failure propagates out of the `using` block: the stream is
      disposed of but `StopLogStream` is skipped, the failure is logged and
      `Execute` returns false. */
  lemma StagingFailureFails(t: Task, w: World, k: nat)
    requires Resolved(t, w) && Streamed(w)
    requires FirstExitAt(w.replies, k) && ExitOf(w.replies.ticks[k]) == Threw(StagingFailed)
    ensures var r := Execute(t, w);
            var b := SelectBackend(w.info.value).value;
            && r.verdict == Returned(false)
            && |r.effects| >= 2
            && r.effects[|r.effects| - 1] == Error(RestartFailed(StagingFailed))
            && r.effects[|r.effects| - 2] == Dispose(b)
            && Occurrences(r.effects, StopLogStream(b)) == 0
  {
    var app := w.appGuid.value.value;
    MonitorAppFirstExit(app, w.replies, k);
    MonitorTouchesNoStream(app, w.replies);
    ExecuteStagingFailure(t, w, MonitorApp(app, w.replies));
  }

  /** When `MonitorApp` throws the staging failure without touching the
      stream, `Execute` disposes of the stream, logs the failure and
      returns false, never stopping the stream. */
  lemma ExecuteStagingFailure(t: Task, w: World, m: Run)
    requires Resolved(t, w) && Streamed(w)
    requires m == MonitorApp(w.appGuid.value.value, w.replies)
    requires m.end == Threw(StagingFailed) && StreamFree(m.effects)
    ensures var r := Execute(t, w);
            var b := SelectBackend(w.info.value).value;
            && r.verdict == Returned(false)
            && |r.effects| >= 2
            && r.effects[|r.effects| - 1] == Error(RestartFailed(StagingFailed))
            && r.effects[|r.effects| - 2] == Dispose(b)
            && Occurrences(r.effects, StopLogStream(b)) == 0
  {
    var b := SelectBackend(w.info.value).value;
    FoundStopsNothing(t, w, b);
    RestartStagingFailure(w.appGuid.value.value, w, m, Found(t, w));
    ExecuteFound(t, w);
  }

  /** When the first pass that ends the loop lets `MonitorApp` return
      normally, the stream is stopped exactly once, and `Execute` returns
      true exactly when stopping it succeeds. */
  lemma NormalReturnSucceeds(t: Task, w: World, k: nat)
    requires Resolved(t, w) && Streamed(w)
    requires FirstExitAt(w.replies, k) && EndedNormally(ExitOf(w.replies.ticks[k]))
    ensures var r := Execute(t, w);
            var b := SelectBackend(w.info.value).value;
            && (r.verdict == Returned(true) <==> w.stream.stop.Answer?)
            && Occurrences(r.effects, StopLogStream(b)) == 1
  {
    var app := w.appGuid.value.value;
    MonitorAppFirstExit(app, w.replies, k);
    MonitorTouchesNoStream(app, w.replies);
    ExecuteNormalReturn(t, w, MonitorApp(app, w.replies));
  }

  /** When `MonitorApp` returns normally without touching the stream,
      `Execute` stops the stream exactly once and returns true exactly when
      that succeeds. */
  lemma ExecuteNormalReturn(t: Task, w: World, m: Run)
    requires Resolved(t, w) && Streamed(w)
    requires m == MonitorApp(w.appGuid.value.value, w.replies)
    requires EndedNormally(m.end) && StreamFree(m.effects)
    ensures var r := Execute(t, w);
            var b := SelectBackend(w.info.value).value;
            && (r.verdict == Returned(true) <==> w.stream.stop.Answer?)
            && Occurrences(r.effects, StopLogStream(b)) == 1
  {
    var b := SelectBackend(w.info.value).value;
    FoundStopsNothing(t, w, b);
    RestartReturnedNormally(w.appGuid.value.value, w, m, Found(t, w));
    ExecuteFound(t, w);
  }

  /** A summary with a running instance ends the restart cleanly. */
  lemma RunningSucceeds(t: Task, w: World, k: nat)
    requires Resolved(t, w) && Streamed(w)
    requires FirstExitAt(w.replies, k) && ExitOf(w.replies.ticks[k]) == Running
    ensures var r := Execute(t, w);
            var b := SelectBackend(w.info.value).value;
            && (r.verdict == Returned(true) <==> w.stream.stop.Answer?)
            && Occurrences(r.effects, StopLogStream(b)) == 1
  {
    NormalReturnSucceeds(t, w, k);
  }

  /** A cancelled poll is a clean early return: the stream is stopped once
      and disposed of, and `Execute` returns true exactly when stopping it
      succeeds. */
  lemma CancelledSucceeds(t: Task, w: World, k: nat)
    requires Resolved(t, w) && Streamed(w)
    requires FirstExitAt(w.replies, k) && w.replies.ticks[k].cancelled
    ensures var r := Execute(t, w);
            var b := SelectBackend(w.info.value).value;
            && (r.verdict == Returned(true) <==> w.stream.stop.Answer?)
            && Occurrences(r.effects, StopLogStream(b)) == 1
  {
    NormalReturnSucceeds(t, w, k);
  }

  /** Doppler wins whenever its endpoint is usable, whatever the Loggregator
      endpoint is. Three concrete endpoint pairs follow; they rely on `' '`
      being white space and on `'x'` and `'y'` not being white space. */
  lemma BackendPriority(doppler: Option<string>, logging1: Option<string>, logging2: Option<string>)
    requires !IsNullOrWhiteSpace(doppler)
    ensures SelectBackend(Info(doppler, logging1)) == SelectBackend(Info(doppler, logging2)) == Some(Doppler)
    ensures SelectBackend(Info(Some(""), Some("x"))) == Some(Loggregator)
    ensures SelectBackend(Info(Some("y"), Some("x"))) == Some(Doppler)
    ensures SelectBackend(Info(Some(" "), None)) == None
  {
    assert "x"[0] == 'x' && !IsWhiteSpace('x');
    assert "y"[0] == 'y' && !IsWhiteSpace('y');
    assert " "[0] == ' ' && IsWhiteSpace(' ');
  }
}
