/** `RestartApp.MonitorApp`: stop the app unless it is already stopped,
    start it, then poll its summary until it has a running instance, staging
    fails, or cancellation is requested. The loop in the task never ends by
    itself; here it runs over a finite sequence of ticks, one per pass, and
    reports `Polling` when the ticks run out first. */
module Monitor {
  import opened Wrappers
  import opened Strings
  import opened Controller

  /** The pause at the bottom of every pass that goes round again. */
  const PollIntervalMs: nat := 3000

  /** One pass of the loop: whether cancellation is requested at its top,
      and the summary reply the pass gets if it goes on to fetch one. */
  datatype Tick = Tick(cancelled: bool, reply: Remote<Summary>)

  /** What one pass decides. */
  datatype Decision =
    | ExitCancelled
    | ExitRunning
    | Raise(e: Exn)
    | Continue(notice: Option<Notice>)

  /** How a run of the loop, or of all of `MonitorApp`, ended. */
  datatype End = Running | Cancelled | Threw(e: Exn) | Polling

  datatype Run = Run(effects: seq<Effect>, end: End)

  /** The replies `MonitorApp` gets: the first summary, the acknowledgements
      of the stop and start commands, and the loop's ticks. */
  datatype Replies = Replies(initial: Remote<Summary>, stop: Remote<()>, start: Remote<()>, ticks: seq<Tick>)

  /** A pass goes round again exactly when it is not cancelled, its fetch
      answers, nothing runs yet and staging has not failed. */
  predicate Continues(t: Tick) {
    && !t.cancelled
    && t.reply.Answer?
    && t.reply.value.runningInstances <= 0
    && t.reply.value.packageState != Failed
  }

  /** A pass that goes round again and logs a progress notice. */
  predicate IsStagingPoll(t: Tick) {
    Continues(t) && (t.reply.value.packageState == Pending || t.reply.value.packageState == Staged)
  }

  /** How the loop ends at a pass that does not go round again:
      cancellation is looked at before anything is fetched, a faulted fetch
      throws, and a running instance wins over a failed package. */
  function ExitOf(t: Tick): (e: End)
    requires !Continues(t)
    ensures e != Polling
    ensures t.cancelled ==> e == Cancelled
    ensures !t.cancelled && t.reply.Fault? ==> e == Threw(RemoteFault)
    ensures !t.cancelled && t.reply.Answer? && t.reply.value.runningInstances > 0 ==> e == Running
    ensures e == Threw(StagingFailed) <==>
              && !t.cancelled && t.reply.Answer?
              && t.reply.value.runningInstances <= 0 && t.reply.value.packageState == Failed
  {
    if t.cancelled then Cancelled
    else if t.reply.Fault? then Threw(RemoteFault)
    else if t.reply.value.runningInstances > 0 then Running
    else Threw(StagingFailed)
  }

  /** The progress notice of a pass that goes round again: one for a
      pending package, another for a staged one, and none otherwise. */
  function NoticeOf(t: Tick): (n: Option<Notice>)
    requires t.reply.Answer?
    ensures n == Some(AppStaging) <==> t.reply.value.packageState == Pending
    ensures n == Some(AppStagedWaiting) <==> t.reply.value.packageState == Staged
    ensures n.Some? <==> t.reply.value.packageState == Pending || t.reply.value.packageState == Staged
  {
    var state := t.reply.value.packageState;
    if state == Pending then Some(AppStaging)
    else if state == Staged then Some(AppStagedWaiting)
    else None
  }

  /** The decision of one pass: go round again, with a notice on a pending
      or staged package, or leave the loop as `ExitOf` says. */
  function Step(t: Tick): (d: Decision)
    ensures d.Continue? <==> Continues(t)
    ensures d == ExitCancelled <==> t.cancelled
    ensures d == ExitRunning <==> !t.cancelled && t.reply.Answer? && t.reply.value.runningInstances > 0
    ensures d == Raise(RemoteFault) <==> !t.cancelled && t.reply.Fault?
    ensures d == Raise(StagingFailed) <==>
              && !t.cancelled && t.reply.Answer?
              && t.reply.value.runningInstances <= 0 && t.reply.value.packageState == Failed
    ensures d == Continue(Some(AppStaging)) <==> Continues(t) && t.reply.value.packageState == Pending
    ensures d == Continue(Some(AppStagedWaiting)) <==> Continues(t) && t.reply.value.packageState == Staged
    ensures d.Continue? && d.notice.Some? <==> IsStagingPoll(t)
  {
    if Continues(t) then
      Continue(NoticeOf(t))
    else
      var e := ExitOf(t);
      if e.Threw? then Raise(e.e)
      else if e == Running then ExitRunning
      else ExitCancelled
  }

  function Say(n: Option<Notice>): seq<Effect> {
    if n.Some? then [Message(n.value)] else []
  }

  /** What the poll loop may do: fetch the app's summary, sleep, or log one
      of the two progress notices. */
  predicate IsPollEffect(app: Guid, e: Effect) {
    || e == GetSummary(app) || e == Sleep(PollIntervalMs)
    || e == Message(AppStaging) || e == Message(AppStagedWaiting)
  }

  /** The poll loop. It fetches at most once per pass, and it is still
      polling only if every pass went round again. */
  function PollLoop(app: Guid, ticks: seq<Tick>): (r: Run)
    ensures Occurrences(r.effects, GetSummary(app)) <= |ticks|
    ensures r.end == Polling <==> forall i :: 0 <= i < |ticks| ==> Continues(ticks[i])
    decreases |ticks|
  {
    if |ticks| == 0 then Run([], Polling)
    else
      var t := ticks[0];
      if !Continues(t) then
        Run(if t.cancelled then [] else [GetSummary(app)], ExitOf(t))
      else
        var rest := PollLoop(app, ticks[1..]);
        var pass := [GetSummary(app)] + Say(NoticeOf(t)) + [Sleep(PollIntervalMs)];
        assert forall i :: 1 <= i < |ticks| ==> ticks[i] == ticks[1..][i - 1];
        assert Occurrences(pass, GetSummary(app)) == 1 by {
          CountAppend([GetSummary(app)] + Say(NoticeOf(t)), [Sleep(PollIntervalMs)], GetSummary(app));
          CountAppend([GetSummary(app)], Say(NoticeOf(t)), GetSummary(app));
        }
        CountAppend(pass, rest.effects, GetSummary(app));
        Run(pass + rest.effects, rest.end)
  }

  /** The poll loop issues no command and touches no stream: it only
      fetches the app's summary, sleeps and logs the two progress notices. */
  lemma {:induction false} PollLoopOnlyPolls(app: Guid, ticks: seq<Tick>)
    ensures forall e :: e in PollLoop(app, ticks).effects ==> IsPollEffect(app, e)
    decreases |ticks|
  {
    if |ticks| > 0 && Continues(ticks[0]) {
      var t := ticks[0];
      PollLoopOnlyPolls(app, ticks[1..]);
      var pass := [GetSummary(app)] + Say(NoticeOf(t)) + [Sleep(PollIntervalMs)];
      assert PollLoop(app, ticks).effects == pass + PollLoop(app, ticks[1..]).effects;
    }
  }

  /** The first summary gets a stop command unless it says the app is
      stopped; the start command follows whenever nothing before it faulted. */
  predicate StopNeeded(c: Replies) {
    c.initial.Answer? && c.initial.value.state != Stopped
  }

  predicate StartSent(c: Replies) {
    c.initial.Answer? && (c.initial.value.state == Stopped || c.stop.Answer?)
  }

  /** Nothing but the first fetch precedes a command. */
  ghost predicate CommandsFirst(effects: seq<Effect>) {
    forall i, j :: 0 <= i < j < |effects| && IsCommand(effects[j]) ==> i == 0 || IsCommand(effects[i])
  }

  /** No start command precedes a stop command. */
  ghost predicate StopBeforeStart(effects: seq<Effect>, app: Guid) {
    forall i, j ::
      && 0 <= i < |effects| && 0 <= j < |effects|
      && effects[i] == UpdateApp(app, Stopped) && effects[j] == UpdateApp(app, Started)
      ==> i < j
  }

  /** The part of `MonitorApp` before the loop: the first fetch, then the
      commands it gets as far as issuing. */
  function Prelude(app: Guid, c: Replies): (p: seq<Effect>)
    ensures |p| > 0 && p[0] == GetSummary(app)
    ensures forall i :: 1 <= i < |p| ==> IsCommand(p[i])
    ensures Occurrences(p, UpdateApp(app, Stopped)) == (if StopNeeded(c) then 1 else 0)
    ensures Occurrences(p, UpdateApp(app, Started)) == (if StartSent(c) then 1 else 0)
    ensures forall e :: e in p && IsCommand(e) ==> e == UpdateApp(app, Stopped) || e == UpdateApp(app, Started)
    ensures StopBeforeStart(p, app)
  {
    var fetch := [GetSummary(app)];
    var stop := if StopNeeded(c) then [UpdateApp(app, Stopped)] else [];
    var start := if StartSent(c) then [UpdateApp(app, Started)] else [];
    fetch + stop + start
  }

  /** `MonitorApp`. One stop command exactly when the first summary says the
      app is not stopped, one start command exactly when nothing faulted
      before it, and no other command. Once the start is acknowledged, the
      rest of the run and the way it ends are the poll loop's over the
      ticks. */
  function MonitorApp(app: Guid, c: Replies): (r: Run)
    ensures |r.effects| > 0 && r.effects[0] == GetSummary(app)
    ensures Occurrences(r.effects, UpdateApp(app, Stopped)) == (if StopNeeded(c) then 1 else 0)
    ensures Occurrences(r.effects, UpdateApp(app, Started)) == (if StartSent(c) then 1 else 0)
    ensures forall e :: e in r.effects && IsCommand(e) ==> e == UpdateApp(app, Stopped) || e == UpdateApp(app, Started)
    ensures !StartSent(c) || c.start.Fault? ==> r.end == Threw(RemoteFault)
    ensures StartSent(c) && c.start.Answer? ==>
              r == Run(Prelude(app, c) + PollLoop(app, c.ticks).effects, PollLoop(app, c.ticks).end)
  {
    var p := Prelude(app, c);
    if !StartSent(c) || c.start.Fault? then
      Run(p, Threw(RemoteFault))
    else
      var loop := PollLoop(app, c.ticks);
      PollLoopOnlyPolls(app, c.ticks);
      AppendLoop(app, p, loop.effects);
      Run(p + loop.effects, loop.end)
  }

  /** The stop command comes before the start command, and both before
      anything the poll loop does. */
  lemma MonitorAppOrder(app: Guid, c: Replies)
    ensures StopBeforeStart(MonitorApp(app, c).effects, app)
    ensures CommandsFirst(MonitorApp(app, c).effects)
  {
    var p := Prelude(app, c);
    if StartSent(c) && c.start.Answer? {
      var loop := PollLoop(app, c.ticks);
      PollLoopOnlyPolls(app, c.ticks);
      AppendLoop(app, p, loop.effects);
      assert MonitorApp(app, c).effects == p + loop.effects;
    }
  }

  /** Appending the loop's effects to the prelude keeps every ordering fact
      about commands, since the loop issues none. */
  lemma AppendLoop(app: Guid, p: seq<Effect>, loop: seq<Effect>)
    requires |p| > 0 && forall i :: 1 <= i < |p| ==> IsCommand(p[i])
    requires StopBeforeStart(p, app)
    requires forall e :: e in loop ==> !IsCommand(e)
    ensures StopBeforeStart(p + loop, app)
    ensures CommandsFirst(p + loop)
    ensures forall e :: IsCommand(e) ==> Occurrences(p + loop, e) == Occurrences(p, e)
  {
    forall e | IsCommand(e)
      ensures Occurrences(p + loop, e) == Occurrences(p, e)
    {
      assert e !in multiset(loop);
    }
    var effects := p + loop;
    forall k | |p| <= k < |effects|
      ensures !IsCommand(effects[k])
    {
      assert effects[k] == loop[k - |p|];
    }
  }
}
