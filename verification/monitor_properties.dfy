/** What a trace of summaries leads to: how the poll loop ends, how often
    it fetches, sleeps and logs a notice, and the restart scenarios the
    task is expected to handle. */
module MonitorProperties {
  import opened Strings
  import opened Controller
  import opened Monitor

  /** How many passes of `ticks` go round again with a progress notice. */
  function StagingPolls(ticks: seq<Tick>): nat
    decreases |ticks|
  {
    if |ticks| == 0 then 0
    else (if IsStagingPoll(ticks[0]) then 1 else 0) + StagingPolls(ticks[1..])
  }

  /** One pass that goes round again: it fetches, logs a notice exactly when
      the package is pending or staged, sleeps, and leaves the rest to the
      remaining passes. */
  lemma UnfoldContinue(app: Guid, ticks: seq<Tick>)
    requires |ticks| > 0 && Continues(ticks[0])
    ensures var r, rest := PollLoop(app, ticks), PollLoop(app, ticks[1..]);
            && r.end == rest.end
            && Occurrences(r.effects, GetSummary(app)) == 1 + Occurrences(rest.effects, GetSummary(app))
            && Occurrences(r.effects, Sleep(PollIntervalMs)) == 1 + Occurrences(rest.effects, Sleep(PollIntervalMs))
            && StagingNotices(r.effects) == (if IsStagingPoll(ticks[0]) then 1 else 0) + StagingNotices(rest.effects)
  {
    var rest := PollLoop(app, ticks[1..]);
    var head := PassEffects(app, ticks[0]);
    assert PollLoop(app, ticks) == Run(head + rest.effects, rest.end);
    PassCounts(app, ticks[0]);
    CountAppend(head, rest.effects, GetSummary(app));
    CountAppend(head, rest.effects, Sleep(PollIntervalMs));
    CountAppend(head, rest.effects, Message(AppStaging));
    CountAppend(head, rest.effects, Message(AppStagedWaiting));
  }

  /** What one pass that goes round again does before the next pass. */
  function PassEffects(app: Guid, t: Tick): seq<Effect>
    requires Continues(t)
  {
    [GetSummary(app)] + Say(NoticeOf(t)) + [Sleep(PollIntervalMs)]
  }

  /** Such a pass fetches once, sleeps once and logs a progress notice
      exactly when the package is pending or staged. */
  lemma PassCounts(app: Guid, t: Tick)
    requires Continues(t)
    ensures Occurrences(PassEffects(app, t), GetSummary(app)) == 1
    ensures Occurrences(PassEffects(app, t), Sleep(PollIntervalMs)) == 1
    ensures StagingNotices(PassEffects(app, t)) == (if IsStagingPoll(t) then 1 else 0)
  {
    var n := NoticeOf(t);
    assert PassEffects(app, t) == [GetSummary(app)] + Say(n) + [Sleep(PollIntervalMs)];
  }

  /** A pass that does not go round again ends the loop as `ExitOf` says,
      after one fetch, or none if it was cancelled, and no notice or sleep. */
  lemma UnfoldExit(app: Guid, ticks: seq<Tick>)
    requires |ticks| > 0 && !Continues(ticks[0])
    ensures var r := PollLoop(app, ticks);
            && r.end == ExitOf(ticks[0])
            && r.effects == (if ticks[0].cancelled then [] else [GetSummary(app)])
  {
  }

  /** The loop ends at the first pass that does not go round again, and
      the way it ends is decided by that pass alone. Until then it fetches
      once, sleeps once and logs one notice per PENDING or STAGED summary;
      the last pass fetches unless it was cancelled, and logs nothing. */
  lemma {:induction false} PollLoopFirstExit(app: Guid, ticks: seq<Tick>, k: nat)
    requires k < |ticks|
    requires forall i :: 0 <= i < k ==> Continues(ticks[i])
    requires !Continues(ticks[k])
    ensures PollLoop(app, ticks).end == ExitOf(ticks[k])
    ensures Occurrences(PollLoop(app, ticks).effects, GetSummary(app)) == k + (if ticks[k].cancelled then 0 else 1)
    ensures Occurrences(PollLoop(app, ticks).effects, Sleep(PollIntervalMs)) == k
    ensures StagingNotices(PollLoop(app, ticks).effects) == StagingPolls(ticks[..k])
    decreases k
  {
    if k == 0 {
      UnfoldExit(app, ticks);
      assert ticks[..0] == [];
    } else {
      var rest := ticks[1..];
      ContinuesShift(ticks, k);
      assert rest[k - 1] == ticks[k];
      PollLoopFirstExit(app, rest, k - 1);
      UnfoldContinue(app, ticks);
      StagingPollsCons(ticks, k);
    }
  }

  /** Dropping the first pass shifts which passes go round again. */
  lemma ContinuesShift(ticks: seq<Tick>, k: nat)
    requires 0 < k <= |ticks|
    requires forall i :: 0 <= i < k ==> Continues(ticks[i])
    ensures forall i :: 0 <= i < k - 1 ==> Continues(ticks[1..][i])
  {
    forall i | 0 <= i < k - 1
      ensures Continues(ticks[1..][i])
    {
      assert ticks[1..][i] == ticks[i + 1];
    }
  }

  /** The staging passes among the first `k` are the first pass, if it is
      one, and those among the next `k - 1`. */
  lemma StagingPollsCons(ticks: seq<Tick>, k: nat)
    requires 0 < k <= |ticks|
    ensures StagingPolls(ticks[..k]) == (if IsStagingPoll(ticks[0]) then 1 else 0) + StagingPolls(ticks[1..][..k - 1])
  {
    assert ticks[..k][0] == ticks[0];
    assert ticks[..k][1..] == ticks[1..][..k - 1];
  }

  /** If no pass of the trace ends the loop, it is still polling after
      one fetch, one sleep and at most one notice per pass. */
  lemma {:induction false} PollLoopOutOfTicks(app: Guid, ticks: seq<Tick>)
    requires forall i :: 0 <= i < |ticks| ==> Continues(ticks[i])
    ensures PollLoop(app, ticks).end == Polling
    ensures Occurrences(PollLoop(app, ticks).effects, GetSummary(app)) == |ticks|
    ensures Occurrences(PollLoop(app, ticks).effects, Sleep(PollIntervalMs)) == |ticks|
    ensures StagingNotices(PollLoop(app, ticks).effects) == StagingPolls(ticks)
    decreases |ticks|
  {
    if |ticks| > 0 {
      var rest := ticks[1..];
      forall i | 0 <= i < |rest|
        ensures Continues(rest[i])
      {
        assert rest[i] == ticks[i + 1];
      }
      PollLoopOutOfTicks(app, rest);
      UnfoldContinue(app, ticks);
    }
  }

  /** A trace whose k-th summary shows a running instance, with no
      cancellation, no fault and no failed package before it, ends the loop
      as running. When nothing runs before the k-th summary, the loop ends
      exactly there: k + 1 fetches, k sleeps, and one notice per PENDING or
      STAGED summary before it. */
  lemma {:induction false} EventuallyRunning(app: Guid, ticks: seq<Tick>, k: nat)
    requires k < |ticks|
    requires forall i :: 0 <= i <= k ==> !ticks[i].cancelled && ticks[i].reply.Answer?
    requires forall i :: 0 <= i < k ==> ticks[i].reply.value.packageState != Failed
    requires ticks[k].reply.value.runningInstances > 0
    ensures PollLoop(app, ticks).end == Running
    ensures (forall i :: 0 <= i < k ==> ticks[i].reply.value.runningInstances <= 0) ==>
              && Occurrences(PollLoop(app, ticks).effects, GetSummary(app)) == k + 1
              && Occurrences(PollLoop(app, ticks).effects, Sleep(PollIntervalMs)) == k
              && StagingNotices(PollLoop(app, ticks).effects) == StagingPolls(ticks[..k])
    decreases k
  {
    if forall i :: 0 <= i < k ==> ticks[i].reply.value.runningInstances <= 0 {
      PollLoopFirstExit(app, ticks, k);
    } else if Continues(ticks[0]) {
      var rest := ticks[1..];
      assert k > 0;
      forall i | 0 <= i <= k - 1
        ensures !rest[i].cancelled && rest[i].reply.Answer?
        ensures i < k - 1 ==> rest[i].reply.value.packageState != Failed
      {
        assert rest[i] == ticks[i + 1];
      }
      EventuallyRunning(app, rest, k - 1);
    }
  }

  /** A trace whose k-th summary shows a failed package and nothing running,
      with no cancellation, no fault and nothing running before it, ends the
      loop with the staging-failed exception. */
  lemma {:induction false} FailedBeforeRunning(app: Guid, ticks: seq<Tick>, k: nat)
    requires k < |ticks|
    requires forall i :: 0 <= i <= k ==> !ticks[i].cancelled && ticks[i].reply.Answer? && ticks[i].reply.value.runningInstances <= 0
    requires ticks[k].reply.value.packageState == Failed
    ensures PollLoop(app, ticks).end == Threw(StagingFailed)
    decreases k
  {
    if Continues(ticks[0]) {
      var rest := ticks[1..];
      forall i | 0 <= i <= k - 1
        ensures !rest[i].cancelled && rest[i].reply.Answer? && rest[i].reply.value.runningInstances <= 0
      {
        assert rest[i] == ticks[i + 1];
      }
      FailedBeforeRunning(app, rest, k - 1);
    }
  }

  /** Cancellation requested before any summary decides the outcome ends the
      loop cleanly; the cancelled pass fetches nothing and logs nothing. */
  lemma CancelledBeforeDecision(app: Guid, ticks: seq<Tick>, k: nat)
    requires k < |ticks| && ticks[k].cancelled
    requires forall i :: 0 <= i < k ==> Continues(ticks[i])
    ensures PollLoop(app, ticks).end == Cancelled
    ensures Occurrences(PollLoop(app, ticks).effects, GetSummary(app)) == k
    ensures StagingNotices(PollLoop(app, ticks).effects) == StagingPolls(ticks[..k])
  {
    PollLoopFirstExit(app, ticks, k);
  }

  /** An app already started, whose first poll shows two running
      instances: it is still sent a stop command, since only a STOPPED app is
      spared one, then one start; the loop ends running with no notice. */
  lemma AlreadyStartedScenario(app: Guid)
    ensures var running := Summary(Started, 2, Staged);
            var r := MonitorApp(app, Replies(Answer(running), Answer(()), Answer(()), [Tick(false, Answer(running))]));
            && r.effects == [GetSummary(app), UpdateApp(app, Stopped), UpdateApp(app, Started), GetSummary(app)]
            && r.end == Running
            && StagingNotices(r.effects) == 0
  {
    var running := Summary(Started, 2, Staged);
    var c := Replies(Answer(running), Answer(()), Answer(()), [Tick(false, Answer(running))]);
    assert Started[2] != Stopped[2];
    assert Prelude(app, c) == [GetSummary(app), UpdateApp(app, Stopped), UpdateApp(app, Started)];
    UnfoldExit(app, c.ticks);
  }

  /** A stopped app whose first two polls show a pending package and whose
      third shows a running instance: no stop, one start, two notices, and
      the loop ends running. */
  lemma StoppedThenStagingScenario(app: Guid)
    ensures var pending := Summary(Stopped, 0, Pending);
            var ticks := [Tick(false, Answer(pending)), Tick(false, Answer(pending)),
                          Tick(false, Answer(Summary(Started, 1, Staged)))];
            var r := MonitorApp(app, Replies(Answer(pending), Fault, Answer(()), ticks));
            && Occurrences(r.effects, UpdateApp(app, Stopped)) == 0
            && Occurrences(r.effects, UpdateApp(app, Started)) == 1
            && StagingNotices(r.effects) == 2
            && r.end == Running
  {
    var pending := Summary(Stopped, 0, Pending);
    var ticks := [Tick(false, Answer(pending)), Tick(false, Answer(pending)),
                  Tick(false, Answer(Summary(Started, 1, Staged)))];
    var c := Replies(Answer(pending), Fault, Answer(()), ticks);
    assert FirstExitAt(c, 2) by {
      assert Pending[0] != Failed[0];
      assert Continues(ticks[0]) && Continues(ticks[1]);
    }
    assert StagingPolls(ticks[..2]) == 2 by {
      assert Pending[1] != Staged[1];
      assert IsStagingPoll(ticks[0]) && IsStagingPoll(ticks[1]);
      StagingPollsCons(ticks, 2);
      StagingPollsCons(ticks[1..], 1);
      assert ticks[1..][1..][..0] == [];
    }
    MonitorAppFirstExit(app, c, 2);
  }

  /** The start was acknowledged and the k-th pass is the first one of the
      loop that does not go round again. */
  predicate FirstExitAt(c: Replies, k: nat) {
    && StartSent(c) && c.start.Answer?
    && k < |c.ticks|
    && (forall i :: 0 <= i < k ==> Continues(c.ticks[i]))
    && !Continues(c.ticks[k])
  }

  /** Once the start is acknowledged, `MonitorApp` ends as the first pass
      that does not go round again decides. Before the loop it fetches once;
      the loop then fetches once per pass, except a cancelled last pass, and
      logs one notice per PENDING or STAGED summary. */
  lemma MonitorAppFirstExit(app: Guid, c: Replies, k: nat)
    requires FirstExitAt(c, k)
    ensures MonitorApp(app, c).end == ExitOf(c.ticks[k])
    ensures Occurrences(MonitorApp(app, c).effects, GetSummary(app)) == 1 + k + (if c.ticks[k].cancelled then 0 else 1)
    ensures StagingNotices(MonitorApp(app, c).effects) == StagingPolls(c.ticks[..k])
  {
    var p := Prelude(app, c);
    var loop := PollLoop(app, c.ticks);
    assert MonitorApp(app, c) == Run(p + loop.effects, loop.end);
    PollLoopFirstExit(app, c.ticks, k);
    PreludeCounts(app, c);
    CountAppend(p, loop.effects, GetSummary(app));
    CountAppend(p, loop.effects, Message(AppStaging));
    CountAppend(p, loop.effects, Message(AppStagedWaiting));
  }

  /** Before the loop, `MonitorApp` fetches once and logs no notice. */
  lemma PreludeCounts(app: Guid, c: Replies)
    ensures Occurrences(Prelude(app, c), GetSummary(app)) == 1
    ensures StagingNotices(Prelude(app, c)) == 0
  {
    var p := Prelude(app, c);
    assert p == [GetSummary(app)] + p[1..];
    CountAppend([GetSummary(app)], p[1..], GetSummary(app));
    assert GetSummary(app) !in p[1..];
    assert Message(AppStaging) !in p && Message(AppStagedWaiting) !in p;
  }
}
