/** Who owns the GPU, over every interleaving of the poller, proof monitors, resume timers and wins. */
module SchedulerSafety {
  import opened Wrappers
  import opened Lotus
  import opened Policy
  import opened SchedulerModel

  // One proof monitor at most, and while it is outstanding the GPU is yielded and no poll decides.
  predicate MonitorOk(state: GpuState, c: Control) {
    && |c.monitors| <= 1
    && (c.monitorActive <==> c.monitors != [])
    && (c.monitorActive ==> state == WindowPost || state == WinningPost)
    && (!c.poll.Idle? ==> !c.monitorActive)
  }

  // The timer of the current win is live while its window is.
  predicate TimersOk(state: GpuState, c: Control) {
    && (forall g :: g in c.timers ==> 1 <= g <= c.winningGen)
    && (state == WinningPost ==> c.winningGen in c.timers)
  }

  predicate Inv(s: Sched) {
    MonitorOk(s.bus.state, s.ctl) && TimersOk(s.bus.state, s.ctl)
  }

  lemma NextKeepsInv(p: YieldPolicy, s: Sched, a: Act)
    requires Inv(s)
    ensures Inv(Next(p, s, a))
  {
  }

  lemma {:induction false} RunKeepsInv(p: YieldPolicy, acts: seq<Act>)
    ensures Inv(Run(p, NewSched(), acts))
  {
    if acts != [] {
      var init := acts[..|acts| - 1];
      RunKeepsInv(p, init);
      NextKeepsInv(p, Run(p, NewSched(), init), acts[|acts| - 1]);
    }
  }

  /** In every run at most one proof monitor is outstanding, proofMonitorActive is true exactly while one
      is, and then the GPU is in WINDOW_POST or WINNING_POST, never AVAILABLE. */
  lemma MonitorExclusion(p: YieldPolicy, acts: seq<Act>)
    ensures var s := Run(p, NewSched(), acts);
            && |s.ctl.monitors| <= 1
            && (s.ctl.monitorActive <==> |s.ctl.monitors| == 1)
            && (s.ctl.monitorActive ==> s.bus.state == WindowPost || s.bus.state == WinningPost)
  {
    RunKeepsInv(p, acts);
  }

  // The fail-safe is written while a win owns the GPU: Lotus failed after the poll's guards passed.
  predicate FailSafeDuringWin(p: YieldPolicy, s: Sched, a: Act) {
    a.LotusFails? && s.ctl.poll.Asking? && p.failSafeOnDisconnect && s.bus.state == WinningPost
  }

  // The current win's own timer fires and no proof is under way.
  predicate OwnTimerFires(s: Sched, a: Act) {
    a == TimerFires(s.ctl.winningGen) && s.ctl.winningGen in s.ctl.timers && !s.ctl.monitorActive
  }

  // WINNING_POST lasts exactly as long as the timer of the current win.
  predicate Owned(s: Sched) {
    s.bus.state == WinningPost <==> s.ctl.winningGen in s.ctl.timers
  }

  /** A step keeps "WINNING_POST exactly while the current win's timer is live" if and only if it is not a
      fail-safe write during the win. */
  lemma OwnershipKept(p: YieldPolicy, s: Sched, a: Act)
    requires Inv(s) && Owned(s)
    ensures Owned(Next(p, s, a)) <==> !FailSafeDuringWin(p, s, a)
  {
  }

  /** A step ends a win window if and only if it is the win's own timer firing with no proof under way,
      or the fail-safe: stale timers, polls and proof monitors never end it. */
  lemma WhatEndsAWin(p: YieldPolicy, s: Sched, a: Act)
    requires Inv(s) && s.bus.state == WinningPost
    ensures Next(p, s, a).bus.state != WinningPost <==> OwnTimerFires(s, a) || FailSafeDuringWin(p, s, a)
  {
  }

  ghost predicate NoFailSafeDuringWin(p: YieldPolicy, acts: seq<Act>) {
    forall k :: 0 <= k < |acts| ==> !FailSafeDuringWin(p, Run(p, NewSched(), acts[..k]), acts[k])
  }

  /** Over every run in which no fail-safe is written during a win, WINNING_POST holds exactly while the
      timer of the current win is live. */
  lemma {:induction false} WinningOwnership(p: YieldPolicy, acts: seq<Act>)
    requires NoFailSafeDuringWin(p, acts)
    ensures Owned(Run(p, NewSched(), acts))
  {
    if acts != [] {
      var n := |acts| - 1;
      var init := acts[..n];
      forall k | 0 <= k < n
        ensures !FailSafeDuringWin(p, Run(p, NewSched(), init[..k]), init[k])
      {
        assert init[..k] == acts[..k];
      }
      WinningOwnership(p, init);
      RunKeepsInv(p, init);
      OwnershipKept(p, Run(p, NewSched(), init), acts[n]);
    }
  }

  /** The converse is false of the code: a Lotus error that arrives after a win turns WINNING_POST into
      WINDOW_POST while the win's timer is still live. */
  lemma FailSafeOverwritesAWin(p: YieldPolicy)
    requires p.failSafeOnDisconnect
    ensures var s := Run(p, NewSched(), [PollBegins, Win, LotusFails]);
            s.bus.state == WindowPost && s.ctl.winningGen in s.ctl.timers
  {
    var s1 := Next(p, NewSched(), PollBegins);
    var s2 := Next(p, s1, Win);
    var acts := [PollBegins, Win, LotusFails];
    assert acts[..2][..1] == [PollBegins] && acts[..2] == [PollBegins, Win];
    assert Run(p, NewSched(), [PollBegins][..0]) == NewSched();
    assert Run(p, NewSched(), acts[..2][..1]) == s1;
    assert Run(p, NewSched(), acts[..2]) == s2;
  }

  // Along the run from s, no step ends the win.
  ghost predicate WinUndisturbed(p: YieldPolicy, s: Sched, acts: seq<Act>) {
    forall k :: 0 <= k < |acts| ==>
      var t := Run(p, s, acts[..k]); !OwnTimerFires(t, acts[k]) && !FailSafeDuringWin(p, t, acts[k])
  }

  /** From a win on, whatever polls, monitors, older timers and further wins do, the GPU stays in
      WINNING_POST until the timer of the latest win fires. */
  lemma {:induction false} WinWindowHolds(p: YieldPolicy, s: Sched, acts: seq<Act>)
    requires Inv(s) && s.bus.state == WinningPost && WinUndisturbed(p, s, acts)
    ensures Inv(Run(p, s, acts)) && Run(p, s, acts).bus.state == WinningPost
  {
    if acts != [] {
      var n := |acts| - 1;
      var init := acts[..n];
      forall k | 0 <= k < n
        ensures var t := Run(p, s, init[..k]); !OwnTimerFires(t, init[k]) && !FailSafeDuringWin(p, t, init[k])
      {
        assert init[..k] == acts[..k];
      }
      WinWindowHolds(p, s, init);
      NextKeepsInv(p, Run(p, s, init), acts[n]);
      WhatEndsAWin(p, Run(p, s, init), acts[n]);
    }
  }

  // Along the run the current win's timer does not fire with no proof under way.
  ghost predicate OwnTimerWaits(p: YieldPolicy, s: Sched, acts: seq<Act>) {
    forall k :: 0 <= k < |acts| ==> !OwnTimerFires(Run(p, s, acts[..k]), acts[k])
  }

  /** Only a poll that was already under way when the win came can let the fail-safe overwrite it: from a win
      that no poll is waiting across, no poll begins, and the GPU stays in WINNING_POST until the timer of the
      latest win fires. */
  lemma {:induction false} NoPollBeginsInAWin(p: YieldPolicy, s: Sched, acts: seq<Act>)
    requires Inv(s) && s.bus.state == WinningPost && s.ctl.poll.Idle? && OwnTimerWaits(p, s, acts)
    ensures var t := Run(p, s, acts); Inv(t) && t.bus.state == WinningPost && t.ctl.poll.Idle?
  {
    if acts != [] {
      var n := |acts| - 1;
      var init := acts[..n];
      forall k | 0 <= k < n
        ensures !OwnTimerFires(Run(p, s, init[..k]), init[k])
      {
        assert init[..k] == acts[..k];
      }
      NoPollBeginsInAWin(p, s, init);
      NextKeepsInv(p, Run(p, s, init), acts[n]);
      WhatEndsAWin(p, Run(p, s, init), acts[n]);
    }
  }

  /** A resume timer ends exactly by firing: a stale one at once, the current one unless a proof is under way,
      which re-arms it. */
  lemma WhatEndsATimer(p: YieldPolicy, s: Sched, a: Act, gen: nat)
    requires gen in s.ctl.timers
    ensures gen !in Next(p, s, a).ctl.timers
            <==> a == TimerFires(gen) && !(gen == s.ctl.winningGen && s.ctl.monitorActive)
  {
  }

  /** No resume is lost: from every reachable win window the monitor's end, if one is outstanding, and
      then the live timer bring the GPU back to AVAILABLE. */
  lemma WinIsResumed(p: YieldPolicy, s: Sched, detected: bool)
    requires Inv(s) && s.bus.state == WinningPost
    ensures var t := if s.ctl.monitorActive then Next(p, s, MonitorEnds(0, detected)) else s;
            && t.bus.state == WinningPost && !t.ctl.monitorActive
            && Enabled(t, TimerFires(s.ctl.winningGen))
            && Next(p, t, TimerFires(s.ctl.winningGen)).bus.state == Available
  {
  }

  // A fail-safe is written.
  predicate FailSafeWritten(p: YieldPolicy, s: Sched, a: Act) {
    a.LotusFails? && s.ctl.poll.Asking? && p.failSafeOnDisconnect
  }

  // WINDOW_POST belongs to the outstanding proof monitor.
  predicate WindowOwned(s: Sched) {
    s.bus.state == WindowPost ==> s.ctl.monitorActive
  }

  /** With proof detection, a step keeps "WINDOW_POST only while a proof monitor is outstanding" if and only
      if it is not a fail-safe: every other way into WINDOW_POST launches a monitor. */
  lemma WindowOwnershipKept(p: YieldPolicy, s: Sched, a: Act)
    requires Inv(s) && p.proofDetection && WindowOwned(s)
    ensures WindowOwned(Next(p, s, a)) <==> !FailSafeWritten(p, s, a)
  {
  }

  ghost predicate NoFailSafeWritten(p: YieldPolicy, acts: seq<Act>) {
    forall k :: 0 <= k < |acts| ==> !FailSafeWritten(p, Run(p, NewSched(), acts[..k]), acts[k])
  }

  /** So over every run in which no fail-safe is written WINDOW_POST has a monitor that will end it. */
  lemma {:induction false} WindowOwnership(p: YieldPolicy, acts: seq<Act>)
    requires p.proofDetection && NoFailSafeWritten(p, acts)
    ensures WindowOwned(Run(p, NewSched(), acts))
  {
    if acts != [] {
      var n := |acts| - 1;
      var init := acts[..n];
      forall k | 0 <= k < n
        ensures !FailSafeWritten(p, Run(p, NewSched(), init[..k]), init[k])
      {
        assert init[..k] == acts[..k];
      }
      WindowOwnership(p, init);
      RunKeepsInv(p, init);
      WindowOwnershipKept(p, Run(p, NewSched(), init), acts[n]);
    }
  }

  // The deadline's window is open, or too close for anything but its proof.
  predicate ProofIsDue(p: YieldPolicy, d: DeadlineInfo) {
    IsOpen(d) || SecondsUntilOpen(d) <= p.hardStopSec
  }

  /** When a monitor is launched, under a win too: after a decision about d the one monitor is d's if proof
      detection is on, d's proof is due and not recorded, and the state was not WINDOW_POST; and otherwise
      there is none. */
  lemma DecisionLaunches(p: YieldPolicy, s: Sched, d: DeadlineInfo)
    requires Inv(s) && s.ctl.poll == Deciding(Some(d))
    ensures var t := Next(p, s, Decides);
            && t.ctl.monitors == (if p.proofDetection && ProofIsDue(p, d) && KeyOf(d) !in s.completed
                                     && s.bus.state != WindowPost
                                  then [KeyOf(d)] else [])
            && t.ctl.monitorActive == (t.ctl.monitors != [])
  {
    assert [] + [KeyOf(d)] == [KeyOf(d)];
  }

  predicate NoMonitorEnds(acts: seq<Act>) {
    forall i :: 0 <= i < |acts| ==> !acts[i].MonitorEnds?
  }

  lemma {:induction false} MonitorHoldsTheGpu(p: YieldPolicy, s: Sched, acts: seq<Act>)
    requires Inv(s) && s.ctl.monitors != [] && NoMonitorEnds(acts)
    ensures var t := Run(p, s, acts);
            && Inv(t) && t.ctl.monitors == s.ctl.monitors
            && (t.bus.state == WindowPost || t.bus.state == WinningPost)
  {
    if acts != [] {
      var init := acts[..|acts| - 1];
      MonitorHoldsTheGpu(p, s, init);
      NextKeepsInv(p, Run(p, s, init), acts[|acts| - 1]);
    }
  }

  /** A proof that is due keeps the GPU, whatever wins come and go: in every run, once a poll has decided about
      a deadline whose proof is due and not recorded, with proof detection and no fail-safe in force, nothing
      but the end of that deadline's own monitor lets the GPU be AVAILABLE. */
  lemma DueProofKeepsTheGpu(p: YieldPolicy, before: seq<Act>, d: DeadlineInfo, after: seq<Act>)
    requires p.proofDetection && ProofIsDue(p, d) && NoMonitorEnds(after)
    requires var s := Run(p, NewSched(), before);
             s.ctl.poll == Deciding(Some(d)) && KeyOf(d) !in s.completed && s.bus.state != WindowPost
    ensures var t := Run(p, Next(p, Run(p, NewSched(), before), Decides), after);
            t.ctl.monitors == [KeyOf(d)] && (t.bus.state == WindowPost || t.bus.state == WinningPost)
  {
    RunKeepsInv(p, before);
    var s := Run(p, NewSched(), before);
    DecisionLaunches(p, s, d);
    NextKeepsInv(p, s, Decides);
    MonitorHoldsTheGpu(p, Next(p, s, Decides), after);
  }

  /** The GPU is never stuck: over every run, between two polls, either the next poll will pass its guards
      and decide anew, or a proof monitor is outstanding whose end makes the GPU AVAILABLE (unless a win
      owns it), or the live timer of the current win makes it AVAILABLE when it fires. */
  lemma NeverStuck(p: YieldPolicy, acts: seq<Act>, detected: bool)
    requires Run(p, NewSched(), acts).ctl.poll.Idle?
    ensures var s := Run(p, NewSched(), acts);
            || Enabled(s, PollBegins)
            || (|s.ctl.monitors| == 1
                && (s.bus.state != WinningPost ==> Next(p, s, MonitorEnds(0, detected)).bus.state == Available))
            || (Enabled(s, TimerFires(s.ctl.winningGen))
                && Next(p, s, TimerFires(s.ctl.winningGen)).bus.state == Available)
  {
    RunKeepsInv(p, acts);
  }

  // Every recorded deadline had its proof detected.
  predicate RecordsAreProofs(s: Sched) {
    s.completed <= s.detected
  }

  // A monitor ends without having seen a proof that was never seen.
  predicate Undetected(s: Sched, a: Act) {
    a.MonitorEnds? && !a.detected && a.i < |s.ctl.monitors| && s.ctl.monitors[a.i] !in s.detected
  }

  /** A step keeps "every recorded deadline was detected" if and only if it is not the end of a monitor that
      timed out, or was cancelled, on a deadline never detected. */
  lemma RecordsAreProofsKept(p: YieldPolicy, s: Sched, a: Act)
    requires RecordsAreProofs(s)
    ensures RecordsAreProofs(Next(p, s, a)) <==> !Undetected(s, a)
  {
  }

  /** A run with such an end: the first deadline is open and has sectors, its monitor times out, and the
      deadline is recorded although no proof was seen. */
  lemma TimeoutRecordsAnUnprovedDeadline(p: YieldPolicy, d: DeadlineInfo)
    requires p.proofDetection && IsOpen(d)
    ensures var s := Run(p, NewSched(), [PollBegins, LotusReplies(d, Some(1), map[]), Decides, MonitorEnds(0, false)]);
            s.completed == {KeyOf(d)} && s.detected == {} && s.bus.state == Available
  {
    var reply, end := LotusReplies(d, Some(1), map[]), MonitorEnds(0, false);
    RunThree(p, NewSched(), PollBegins, reply, Decides);
    assert [PollBegins, reply, Decides, end][..3] == [PollBegins, reply, Decides];
  }

  ghost predicate AllDetected(p: YieldPolicy, acts: seq<Act>) {
    forall k :: 0 <= k < |acts| ==> !Undetected(Run(p, NewSched(), acts[..k]), acts[k])
  }

  /** So over every run without such an end a recorded deadline is a proved one. */
  lemma {:induction false} RecordedMeansDetected(p: YieldPolicy, acts: seq<Act>)
    requires AllDetected(p, acts)
    ensures RecordsAreProofs(Run(p, NewSched(), acts))
  {
    if acts != [] {
      var n := |acts| - 1;
      var init := acts[..n];
      forall k | 0 <= k < n
        ensures !Undetected(Run(p, NewSched(), init[..k]), init[k])
      {
        assert init[..k] == acts[..k];
      }
      RecordedMeansDetected(p, init);
      RecordsAreProofsKept(p, Run(p, NewSched(), init), acts[n]);
    }
  }

  /** The set of completed proofs stays bounded. */
  lemma {:induction false} CompletedIsBounded(p: YieldPolicy, acts: seq<Act>)
    ensures |Run(p, NewSched(), acts).completed| <= 129
  {
    if acts != [] {
      CompletedIsBounded(p, acts[..|acts| - 1]);
    }
  }
}
