/** The threshold policy: what a deadline's distance says about the GPU. */
module Policy {
  import opened Lotus
  import opened Sidecar

  datatype GpuState = Unknown | Available | Yielding | WindowPost | WinningPost

  datatype Reason = Approaching | Active | Winning | Disconnected | Resume

  datatype YieldDecision = YieldDecision(
    state: GpuState,
    urgency: Urgency,
    reason: Reason,
    secondsUntilNextChange: int)

  datatype YieldPolicy = YieldPolicy(
    gracefulSec: int,
    hardStopSec: int,
    resumeDelayAfterCloseSec: int,
    winningResumeDelaySec: int,
    failSafeOnDisconnect: bool,
    proofDetection: bool,           // a proof monitor is set and detection is enabled
    refreshEpochs: int)

  function EvaluateWindowPost(p: YieldPolicy, d: DeadlineInfo): YieldDecision {
    var untilOpen := SecondsUntilOpen(d);
    if IsOpen(d) then
      YieldDecision(WindowPost, Immediate, Active, SecondsUntilClose(d) + p.resumeDelayAfterCloseSec)
    else if untilOpen <= p.hardStopSec then
      YieldDecision(WindowPost, Immediate, Approaching, untilOpen)
    else if untilOpen <= p.gracefulSec then
      YieldDecision(Yielding, Normal, Approaching, untilOpen - p.hardStopSec)
    else
      YieldDecision(Available, Normal, Resume, untilOpen - p.gracefulSec)
  }

  function Severity(s: GpuState): nat {
    match s
    case Available => 0
    case Yielding => 1
    case _ => 2
  }

  // The decision for the same deadline, seen from epoch e.
  function StateAt(p: YieldPolicy, d: DeadlineInfo, e: int): GpuState {
    EvaluateWindowPost(p, d.(currentEpoch := e)).state
  }

  // Severity never goes down while the epoch goes up, for any deadline.
  ghost predicate Monotone(p: YieldPolicy) {
    forall d: DeadlineInfo, e, e' :: d.open < d.close && e <= e' ==>
      Severity(StateAt(p, d, e)) <= Severity(StateAt(p, d, e'))
  }

  /** The policy is monotone exactly when the hard-stop threshold is not negative. */
  lemma SeverityIsMonotone(p: YieldPolicy)
    ensures Monotone(p) <==> p.hardStopSec >= 0
  {
    if p.hardStopSec < 0 {
      // Open at epoch 0, closed at epoch 1 and again "zero seconds until open".
      var d := DeadlineInfo(0, 0, 0, 0, 1, 1, 1, 1);
      assert Severity(StateAt(p, d, 0)) == 2 && Severity(StateAt(p, d, 1)) < 2;
    }
  }

  // The countdown of an AVAILABLE or YIELDING decision names the first epoch at which the decision
  // changes: before it every epoch decides the same, from it on none does.
  predicate CountdownHolds(p: YieldPolicy, d: DeadlineInfo, e: int) {
    StateAt(p, d, e) == EvaluateWindowPost(p, d).state
    <==> (e - d.currentEpoch) * EPOCH_DURATION < EvaluateWindowPost(p, d).secondsUntilNextChange
  }

  ghost predicate CountdownsAreExact(p: YieldPolicy) {
    forall d: DeadlineInfo, e :: d.open < d.close && d.currentEpoch <= e && EvaluateWindowPost(p, d).state != WindowPost
                                 ==> CountdownHolds(p, d, e)
  }

  // The hard stop does not begin before the graceful yield, counted in epochs.
  predicate ThresholdsInOrder(p: YieldPolicy) {
    0 <= p.hardStopSec && p.hardStopSec / EPOCH_DURATION <= p.gracefulSec / EPOCH_DURATION
  }

  lemma InOrderIsExact(p: YieldPolicy, d: DeadlineInfo, e: int)
    requires ThresholdsInOrder(p) && d.open < d.close && d.currentEpoch <= e
    requires EvaluateWindowPost(p, d).state != WindowPost
    ensures CountdownHolds(p, d, e)
  {
    if p.hardStopSec > p.gracefulSec {
      // Both thresholds fall between the same two epochs.
      assert p.hardStopSec / EPOCH_DURATION == p.gracefulSec / EPOCH_DURATION;
    }
  }

  // A deadline and an epoch whose countdown is wrong.
  lemma OutOfOrderIsWrong(p: YieldPolicy) returns (d: DeadlineInfo, e: int)
    requires !ThresholdsInOrder(p)
    ensures d.open < d.close && d.currentEpoch <= e && EvaluateWindowPost(p, d).state != WindowPost
    ensures !CountdownHolds(p, d, e)
  {
    if p.hardStopSec >= 0 {
      // The last epoch before the hard stop.
      d, e := DeadlineInfo(-1 - p.hardStopSec / EPOCH_DURATION, 0, 0, 0, 1, 1, 1, 1), -(p.hardStopSec / EPOCH_DURATION);
    } else if 0 <= p.gracefulSec {
      // After the close the decision stays YIELDING for ever.
      d, e := DeadlineInfo(1, 0, 0, 0, 1, 1, 1, 1), 1 - p.hardStopSec;
    } else {
      // One epoch before the window opens.
      d, e := DeadlineInfo(-1, 0, 0, 0, 1, 1, 1, 1), 0;
    }
  }

  /** Every countdown is exact, for all deadlines and epochs, if and only if the hard-stop threshold is not
      negative and, in whole epochs, not above the graceful one. */
  lemma CountdownsExactIff(p: YieldPolicy)
    ensures CountdownsAreExact(p) <==> ThresholdsInOrder(p)
  {
    if ThresholdsInOrder(p) {
      forall d: DeadlineInfo, e
        | d.open < d.close && d.currentEpoch <= e && EvaluateWindowPost(p, d).state != WindowPost
        ensures CountdownHolds(p, d, e)
      {
        InOrderIsExact(p, d, e);
      }
    } else {
      var d, e := OutOfOrderIsWrong(p);
    }
  }

  /** Too close to the opening for anything but the proof, the countdown names the opening, 30 seconds an
      epoch, and the reason says that it is still ahead. */
  lemma HardStopCountdownIsExact(p: YieldPolicy, d: DeadlineInfo, e: int)
    requires d.currentEpoch <= e && d.currentEpoch < d.open && EvaluateWindowPost(p, d).state == WindowPost
    ensures e < d.open <==> (e - d.currentEpoch) * 30 < EvaluateWindowPost(p, d).secondsUntilNextChange
    ensures EvaluateWindowPost(p, d).reason.Approaching?
  {
  }

  /** While the window is open the decision is WINDOW_POST exactly until the close, which is the
      countdown less the configured delay. */
  lemma OpenCountdownIsExact(p: YieldPolicy, d: DeadlineInfo, e: int)
    requires IsOpen(d) && d.currentEpoch <= e
    ensures IsOpen(d.(currentEpoch := e))
            <==> (e - d.currentEpoch) * EPOCH_DURATION
                 < EvaluateWindowPost(p, d).secondsUntilNextChange - p.resumeDelayAfterCloseSec
    ensures EvaluateWindowPost(p, d).reason.Active?
  {
  }
}
