/** The scheduler as its goroutines see it.  Four kinds of actor write one GPU state: the poller, the
    proof monitor, the WinningPoSt resume timers and the wins.

    One step each: a poll's guards; the Lotus reply with the sector queries behind it; the decision and
    its application; a monitor's end; a win with its generation; a timer's firing. */
module SchedulerModel {
  import opened Wrappers
  import opened Sidecar
  import opened Lotus
  import opened Policy
  import opened LookAhead
  import opened EventBus

  datatype ProofKey = ProofKey(period: int, deadline: nat)

  // Where the one poll goroutine is.
  datatype PollPc =
    | Idle
    | Asking                                     // guards passed, waiting for GetProvingDeadline
    | Deciding(target: Option<DeadlineInfo>)     // None: no deadline has sectors

  // Who may resume the GPU.
  datatype Control = Control(
    winningGen: nat,
    timers: set<nat>,             // generations of the live resume timers
    monitorActive: bool,          // proofMonitorActive
    monitors: seq<ProofKey>,      // waitForProofAndResume goroutines outstanding
    poll: PollPc)

  datatype Cache = Cache(sectors: SectorCounts, epoch: int)

  datatype Sched = Sched(
    bus: Bus,
    ctl: Control,
    completed: set<ProofKey>,     // completedProofs
    detected: set<ProofKey>,      // the keys whose proof a monitor has seen complete
    cache: Cache)

  const MAX_COMPLETED := 128
  const DEFAULT_REFRESH_EPOCHS := 2880

  function KeyOf(d: DeadlineInfo): ProofKey {
    ProofKey(d.periodStart, d.index)
  }

  // Decisions that do not come from the policy.

  const RESUME := YieldDecision(Available, Normal, Resume, 0)

  const FAIL_SAFE := YieldDecision(WindowPost, Immediate, Disconnected, 0)

  function WinDecision(p: YieldPolicy): YieldDecision {
    YieldDecision(WinningPost, Immediate, Winning, p.winningResumeDelaySec)
  }

  // The sector cache.

  function RefreshInterval(p: YieldPolicy): (r: int)
    ensures r > 0
  {
    if p.refreshEpochs > 0 then p.refreshEpochs else DEFAULT_REFRESH_EPOCHS
  }

  // deadlineHasNoSectors; own is Lotus' answer if it is asked, None an error.
  function DeadlineHasNoSectors(p: YieldPolicy, c: Cache, d: DeadlineInfo, own: Option<nat>): (bool, Cache) {
    if d.index in c.sectors && d.currentEpoch - c.epoch <= RefreshInterval(p) then (c.sectors[d.index] == 0, c)
    else if own.None? then (false, c)
    else (own.value == 0, Cache(c.sectors[d.index := own.value], d.currentEpoch))
  }

  predicate IsStale(p: YieldPolicy, c: Cache, d: DeadlineInfo) {
    d.currentEpoch - c.epoch > RefreshInterval(p)
  }

  // refreshFullSectorCache from deadline i on; answers holds what Lotus gives, no entry an error.
  function FillFrom(c: SectorCounts, n: nat, stale: bool, answers: map<nat, nat>, i: nat): SectorCounts
    decreases n - i
  {
    if i >= n then c
    else if (!stale && i in c) || i !in answers then FillFrom(c, n, stale, answers, i + 1)
    else FillFrom(c[i := answers[i]], n, stale, answers, i + 1)
  }

  function RefreshFull(p: YieldPolicy, c: Cache, d: DeadlineInfo, answers: map<nat, nat>): Cache {
    var n := NumDeadlines(d);
    if !IsStale(p, c, d) && |c.sectors| >= n then c
    else Cache(FillFrom(c.sectors, n, IsStale(p, c, d), answers, 0), d.currentEpoch)
  }

  // The target the rest of checkWindowPost decides about.
  function Target(c: SectorCounts, d: DeadlineInfo): Option<DeadlineInfo> {
    match FindNextSectorDeadline(c, d)
    case None => None
    case Some(t) => Some(VirtualInfo(d, t))
  }

  // checkWindowPost between the Lotus reply and the decision.
  function Examine(p: YieldPolicy, c: Cache, d: DeadlineInfo, own: Option<nat>, answers: map<nat, nat>)
    : (Cache, Option<DeadlineInfo>)
  {
    var (none, c1) := DeadlineHasNoSectors(p, c, d, own);
    if !none then (c1, Some(d))
    else var c2 := RefreshFull(p, c1, d, answers); (c2, Target(c2.sectors, d))
  }

  function MarkCompleted(done: set<ProofKey>, k: ProofKey): set<ProofKey> {
    (if |done| > MAX_COMPLETED then {} else done) + {k}
  }

  // evaluateAndApply.
  function EvaluateAndApply(p: YieldPolicy, s: Sched, d: DeadlineInfo): Sched {
    var decision := EvaluateWindowPost(p, d);
    if (decision.state == WindowPost || decision.state == Yielding) && KeyOf(d) in s.completed then
      s.(bus := ApplyUnlessWinning(s.bus, RESUME))
    else
      var s1 := s.(bus := ApplyUnlessWinning(s.bus, decision));
      if decision.state == WindowPost && s.bus.state != WindowPost && p.proofDetection
      then s1.(ctl := s.ctl.(monitorActive := true, monitors := s.ctl.monitors + [KeyOf(d)]))
      else s1
  }

  function Decide(p: YieldPolicy, s: Sched, target: Option<DeadlineInfo>): Sched {
    match target
    case Some(d) => EvaluateAndApply(p, s, d)
    case None => s.(bus := ApplyUnlessWinning(s.bus, RESUME))
  }

  datatype Act =
    | PollBegins
    | LotusFails
    | LotusReplies(d: DeadlineInfo, own: Option<nat>, answers: map<nat, nat>)
    | Decides
    | MonitorEnds(i: nat, detected: bool)   // false: timed out or cancelled
    | Win
    | TimerFires(gen: nat)
    | Joins
    | Leaves(id: nat)
    | Takes(id: nat)

  predicate Enabled(s: Sched, a: Act) {
    match a
    case PollBegins => s.ctl.poll.Idle? && !s.ctl.monitorActive && s.bus.state != WinningPost
    case LotusFails => s.ctl.poll.Asking?
    case LotusReplies(_, _, _) => s.ctl.poll.Asking?
    case Decides => s.ctl.poll.Deciding?
    case MonitorEnds(i, _) => i < |s.ctl.monitors|
    case TimerFires(gen) => gen in s.ctl.timers
    case _ => true
  }

  function FireTimer(s: Sched, gen: nat): Sched {
    if gen != s.ctl.winningGen then s.(ctl := s.ctl.(timers := s.ctl.timers - {gen}))
    else if s.ctl.monitorActive then s      // re-armed
    else s.(bus := Apply(s.bus, RESUME), ctl := s.ctl.(timers := s.ctl.timers - {gen}))
  }

  // waitForProofAndResume records the deadline whatever WaitForProofComplete returned.
  function EndMonitor(s: Sched, i: nat, detected: bool): Sched
    requires i < |s.ctl.monitors|
  {
    s.(bus := ApplyUnlessWinning(s.bus, RESUME),
       ctl := s.ctl.(monitorActive := false, monitors := s.ctl.monitors[..i] + s.ctl.monitors[i + 1..]),
       completed := MarkCompleted(s.completed, s.ctl.monitors[i]),
       detected := if detected then s.detected + {s.ctl.monitors[i]} else s.detected)
  }

  function Step(p: YieldPolicy, s: Sched, a: Act): Sched
    requires Enabled(s, a)
  {
    match a
    case PollBegins => s.(ctl := s.ctl.(poll := Asking))
    case LotusFails =>
      s.(bus := if p.failSafeOnDisconnect then Apply(s.bus, FAIL_SAFE) else s.bus, ctl := s.ctl.(poll := Idle))
    case LotusReplies(d, own, answers) =>
      var (c, target) := Examine(p, s.cache, d, own, answers);
      s.(cache := c, ctl := s.ctl.(poll := Deciding(target)))
    case Decides =>
      var s1 := Decide(p, s, s.ctl.poll.target);
      s1.(ctl := s1.ctl.(poll := Idle))
    case MonitorEnds(i, detected) => EndMonitor(s, i, detected)
    case Win =>
      s.(bus := Apply(s.bus, WinDecision(p)),
         ctl := s.ctl.(winningGen := s.ctl.winningGen + 1, timers := s.ctl.timers + {s.ctl.winningGen + 1}))
    case TimerFires(gen) => FireTimer(s, gen)
    case Joins => s.(bus := Subscribe(s.bus))
    case Leaves(id) => s.(bus := Unsubscribe(s.bus, id))
    case Takes(id) => s.(bus := Take(s.bus, id))
  }

  /** One step; an action that is not enabled leaves the scheduler as it is. */
  function Next(p: YieldPolicy, s: Sched, a: Act): Sched {
    if Enabled(s, a) then Step(p, s, a) else s
  }

  function Run(p: YieldPolicy, s: Sched, acts: seq<Act>): Sched {
    if acts == [] then s else Next(p, Run(p, s, acts[..|acts| - 1]), acts[|acts| - 1])
  }

  lemma RunThree(p: YieldPolicy, s: Sched, a: Act, b: Act, c: Act)
    ensures Run(p, s, [a, b, c]) == Next(p, Next(p, Next(p, s, a), b), c)
  {
    assert [a, b, c][..2] == [a, b] && [a, b][..1] == [a];
    assert Run(p, s, [a]) == Next(p, s, a);
    assert Run(p, s, [a, b]) == Next(p, Next(p, s, a), b);
  }

  lemma {:induction false} RunAppend(p: YieldPolicy, s: Sched, first: seq<Act>, rest: seq<Act>)
    ensures Run(p, s, first + rest) == Run(p, Run(p, s, first), rest)
    decreases |rest|
  {
    if rest == [] {
      assert first + rest == first;
    } else {
      var n := |rest| - 1;
      RunAppend(p, s, first, rest[..n]);
      assert (first + rest)[..|first| + n] == first + rest[..n];
    }
  }

  function NewSched(): Sched {
    Sched(NewBus(), Control(0, {}, false, [], Idle), {}, {}, Cache(map[], 0))
  }
}
