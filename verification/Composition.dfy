/** The listener thread and the engine pool together: commands travel through the main event loop in
    order, the listener waits for each pause, and resumes run in the background. */
module Composition {
  import opened Wrappers
  import opened Sidecar
  import opened EngineLifecycle
  import opened EngineCommands
  import opened PoolModel
  import opened PoolSafety
  import opened PoolOverlap
  import opened ListenerModel

  // A coroutine handed to the main loop and not started yet.
  datatype Cmd = DoResume | DoPause(u: Urgency)

  datatype System = System(
    listener: Listener,
    waiting: Option<Command>,   // the pause the listener thread waits for
    pool: Pool,
    cmds: seq<Cmd>,
    pauseDone: bool)            // its future has a result

  datatype SysAct =
    | PollBegins(i: Input)      // a poll up to its end or to the pause it waits for
    | Start                     // the main loop starts the oldest command
    | PauseReturns              // the latest pool.pause() returns
    | Notice                    // the waiting listener sees the result
    | GiveUp                    // it has waited too long; the pause goes on
    | Internal(a: PoolAct)      // anything else on the main loop

  predicate IsInternal(a: PoolAct) {
    a.LoopStep? || a.EngineStep?
  }

  predicate Enabled(s: System, a: SysAct) {
    match a
    case PollBegins(_) => s.waiting.None?
    case Start => s.cmds != []
    case PauseReturns => PauseDone(s.pool)
    case Notice => s.waiting.Some? && s.waiting.value.SendPause? && s.pauseDone
    case GiveUp => s.waiting.Some? && s.waiting.value.SendPause?
    case Internal(pa) => IsInternal(pa)
  }

  function Dispatch(s: System, l: Listener, c: Command): System {
    match c
    case Nothing => s.(listener := l)
    case SendResume => s.(listener := l, cmds := s.cmds + [DoResume])
    case SendPause(state, _) =>
      s.(listener := l, waiting := Some(c), pool := PoolModel.Next(s.pool, RequestPause),
         cmds := s.cmds + [DoPause(UrgencyOf(state))])
  }

  function ToPool(c: Cmd): PoolAct {
    match c
    case DoResume => BeginResume
    case DoPause(u) => PoolAct.BeginPause(u)
  }

  // The wait for a pause ends.
  function Unblock(s: System, ok: bool): System
    requires s.waiting.Some? && s.waiting.value.SendPause?
  {
    s.(listener := ListenerModel.EndPause(s.listener, s.waiting.value, ok), waiting := None, pauseDone := false)
  }

  function Step(s: System, a: SysAct): System
    requires Enabled(s, a)
  {
    match a
    case PollBegins(i) => var (l, c) := BeginPoll(s.listener, i); Dispatch(s, l, c)
    case Start => s.(pool := PoolModel.Next(s.pool, ToPool(s.cmds[0])), cmds := s.cmds[1..])
    case PauseReturns =>
      // The pause waited for is the last command; until it has started, an earlier one returns.
      s.(pool := PoolModel.Next(s.pool, PoolAct.EndPause),
         pauseDone := s.pauseDone || (s.waiting.Some? && s.cmds == []))
    case Notice => Unblock(s, true)
    case GiveUp => Unblock(s, false)
    case Internal(pa) => s.(pool := PoolModel.Next(s.pool, pa))
  }

  function Next(s: System, a: SysAct): System {
    if Enabled(s, a) then Step(s, a) else s
  }

  function Run(s: System, acts: seq<SysAct>): System
    decreases |acts|
  {
    if acts == [] then s else Run(Next(s, acts[0]), acts[1..])
  }

  ghost predicate Init(s: System) {
    s.listener == NewListener() && s.waiting.None? && PoolModel.Init(s.pool) && s.cmds == [] && !s.pauseDone
  }

  ghost predicate OnlyResumes(cmds: seq<Cmd>) {
    forall i :: 0 <= i < |cmds| ==> cmds[i].DoResume?
  }

  // The pause the listener waits for is the last command, or has started, or is done.
  ghost predicate PauseUnderWay(s: System) {
    || (s.cmds != [] && s.cmds[|s.cmds| - 1].DoPause? && !s.pauseDone)
    || (s.cmds == [] && s.pool.pausing.Some? && AllHeld(s.pool) && !s.pauseDone)
    || (s.cmds == [] && s.pauseDone && AllSinking(s.pool))
  }

  ghost predicate SysInv(s: System) {
    && AllInv(s.pool) && PausesOk(s.pool)
    && (s.waiting.None? ==> !s.pauseDone)
    && (s.waiting.Some? ==> s.waiting.value.SendPause? && PauseUnderWay(s))
    && (YieldLast(s.listener) ==> DoResume !in s.cmds && AllSinking(s.pool))
  }

  // The step loses the latest pause on an engine.
  predicate LosesAPause(s: System, a: SysAct) {
    a.Internal? && LosesPause(s.pool, a.a)
  }

  lemma PollKeepsSysInv(s: System, i: Input)
    requires SysInv(s) && s.waiting.None?
    ensures SysInv(Next(s, PollBegins(i)))
  {
    NextKeepsAllInv(s.pool, RequestPause);
    NextKeepsPausesOk(s.pool, RequestPause);
    if AllSinking(s.pool) {
      NextKeepsAllSinking(s.pool, RequestPause);
    }
    var s' := Next(s, PollBegins(i));
    if YieldLast(s'.listener) {
      assert s'.listener.lastState == s.listener.lastState;
    }
  }

  lemma StartKeepsSysInv(s: System)
    requires SysInv(s) && s.cmds != []
    ensures SysInv(Next(s, Start))
  {
    var a := ToPool(s.cmds[0]);
    NextKeepsAllInv(s.pool, a);
    NextKeepsPausesOk(s.pool, a);
    if YieldLast(s.listener) {
      assert s.cmds[0].DoPause?;
      NextKeepsAllSinking(s.pool, a);
    }
    if s.cmds[0].DoPause? {
      BeginPauseHolds(s.pool, s.cmds[0].u);
    }
  }

  lemma PauseReturnsKeepsSysInv(s: System)
    requires SysInv(s) && PauseDone(s.pool)
    ensures SysInv(Next(s, PauseReturns))
  {
    NextKeepsAllInv(s.pool, PoolAct.EndPause);
    NextKeepsPausesOk(s.pool, PoolAct.EndPause);
    if s.waiting.Some? && s.cmds == [] && !s.pauseDone {
      ReturnedPauseSinksAll(s.pool);
    }
  }

  lemma InternalKeepsSysInv(s: System, a: PoolAct)
    requires SysInv(s) && IsInternal(a) && !LosesPause(s.pool, a)
    ensures SysInv(Next(s, Internal(a)))
  {
    NextKeepsAllInv(s.pool, a);
    NextKeepsPausesOk(s.pool, a);
    InternalKeepsPausing(s.pool, a);
    if AllSinking(s.pool) {
      NextKeepsAllSinking(s.pool, a);
    }
    if AllHeld(s.pool) {
      NextKeepsAllHeld(s.pool, a);
    }
  }

  lemma InternalKeepsPausing(p: Pool, a: PoolAct)
    requires IsInternal(a)
    ensures PoolModel.Next(p, a).pausing == p.pausing && PoolModel.Next(p, a).nextPause == p.nextPause
  {
  }

  lemma NextKeepsSysInv(s: System, a: SysAct)
    requires SysInv(s) && !LosesAPause(s, a)
    ensures SysInv(Next(s, a))
  {
    if !Enabled(s, a) { return; }
    match a
    case PollBegins(i) => PollKeepsSysInv(s, i);
    case Start => StartKeepsSysInv(s);
    case PauseReturns => PauseReturnsKeepsSysInv(s);
    case Notice =>
    case GiveUp =>
    case Internal(pa) => InternalKeepsSysInv(s, pa);
  }

  // No step of the run loses the latest pause.
  predicate NothingLost(s: System, acts: seq<SysAct>)
    decreases |acts|
  {
    acts == [] || (!LosesAPause(s, acts[0]) && NothingLost(Next(s, acts[0]), acts[1..]))
  }

  lemma {:induction false} RunKeepsSysInv(s: System, acts: seq<SysAct>)
    requires SysInv(s) && NothingLost(s, acts)
    ensures SysInv(Run(s, acts))
    decreases |acts|
  {
    if acts != [] {
      NextKeepsSysInv(s, acts[0]);
      RunKeepsSysInv(Next(s, acts[0]), acts[1..]);
    }
  }

  /** End to end, also when pauses take too long, the listener gives up waiting and further commands overtake
      them: in every run in which no pause is lost, whenever the listener believes it has yielded, every
      engine sinks (none is RUNNING or will be), and no resume is on its way. */
  lemma MiningAlwaysWins(s: System, acts: seq<SysAct>)
    requires Init(s) && NothingLost(s, acts) && YieldLast(Run(s, acts).listener)
    ensures var s' := Run(s, acts); DoResume !in s'.cmds && AllSinking(s'.pool)
  {
    InitIsSound(s.pool);
    RunKeepsSysInv(s, acts);
  }

  // While the listener never gives up, commands are given in turn.

  ghost predicate TurnInv(s: System) {
    && PoolInv(s.pool)
    && (s.waiting.None? ==> OnlyResumes(s.cmds) && s.pool.pausing.None? && !s.pauseDone)
    && (s.waiting.Some? ==> s.waiting.value.SendPause? && PauseInTurn(s))
    && (YieldLast(s.listener) ==> DoResume !in s.cmds && Yielded(s.pool))
  }

  ghost predicate PauseInTurn(s: System) {
    || (s.cmds != [] && s.cmds[|s.cmds| - 1].DoPause? && OnlyResumes(s.cmds[..|s.cmds| - 1])
        && s.pool.pausing.None? && !s.pauseDone)
    || (s.cmds == [] && s.pool.pausing.Some? && !s.pauseDone)
    || (s.cmds == [] && s.pool.pausing.None? && s.pauseDone && Yielded(s.pool))
  }

  // Every command the main loop starts finds no pause in progress.
  lemma StartIsInTurn(s: System)
    requires TurnInv(s) && s.cmds != []
    ensures InTurn(s.pool, ToPool(s.cmds[0]))
  {
  }

  lemma PoolInvIsSound(p: Pool)
    requires PoolInv(p)
    ensures AllInv(p)
  {
    forall i | 0 <= i < |p.engines| ensures Inv(p.engines[i]) {
      assert EngineOk(p.engines[i], p.pausing);
    }
  }

  lemma PollKeepsTurnInv(s: System, i: Input)
    requires TurnInv(s) && s.waiting.None?
    ensures TurnInv(Next(s, PollBegins(i)))
  {
    PoolInvIsSound(s.pool);
    NextKeepsPoolInv(s.pool, RequestPause);
    var s' := Next(s, PollBegins(i));
    if s'.waiting.Some? {
      assert s'.cmds[..|s'.cmds| - 1] == s.cmds;
    }
    if YieldLast(s'.listener) {
      assert s'.listener.lastState == s.listener.lastState;
      NextKeepsYielded(s.pool, RequestPause);
    }
  }

  lemma StartKeepsTurnInv(s: System)
    requires TurnInv(s) && s.cmds != []
    ensures TurnInv(Next(s, Start))
  {
    var a := ToPool(s.cmds[0]);
    StartIsInTurn(s);
    PoolInvIsSound(s.pool);
    NextKeepsPoolInv(s.pool, a);
    if YieldLast(s.listener) {
      assert s.cmds[0].DoPause?;
      NextKeepsYielded(s.pool, a);
    }
    if s.waiting.Some? && |s.cmds| > 1 {
      assert s.cmds[..|s.cmds| - 1][0].DoResume?;
      assert s.cmds[1..][..|s.cmds| - 2] == s.cmds[..|s.cmds| - 1][1..];
    }
  }

  lemma PauseReturnsKeepsTurnInv(s: System)
    requires TurnInv(s) && PauseDone(s.pool)
    ensures TurnInv(Next(s, PauseReturns))
  {
    NextKeepsPoolInv(s.pool, PoolAct.EndPause);
    forall i | 0 <= i < |s.pool.engines| ensures Settled(s.pool.engines[i]) {
      EndPauseKeepsEngineOk(s.pool.engines[i], s.pool.pausing.value);
    }
  }

  lemma InternalKeepsTurnInv(s: System, a: PoolAct)
    requires TurnInv(s) && IsInternal(a)
    ensures TurnInv(Next(s, Internal(a)))
  {
    PoolInvIsSound(s.pool);
    NextKeepsPoolInv(s.pool, a);
    InternalKeepsPausing(s.pool, a);
    if Yielded(s.pool) {
      NextKeepsYielded(s.pool, a);
    }
  }

  lemma NextKeepsTurnInv(s: System, a: SysAct)
    requires TurnInv(s) && !a.GiveUp?
    ensures TurnInv(Next(s, a)) && !LosesAPause(s, a)
  {
    if a.Internal? {
      InTurnLosesNothing(s.pool, a.a);
    }
    if !Enabled(s, a) { return; }
    match a
    case PollBegins(i) => PollKeepsTurnInv(s, i);
    case Start => StartKeepsTurnInv(s);
    case PauseReturns => PauseReturnsKeepsTurnInv(s);
    case Notice =>
    case Internal(pa) => InternalKeepsTurnInv(s, pa);
  }

  // The listener sees the result of every pause it sends.
  predicate Patient(acts: seq<SysAct>) {
    forall i :: 0 <= i < |acts| ==> !acts[i].GiveUp?
  }

  lemma {:induction false} RunKeepsTurnInv(s: System, acts: seq<SysAct>)
    requires TurnInv(s) && Patient(acts)
    ensures TurnInv(Run(s, acts)) && NothingLost(s, acts)
    decreases |acts|
  {
    if acts != [] {
      NextKeepsTurnInv(s, acts[0]);
      RunKeepsTurnInv(Next(s, acts[0]), acts[1..]);
    }
  }

  /** While the listener never gives up on a pause, no pause is lost, and whenever it believes it has yielded,
      every engine has given up the GPU, or is in a load that is already bound to unload again. */
  lemma PatientListenerYields(s: System, acts: seq<SysAct>)
    requires Init(s) && Patient(acts)
    ensures NothingLost(s, acts)
    ensures var s' := Run(s, acts);
            YieldLast(s'.listener) ==>
              && DoResume !in s'.cmds && s'.pool.pauseRequested
              && forall i :: 0 <= i < |s'.pool.engines| ==> GivenUp(s'.pool.engines[i])
  {
    InitPoolInv(s.pool);
    RunKeepsTurnInv(s, acts);
    var p := Run(s, acts).pool;
    if YieldLast(Run(s, acts).listener) {
      PoolInvIsSound(p);
      YieldedGivesUp(p);
    }
  }
}
