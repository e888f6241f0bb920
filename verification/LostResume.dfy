/** A run of listener and pool in which the last resume is lost, and is not retried. */
module LostResume {
  import opened Wrappers
  import opened Sidecar
  import opened EngineModel
  import opened LostCommands
  import opened PoolModel
  import opened ListenerModel
  import opened Composition

  lemma {:induction false} RunAppend(s: System, first: seq<SysAct>, rest: seq<SysAct>)
    ensures Composition.Run(s, first + rest) == Composition.Run(Composition.Run(s, first), rest)
    decreases |first|
  {
    if first == [] {
      assert first + rest == rest;
    } else {
      RunAppend(Composition.Next(s, first[0]), first[1..], rest);
      assert (first + rest)[1..] == first[1..] + rest;
    }
  }

  lemma RunTwo(s: System, a: SysAct, b: SysAct)
    ensures Composition.Run(s, [a, b]) == Composition.Next(Composition.Next(s, a), b)
  {
    assert [a, b][1..] == [b] && [b][1..] == [];
    var s2 := Composition.Next(Composition.Next(s, a), b);
    assert Composition.Run(s2, []) == s2;
    assert Composition.Run(Composition.Next(s, a), [b]) == s2;
  }

  // Steps of the one engine of a pool.
  function OnEngine(acts: seq<Act>): (r: seq<SysAct>)
    ensures |r| == |acts| && forall i :: 0 <= i < |acts| ==> r[i] == Internal(EngineStep(0, acts[i]))
  {
    seq(|acts|, i requires 0 <= i < |acts| => Internal(EngineStep(0, acts[i])))
  }

  function WithEngine(s: System, e: Engine): System {
    s.(pool := s.pool.(engines := [e]))
  }

  lemma {:induction false} EngineRuns(s: System, acts: seq<Act>)
    requires |s.pool.engines| == 1 && forall i :: 0 <= i < |acts| ==> !IsCall(acts[i])
    ensures Composition.Run(s, OnEngine(acts)) == WithEngine(s, EngineModel.Run(s.pool.engines[0], acts))
    decreases |acts|
  {
    var e := s.pool.engines[0];
    if acts == [] {
      assert s.pool.engines == [e];
    } else {
      assert OnEngine(acts)[1..] == OnEngine(acts[1..]);
      var s1 := Composition.Next(s, OnEngine(acts)[0]);
      assert s.pool.engines[0 := EngineModel.Next(e, acts[0])] == [EngineModel.Next(e, acts[0])];
      EngineRuns(s1, acts[1..]);
    }
  }

  // The engine: PAUSED, loading, told to unload after the load, and PAUSED again.

  const FIRST := ResumeOp(0)
  const SECOND := ResumeOp(1)
  const YIELD := PauseOp(0)

  function Loads(pending: Option<Urgency>, ops: map<OpId, Pc>, queue: seq<OpId>): Engine {
    Engine(Fields(Loading, false, pending, false, true, 0, {}, {}), Tasks(ops, queue))
  }

  function LoadsOnly(pending: Option<Urgency>): Engine {
    Loads(pending, map[FIRST := WaitVram(1)], [])
  }

  lemma FirstResumeLoads()
    ensures EngineModel.Run(EngineModel.Next(PausedEngine(), CallResume(FIRST)), [Enter(FIRST)]) == LoadsOnly(None)
  {
    var e := In(Paused, false, false, map[FIRST := ResumeEntry], [FIRST]);
    assert EngineModel.Next(PausedEngine(), CallResume(FIRST)) == e;
    assert [Enter(FIRST)][1..] == [];
    assert EngineModel.Next(e, Enter(FIRST)) == LoadsOnly(None);
    assert EngineModel.Run(LoadsOnly(None), []) == LoadsOnly(None);
  }

  lemma PauseIsNoted()
    ensures EngineModel.Run(EngineModel.Next(LoadsOnly(None), CallPause(YIELD, Immediate)),
                            [Act.BeginPause(YIELD), Enter(YIELD)])
            == LoadsOnly(Some(Immediate))
  {
    var e1 := Loads(None, map[FIRST := WaitVram(1), YIELD := PauseCall(Immediate)], []);
    var e2 := Loads(None, map[FIRST := WaitVram(1), YIELD := PauseEntry(Immediate)], [YIELD]);
    assert EngineModel.Next(LoadsOnly(None), CallPause(YIELD, Immediate)) == e1;
    Twice(e1, Act.BeginPause(YIELD), e2, Enter(YIELD), LoadsOnly(Some(Immediate)));
  }

  lemma SecondResumeIsDropped()
    ensures EngineModel.Run(EngineModel.Next(LoadsOnly(Some(Immediate)), CallResume(SECOND)), [Enter(SECOND)])
            == LoadsOnly(Some(Immediate))
  {
    var e := Loads(Some(Immediate), map[FIRST := WaitVram(1), SECOND := ResumeEntry], [SECOND]);
    assert EngineModel.Next(LoadsOnly(Some(Immediate)), CallResume(SECOND)) == e;
    assert [Enter(SECOND)][1..] == [];
    assert EngineModel.Next(e, Enter(SECOND)) == LoadsOnly(Some(Immediate));
    assert EngineModel.Run(LoadsOnly(Some(Immediate)), []) == LoadsOnly(Some(Immediate));
  }

  lemma LoadUnloads()
    ensures EngineModel.Run(LoadsOnly(Some(Immediate)),
                            [VramFree(FIRST), CreateOk(FIRST)] + [Enter(FIRST), Enter(FIRST), Enter(FIRST)])
            == PausedEngine()
  {
    var e0 := LoadsOnly(Some(Immediate));
    var e1 := Loads(Some(Immediate), map[FIRST := Creating(false, 1)], []);
    var e2 := Engine(e0.f.(loaded := true), Tasks(map[FIRST := LoadEntry(false)], [FIRST]));
    var e3 := In(Loading, true, false, map[FIRST := LoadDestroy(false, false)], [FIRST]);
    var e4 := In(Loading, false, false, map[FIRST := LoadDestroy(false, true)], [FIRST]);
    Twice(e0, VramFree(FIRST), e1, CreateOk(FIRST), e2);
    Thrice(e2, Enter(FIRST), e3, Enter(FIRST), e4, Enter(FIRST), PausedEngine());
    Join(e0, [VramFree(FIRST), CreateOk(FIRST)], e2, [Enter(FIRST), Enter(FIRST), Enter(FIRST)], PausedEngine());
  }

  // The system while the listener waits for nothing.

  function Rests(last: Option<int>, resumePending: bool, pool: Pool): System {
    System(Listener(last, true, None, false, resumePending), None, pool, [], false)
  }

  function OnePool(e: Engine, loops: map<nat, nat>, nextLoop: nat, pauses: nat, requested: bool): Pool {
    Pool([e], requested, loops, nextLoop, None, pauses)
  }

  function Polled(state: int): SysAct {
    PollBegins(Input(Some(state), 0.0, false, false))
  }

  // A poll answers AVAILABLE and the resume starts.
  lemma AvailableStarts(last: Option<int>, e: Engine, loops: map<nat, nat>, n: nat, pauses: nat, requested: bool)
    requires last != Some(GPU_STATE_AVAILABLE)
    ensures Composition.Run(Rests(last, false, OnePool(e, loops, n, pauses, requested)),
                            [Polled(GPU_STATE_AVAILABLE), Start])
            == Rests(Some(GPU_STATE_AVAILABLE), true,
                     OnePool(EngineModel.Next(e, CallResume(ResumeOp(n))), loops[n := 0], n + 1, pauses, false))
  {
    var s := Rests(last, false, OnePool(e, loops, n, pauses, requested));
    RunTwo(s, Polled(GPU_STATE_AVAILABLE), Start);
    var s1 := Composition.Next(s, Polled(GPU_STATE_AVAILABLE));
    assert s1.cmds == [DoResume] && s1.cmds[1..] == [];
    assert [e][0 := EngineModel.Next(e, CallResume(ResumeOp(n)))] == [EngineModel.Next(e, CallResume(ResumeOp(n)))];
  }

  // The listener waits for the pause it has sent.
  function Waits(pool: Pool, pauseDone: bool): System {
    System(Listener(Some(GPU_STATE_AVAILABLE), true, None, false, true),
           Some(SendPause(GPU_STATE_WINDOW_POST, false)), pool, [], pauseDone)
  }

  lemma YieldStarts(e: Engine, loops: map<nat, nat>, n: nat)
    ensures Composition.Run(Rests(Some(GPU_STATE_AVAILABLE), true, OnePool(e, loops, n, 0, false)),
                            [Polled(GPU_STATE_WINDOW_POST), Start])
            == Waits(OnePool(EngineModel.Next(e, CallPause(YIELD, Immediate)), loops, n, 1, true)
                     .(pausing := Some(0)), false)
  {
    var s := Rests(Some(GPU_STATE_AVAILABLE), true, OnePool(e, loops, n, 0, false));
    RunTwo(s, Polled(GPU_STATE_WINDOW_POST), Start);
    var s1 := Composition.Next(s, Polled(GPU_STATE_WINDOW_POST));
    assert s1.cmds == [DoPause(Immediate)] && s1.cmds[1..] == [];
    assert CallPauses([e], YIELD, Immediate) == [EngineModel.Next(e, CallPause(YIELD, Immediate))];
  }

  lemma YieldReturns(e: Engine, loops: map<nat, nat>, n: nat)
    requires YIELD !in e.t.ops
    ensures Composition.Run(Waits(OnePool(e, loops, n, 1, true).(pausing := Some(0)), false), [PauseReturns, Notice])
            == Rests(Some(GPU_STATE_WINDOW_POST), false, OnePool(e, loops, n, 1, true))
  {
    RunTwo(Waits(OnePool(e, loops, n, 1, true).(pausing := Some(0)), false), PauseReturns, Notice);
  }

  // Loop r has nothing more to do.
  lemma LoopReturns(s: System, r: nat)
    requires |s.pool.engines| == 1 && r in s.pool.loops && s.pool.loops[r] == 0
    requires ResumeOp(r) !in s.pool.engines[0].t.ops
    ensures Composition.Run(s, [Internal(LoopStep(r))]) == s.(pool := s.pool.(loops := s.pool.loops - {r}))
  {
    assert [Internal(LoopStep(r))][1..] == [];
    var s1 := Composition.Next(s, Internal(LoopStep(r)));
    assert Composition.Run(s1, []) == s1;
  }

  // Up to the second resume.
  function Yields(): seq<SysAct> {
    [Polled(GPU_STATE_AVAILABLE), Start] + OnEngine([Enter(FIRST)])
    + [Polled(GPU_STATE_WINDOW_POST), Start] + OnEngine([Act.BeginPause(YIELD), Enter(YIELD)]) + [PauseReturns, Notice]
  }

  lemma YieldsDuringTheLoad()
    ensures Composition.Run(Rests(None, false, OnePool(PausedEngine(), map[], 0, 0, false)), Yields())
            == Rests(Some(GPU_STATE_WINDOW_POST), false, OnePool(LoadsOnly(Some(Immediate)), map[0 := 0], 1, 1, true))
  {
    var s0 := Rests(None, false, OnePool(PausedEngine(), map[], 0, 0, false));
    var a := [Polled(GPU_STATE_AVAILABLE), Start];
    var b := OnEngine([Enter(FIRST)]);
    var c := [Polled(GPU_STATE_WINDOW_POST), Start];
    var d := OnEngine([Act.BeginPause(YIELD), Enter(YIELD)]);
    AvailableStarts(None, PausedEngine(), map[], 0, 0, false);
    var s1 := Composition.Run(s0, a);
    EngineRuns(s1, [Enter(FIRST)]);
    FirstResumeLoads();
    RunAppend(s0, a, b);
    YieldStarts(LoadsOnly(None), map[0 := 0], 1);
    RunAppend(s0, a + b, c);
    var s3 := Composition.Run(s0, a + b + c);
    EngineRuns(s3, [Act.BeginPause(YIELD), Enter(YIELD)]);
    PauseIsNoted();
    RunAppend(s0, a + b + c, d);
    YieldReturns(LoadsOnly(Some(Immediate)), map[0 := 0], 1);
    RunAppend(s0, a + b + c + d, [PauseReturns, Notice]);
  }

  // From the second resume on.
  function Rest(): seq<SysAct> {
    [Polled(GPU_STATE_AVAILABLE), Start] + OnEngine([Enter(SECOND)]) + [Internal(LoopStep(1))]
    + OnEngine([VramFree(FIRST), CreateOk(FIRST)] + [Enter(FIRST), Enter(FIRST), Enter(FIRST)])
    + [Internal(LoopStep(0))]
  }

  function End(): System {
    Rests(Some(GPU_STATE_AVAILABLE), true, OnePool(PausedEngine(), map[], 2, 1, false))
  }

  lemma RestsPaused()
    ensures Composition.Run(
              Rests(Some(GPU_STATE_WINDOW_POST), false,
                    OnePool(LoadsOnly(Some(Immediate)), map[0 := 0], 1, 1, true)), Rest())
            == End()
  {
    var s0 := Rests(Some(GPU_STATE_WINDOW_POST), false,
                    OnePool(LoadsOnly(Some(Immediate)), map[0 := 0], 1, 1, true));
    var a := [Polled(GPU_STATE_AVAILABLE), Start];
    var b := OnEngine([Enter(SECOND)]);
    var c := [Internal(LoopStep(1))];
    var load := [VramFree(FIRST), CreateOk(FIRST)] + [Enter(FIRST), Enter(FIRST), Enter(FIRST)];
    AvailableStarts(Some(GPU_STATE_WINDOW_POST), LoadsOnly(Some(Immediate)), map[0 := 0], 1, 1, true);
    EngineRuns(Composition.Run(s0, a), [Enter(SECOND)]);
    SecondResumeIsDropped();
    RunAppend(s0, a, b);
    var s2 := Composition.Run(s0, a + b);
    LoopReturns(s2, 1);
    RunAppend(s0, a + b, c);
    var s3 := Composition.Run(s0, a + b + c);
    assert s3.pool.loops == map[0 := 0];
    EngineRuns(s3, load);
    LoadUnloads();
    RunAppend(s0, a + b + c, OnEngine(load));
    var s4 := Composition.Run(s0, a + b + c + OnEngine(load));
    LoopReturns(s4, 0);
    RunAppend(s0, a + b + c + OnEngine(load), [Internal(LoopStep(0))]);
    assert s4.pool.loops - {0} == map[];
  }

  // The scheduler keeps answering AVAILABLE, and no background resume has failed.
  ghost predicate StaysAvailable(acts: seq<SysAct>) {
    forall k :: 0 <= k < |acts| ==>
      acts[k].PollBegins? && acts[k].i.reply == Some(GPU_STATE_AVAILABLE) && !acts[k].i.resumeFailed
  }

  lemma {:induction false} NothingIsSent(s: System, polls: seq<SysAct>)
    requires s.waiting.None? && s.listener.lastState == Some(GPU_STATE_AVAILABLE)
    requires !s.listener.failsafeTriggered && StaysAvailable(polls)
    ensures var t := Composition.Run(s, polls);
            t == s.(listener := t.listener) && t.listener.lastState == Some(GPU_STATE_AVAILABLE)
            && !t.listener.failsafeTriggered
    decreases |polls|
  {
    if polls != [] {
      NothingIsSent(Composition.Next(s, polls[0]), polls[1..]);
    }
  }

  /** Under the listener's discipline a pause cannot be lost, but a resume can.  A run from the start with one
      paused engine: AVAILABLE, WINDOW_POST while the engine loads, and AVAILABLE again before the load has
      ended.  The pool comes to rest with no pause asked for and its engine PAUSED, the listener remembers
      AVAILABLE, and however long the scheduler goes on answering AVAILABLE, no resume is tried again. */
  lemma ResumeIsLostForGood(polls: seq<SysAct>)
    requires StaysAvailable(polls)
    ensures var s := Rests(None, false, OnePool(PausedEngine(), map[], 0, 0, false));
            Composition.Init(s)
            && var t := Composition.Run(s, Yields() + Rest() + polls);
               && t.listener.lastState == Some(GPU_STATE_AVAILABLE) && t.cmds == [] && !t.pool.pauseRequested
               && t.pool.engines == [PausedEngine()] && t.pool.loops == map[]
  {
    var s := Rests(None, false, OnePool(PausedEngine(), map[], 0, 0, false));
    YieldsDuringTheLoad();
    RestsPaused();
    RunAppend(s, Yields(), Rest());
    RunAppend(s, Yields() + Rest(), polls);
    NothingIsSent(End(), polls);
  }

  // A yield whose pause takes too long.

  const SLOW := PauseOp(0)

  function Unloads(loaded: bool): Engine {
    In(Unloading, loaded, false, map[SLOW := UnloadDestroy(false, !loaded)], [SLOW])
  }

  lemma ResumeFindsItServing()
    ensures EngineModel.Run(EngineModel.Next(Serving(), CallResume(FIRST)), [Enter(FIRST)]) == Serving()
  {
    var e := In(Running, true, false, map[FIRST := ResumeEntry], [FIRST]);
    assert EngineModel.Next(Serving(), CallResume(FIRST)) == e;
    assert [Enter(FIRST)][1..] == [];
    assert EngineModel.Next(e, Enter(FIRST)) == Serving();
    assert EngineModel.Run(Serving(), []) == Serving();
  }

  lemma PauseStartsUnloading()
    ensures EngineModel.Run(EngineModel.Next(Serving(), CallPause(SLOW, Immediate)),
                            [Act.BeginPause(SLOW), Enter(SLOW)] + [Enter(SLOW), Enter(SLOW)])
            == Unloads(false)
  {
    var e0 := In(Running, true, false, map[SLOW := PauseCall(Immediate)], []);
    var e1 := In(Running, true, false, map[SLOW := PauseEntry(Immediate)], [SLOW]);
    var e2 := In(Unloading, true, false, map[SLOW := UnloadEntry(false)], [SLOW]);
    assert EngineModel.Next(Serving(), CallPause(SLOW, Immediate)) == e0;
    Twice(e0, Act.BeginPause(SLOW), e1, Enter(SLOW), e2);
    Twice(e2, Enter(SLOW), Unloads(true), Enter(SLOW), Unloads(false));
    Join(e0, [Act.BeginPause(SLOW), Enter(SLOW)], e2, [Enter(SLOW), Enter(SLOW)], Unloads(false));
  }

  lemma UnloadEnds()
    ensures EngineModel.Run(Unloads(false), [Enter(SLOW)]) == PausedEngine()
  {
    assert [Enter(SLOW)][1..] == [];
    assert EngineModel.Next(Unloads(false), Enter(SLOW)) == PausedEngine();
    assert EngineModel.Run(PausedEngine(), []) == PausedEngine();
  }

  // A started engine serves, the first poll finds AVAILABLE, and its resume has nothing to do.
  function Settles(): seq<SysAct> {
    OnEngine([CreateOk(StartOp), Enter(StartOp)]) + [Polled(GPU_STATE_AVAILABLE), Start] + OnEngine([Enter(FIRST)])
    + [Internal(LoopStep(0))]
  }

  // Then a yield, up to the moment the listener gives up.
  function SlowYield(): seq<SysAct> {
    [Polled(GPU_STATE_WINDOW_POST), Start]
    + OnEngine([Act.BeginPause(SLOW), Enter(SLOW)] + [Enter(SLOW), Enter(SLOW)]) + [GiveUp]
  }

  // The listener remembers AVAILABLE, and the pause is still unloading.
  function GaveUp(): System {
    Rests(Some(GPU_STATE_AVAILABLE), true, OnePool(Unloads(false), map[], 1, 1, true).(pausing := Some(0)))
  }

  lemma OneStep(s: System, a: SysAct)
    ensures Composition.Run(s, [a]) == Composition.Next(s, a)
  {
    assert [a][1..] == [];
    assert Composition.Run(Composition.Next(s, a), []) == Composition.Next(s, a);
  }

  lemma ServesAvailable()
    ensures Composition.Run(Rests(None, false, OnePool(StartedEngine(), map[], 0, 0, false)), Settles())
            == Rests(Some(GPU_STATE_AVAILABLE), true, OnePool(Serving(), map[], 1, 0, false))
  {
    var s0 := Rests(None, false, OnePool(StartedEngine(), map[], 0, 0, false));
    var start := OnEngine([CreateOk(StartOp), Enter(StartOp)]);
    var poll := [Polled(GPU_STATE_AVAILABLE), Start];
    EngineRuns(s0, [CreateOk(StartOp), Enter(StartOp)]);
    StartServes();
    AvailableStarts(None, Serving(), map[], 0, 0, false);
    RunAppend(s0, start, poll);
    EngineRuns(Composition.Run(s0, start + poll), [Enter(FIRST)]);
    ResumeFindsItServing();
    RunAppend(s0, start + poll, OnEngine([Enter(FIRST)]));
    LoopReturns(Composition.Run(s0, start + poll + OnEngine([Enter(FIRST)])), 0);
    RunAppend(s0, start + poll + OnEngine([Enter(FIRST)]), [Internal(LoopStep(0))]);
    assert map[0 := 0] - {0} == map[];
  }

  lemma SlowYieldIsGivenUp()
    ensures Composition.Run(Rests(Some(GPU_STATE_AVAILABLE), true, OnePool(Serving(), map[], 1, 0, false)), SlowYield())
            == GaveUp()
  {
    var s0 := Rests(Some(GPU_STATE_AVAILABLE), true, OnePool(Serving(), map[], 1, 0, false));
    var poll := [Polled(GPU_STATE_WINDOW_POST), Start];
    var unload := [Act.BeginPause(SLOW), Enter(SLOW)] + [Enter(SLOW), Enter(SLOW)];
    YieldStarts(Serving(), map[], 1);
    EngineRuns(Composition.Run(s0, poll), unload);
    PauseStartsUnloading();
    RunAppend(s0, poll, OnEngine(unload));
    OneStep(Composition.Run(s0, poll + OnEngine(unload)), GiveUp);
    RunAppend(s0, poll + OnEngine(unload), [GiveUp]);
  }

  lemma SlowPauseEnds(s: System)
    requires s.pool == GaveUp().pool && s.waiting.None? && !s.pauseDone
    ensures Composition.Run(s, OnEngine([Enter(SLOW)]) + [PauseReturns])
            == s.(pool := OnePool(PausedEngine(), map[], 1, 1, true))
  {
    EngineRuns(s, [Enter(SLOW)]);
    UnloadEnds();
    OneStep(Composition.Run(s, OnEngine([Enter(SLOW)])), PauseReturns);
    RunAppend(s, OnEngine([Enter(SLOW)]), [PauseReturns]);
  }

  /** A pause that the listener gives up on takes effect later all the same, and then no resume follows it.  A
      run from the start with one engine: AVAILABLE, then WINDOW_POST, whose pause takes too long, then
      AVAILABLE for as long as one likes, before and after the pause returns.  The listener has remembered
      AVAILABLE throughout, so it sends nothing, and the engine ends PAUSED with _pause_requested set. */
  lemma SlowYieldIsForgotten(before: seq<SysAct>, after: seq<SysAct>)
    requires StaysAvailable(before) && StaysAvailable(after)
    ensures var s := Rests(None, false, OnePool(StartedEngine(), map[], 0, 0, false));
            var ends := OnEngine([Enter(SLOW)]) + [PauseReturns];
            Composition.Init(s)
            && var t := Composition.Run(s, Settles() + SlowYield() + before + ends + after);
               && t.listener.lastState == Some(GPU_STATE_AVAILABLE) && t.cmds == [] && t.waiting.None?
               && t.pool.engines == [PausedEngine()] && t.pool.loops == map[] && t.pool.pauseRequested
  {
    var s := Rests(None, false, OnePool(StartedEngine(), map[], 0, 0, false));
    var ends := OnEngine([Enter(SLOW)]) + [PauseReturns];
    var early := Settles() + SlowYield();
    ServesAvailable();
    SlowYieldIsGivenUp();
    RunAppend(s, Settles(), SlowYield());
    RunAppend(s, early, before);
    NothingIsSent(GaveUp(), before);
    SlowPauseEnds(Composition.Run(s, early + before));
    RunAppend(s, early + before, ends);
    NothingIsSent(Composition.Run(s, early + before + ends), after);
    RunAppend(s, early + before + ends, after);
  }
}
