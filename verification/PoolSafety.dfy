/** "Mining always wins" at the pool: a pool-wide pause, once done, holds until the next resume. */
module PoolSafety {
  import opened Wrappers
  import opened Sidecar
  import opened EngineModel
  import opened EngineLifecycle
  import opened EngineCommands
  import opened PoolModel

  // Only the pause in progress has coroutines that pause or unload, and none is told to reload.
  ghost predicate KindsOk(e: Engine, pausing: Option<nat>) {
    && (forall id :: id in e.t.ops && id.PauseOp? ==> pausing == Some(id.n))
    && (forall id :: id in e.t.ops ==> (id.PauseOp? <==> IsPause(e.t.ops[id]) || IsUnloader(e.t.ops[id])))
    && !e.f.pendingResume
  }

  // Where the pause op has got to, and what that says about the engine.
  ghost predicate PauseAt(e: Engine, id: OpId, pc: Pc) {
    match pc
    case PauseCall(_) => true
    case PauseEntry(_) => ResumesFirst(e.t, id)
    case Draining => NoResumeWaits(e.t) && e.f.state.Running? && !e.f.accepting
    case PauseMid(timedOut) =>
      NoResumeWaits(e.t) && e.f.state.Running? && !e.f.accepting && (!timedOut ==> e.f.bodies == {})
    case UnloadEntry(drained) => NoResumeWaits(e.t) && (drained ==> e.f.bodies == {})
    case UnloadDestroy(drained, _) => NoResumeWaits(e.t) && (drained ==> e.f.bodies == {})
    case _ => false
  }

  ghost predicate PauseProgress(e: Engine, q: nat) {
    if PauseOp(q) in e.t.ops then PauseAt(e, PauseOp(q), e.t.ops[PauseOp(q)]) else Settled(e)
  }

  ghost predicate EngineOk(e: Engine, pausing: Option<nat>) {
    Inv(e) && KindsOk(e, pausing) && (pausing.Some? ==> PauseProgress(e, pausing.value))
  }

  ghost predicate PoolInv(p: Pool) {
    && (forall i :: 0 <= i < |p.engines| ==> EngineOk(p.engines[i], p.pausing))
    && (p.pausing.Some? ==> p.pauseRequested)
  }

  lemma UnloadIsThePause(e: Engine, pausing: Option<nat>)
    requires Inv(e) && KindsOk(e, pausing) && e.f.state.Unloading?
    ensures pausing.Some? && PauseOp(pausing.value) in e.t.ops && IsUnloader(e.t.ops[PauseOp(pausing.value)])
  {
    var l, u :| CoreOf(e, l, u);
    assert IsUnloader(e.t.ops[u.value]);
  }

  // A resume() that gets the lock never finds an unload: it got in line before the pause.
  lemma ResumeFindsNoUnload(e: Engine, pausing: Option<nat>, id: OpId)
    requires EngineOk(e, pausing) && HasLock(e.t, id) && e.f.state.Unloading?
    ensures !e.t.ops[id].ResumeEntry?
  {
    UnloadIsThePause(e, pausing);
    assert NoResumeWaits(e.t);
  }

  lemma EnterKeepsKinds(e: Engine, pausing: Option<nat>, id: OpId)
    requires EngineOk(e, pausing) && HasLock(e.t, id)
    ensures KindsOk(EnterLock(e, id), pausing)
  {
    if e.f.state.Unloading? {
      ResumeFindsNoUnload(e, pausing, id);
    }
  }

  lemma StepKeepsKinds(e: Engine, pausing: Option<nat>, a: Act)
    requires EngineOk(e, pausing) && !IsCall(a)
    ensures KindsOk(EngineModel.Next(e, a), pausing)
  {
    if EngineModel.Enabled(e, a) && a.Enter? {
      EnterKeepsKinds(e, pausing, a.id);
    }
  }

  // The pause's own lock sections.
  lemma PauseEnters(e: Engine, q: nat)
    requires EngineOk(e, Some(q)) && HasLock(e.t, PauseOp(q))
    ensures PauseProgress(EnterLock(e, PauseOp(q)), q)
  {
    var l, u :| CoreOf(e, l, u);
  }

  // Beside the pause only loads and resumes enter the lock, and a load only while the state says so.
  lemma OthersLoadOrResume(e: Engine, q: nat, id: OpId)
    requires EngineOk(e, Some(q)) && HasLock(e.t, id) && id != PauseOp(q)
    ensures e.t.ops[id].ResumeEntry? || (IsLoader(e.t.ops[id]) && InLoad(e.f))
  {
    var l, u :| CoreOf(e, l, u);
    assert IsLoader(e.t.ops[id]) ==> l == Some(id);
  }

  // Another coroutine's lock section.
  lemma OtherEnters(e: Engine, q: nat, id: OpId)
    requires EngineOk(e, Some(q)) && PauseOp(q) in e.t.ops && HasLock(e.t, id) && id != PauseOp(q)
    ensures PauseProgress(EnterLock(e, id), q)
  {
    var x := Section(e.f, e.t.ops[id]).1;
    OthersLoadOrResume(e, q, id);
    match e.t.ops[PauseOp(q)]
    case PauseCall(_) =>
    case PauseEntry(_) => GoKeepsResumesFirst(e.t, id, x, PauseOp(q));
    case _ => GoKeepsNoResumeWaits(e.t, id, x);
  }

  // A step outside the lock sections while the pause is on its way.
  lemma MoveKeepsProgress(e: Engine, q: nat, a: Act)
    requires EngineOk(e, Some(q)) && PauseOp(q) in e.t.ops && EngineModel.Enabled(e, a)
    requires !IsCall(a) && !a.Enter?
    ensures PauseProgress(EngineModel.Next(e, a), q)
  {
  }

  lemma StepKeepsProgress(e: Engine, q: nat, a: Act)
    requires EngineOk(e, Some(q)) && !IsCall(a)
    ensures PauseProgress(EngineModel.Next(e, a), q)
  {
    if PauseOp(q) !in e.t.ops {
      NextKeepsSettled(e, a);
    } else if EngineModel.Enabled(e, a) {
      if !a.Enter? {
        MoveKeepsProgress(e, q, a);
      } else if a.id == PauseOp(q) {
        PauseEnters(e, q);
      } else {
        OtherEnters(e, q, a.id);
      }
    }
  }

  lemma StepKeepsEngineOk(e: Engine, pausing: Option<nat>, a: Act)
    requires EngineOk(e, pausing) && !IsCall(a)
    ensures EngineOk(EngineModel.Next(e, a), pausing)
  {
    NextKeepsInv(e, a);
    StepKeepsKinds(e, pausing, a);
    if pausing.Some? {
      StepKeepsProgress(e, pausing.value, a);
    }
  }

  // pause() creates its coroutine on the engine.
  lemma CallPauseKeepsEngineOk(e: Engine, q: nat, u: Urgency)
    requires EngineOk(e, None)
    ensures EngineOk(EngineModel.Next(e, CallPause(PauseOp(q), u)), Some(q))
  {
    NextKeepsInv(e, CallPause(PauseOp(q), u));
  }

  // A resume loop calls resume() on the engine; during a pause no loop gets here.
  lemma CallResumeKeepsEngineOk(e: Engine, r: nat)
    requires EngineOk(e, None)
    ensures EngineOk(EngineModel.Next(e, CallResume(ResumeOp(r))), None)
  {
    NextKeepsInv(e, CallResume(ResumeOp(r)));
  }

  lemma EndPauseKeepsEngineOk(e: Engine, q: nat)
    requires EngineOk(e, Some(q)) && PauseOp(q) !in e.t.ops
    ensures EngineOk(e, None) && Settled(e)
  {
  }

  lemma IterateKeepsEngineOk(p: Pool, r: nat, k: nat, i: nat)
    requires PoolInv(p) && i < |p.engines|
    ensures EngineOk(Iterate(p, r, k).engines[i], p.pausing)
  {
    if !p.pauseRequested {
      CallResumeKeepsEngineOk(p.engines[i], r);
    }
  }

  lemma NextKeepsEngineOk(p: Pool, a: PoolAct, i: nat)
    requires PoolInv(p) && PoolModel.Enabled(p, a) && InTurn(p, a) && i < |p.engines|
    ensures EngineOk(PoolModel.Next(p, a).engines[i], PoolModel.Next(p, a).pausing)
  {
    var e := p.engines[i];
    assert EngineOk(e, p.pausing);
    match a
    case BeginPause(u) => CallPauseKeepsEngineOk(e, p.nextPause, u);
    case EndPause => EndPauseKeepsEngineOk(e, p.pausing.value);
    case RequestPause =>
    case BeginResume => IterateKeepsEngineOk(p.(pauseRequested := false, nextLoop := p.nextLoop + 1), p.nextLoop, 0, i);
    case LoopStep(r) => IterateKeepsEngineOk(p, r, p.loops[r] + 1, i);
    case EngineStep(_, ea) => StepKeepsEngineOk(e, p.pausing, ea);
  }

  lemma NextKeepsPoolInv(p: Pool, a: PoolAct)
    requires PoolInv(p) && InTurn(p, a)
    ensures PoolInv(PoolModel.Next(p, a))
  {
    if PoolModel.Enabled(p, a) {
      forall i | 0 <= i < |p.engines| ensures EngineOk(PoolModel.Next(p, a).engines[i], PoolModel.Next(p, a).pausing) {
        NextKeepsEngineOk(p, a, i);
      }
    }
  }

  lemma InitPoolInv(p: Pool)
    requires Init(p)
    ensures PoolInv(p)
  {
    FreshInv(StartedEngine());
    FreshInv(PausedEngine());
    assert StartedEngine().t.ops[StartOp] == Creating(true, 1);
  }

  lemma {:induction false} RunKeepsPoolInv(p: Pool, acts: seq<PoolAct>)
    requires PoolInv(p) && AllInTurn(p, acts)
    ensures PoolInv(PoolModel.Run(p, acts))
    decreases |acts|
  {
    if acts != [] {
      NextKeepsPoolInv(p, acts[0]);
      RunKeepsPoolInv(PoolModel.Next(p, acts[0]), acts[1..]);
    }
  }

  /** The pool has yielded: every engine gives up the GPU or already has, and the resume loops stop. */
  ghost predicate Yielded(p: Pool) {
    p.pauseRequested && forall i :: 0 <= i < |p.engines| ==> Settled(p.engines[i])
  }

  // The engines of a pool, whatever commands overlap on them.
  ghost predicate AllInv(p: Pool) {
    forall i :: 0 <= i < |p.engines| ==> Inv(p.engines[i])
  }

  // The engine of index i takes at most one engine step.
  lemma NextOnEngine(p: Pool, a: PoolAct, i: nat) returns (ea: Option<Act>)
    requires i < |p.engines|
    ensures |PoolModel.Next(p, a).engines| == |p.engines|
    ensures PoolModel.Next(p, a).engines[i]
            == if ea.None? then p.engines[i] else EngineModel.Next(p.engines[i], ea.value)
    ensures ea.Some? && ea.value.CallResume? ==> a.BeginResume? || (a.LoopStep? && !p.pauseRequested)
    ensures ea.Some? && ea.value.CallPause? ==> a.BeginPause? && ea.value.id == PauseOp(p.nextPause)
    ensures ea.Some? && !IsCall(ea.value) ==> a == EngineStep(i, ea.value)
  {
    ea := None;
    if PoolModel.Enabled(p, a) {
      match a
      case BeginPause(u) => ea := Some(CallPause(PauseOp(p.nextPause), u));
      case BeginResume => if i == 0 { ea := Some(CallResume(ResumeOp(p.nextLoop))); }
      case LoopStep(r) => if i == p.loops[r] + 1 && !p.pauseRequested { ea := Some(CallResume(ResumeOp(r))); }
      case EngineStep(k, b) => if i == k { ea := Some(b); }
      case _ =>
    }
  }

  // A step of the engine's own creates no coroutine.
  lemma StepCreatesNothing(e: Engine, a: Act)
    requires !IsCall(a)
    ensures EngineModel.Next(e, a).t.ops.Keys <= e.t.ops.Keys
  {
  }

  lemma NextKeepsAllInv(p: Pool, a: PoolAct)
    requires AllInv(p)
    ensures AllInv(PoolModel.Next(p, a)) && |PoolModel.Next(p, a).engines| == |p.engines|
  {
    forall i | 0 <= i < |p.engines| ensures Inv(PoolModel.Next(p, a).engines[i]) {
      var ea := NextOnEngine(p, a, i);
      if ea.Some? {
        NextKeepsInv(p.engines[i], ea.value);
      }
    }
    if p.engines != [] {
      var ea := NextOnEngine(p, a, 0);
    }
  }

  lemma NextKeepsYielded(p: Pool, a: PoolAct)
    requires AllInv(p) && Yielded(p) && !a.BeginResume?
    ensures Yielded(PoolModel.Next(p, a))
  {
    NextKeepsAllInv(p, a);
    forall i | 0 <= i < |p.engines| ensures Settled(PoolModel.Next(p, a).engines[i]) {
      var ea := NextOnEngine(p, a, i);
      if ea.Some? {
        NextKeepsSettled(p.engines[i], ea.value);
      }
    }
  }

  predicate NoResume(acts: seq<PoolAct>) {
    forall i :: 0 <= i < |acts| ==> !acts[i].BeginResume?
  }

  lemma {:induction false} RunKeepsYielded(p: Pool, acts: seq<PoolAct>)
    requires AllInv(p) && Yielded(p) && NoResume(acts)
    ensures AllInv(PoolModel.Run(p, acts)) && Yielded(PoolModel.Run(p, acts))
    decreases |acts|
  {
    if acts != [] {
      NextKeepsAllInv(p, acts[0]);
      NextKeepsYielded(p, acts[0]);
      RunKeepsYielded(PoolModel.Next(p, acts[0]), acts[1..]);
    }
  }

  // The resume loops of pool p0, and nothing of any other, may still be alive in p, and are asked to stop.
  ghost predicate Halted(p0: Pool, p: Pool) {
    && p.pauseRequested && |p.engines| == |p0.engines|
    && (forall r :: r in p.loops ==> r in p0.loops && p.loops[r] == p0.loops[r])
    && (forall i, n: nat :: 0 <= i < |p.engines| && ResumeOp(n) in p.engines[i].t.ops
                            ==> ResumeOp(n) in p0.engines[i].t.ops)
  }

  lemma NextKeepsHalted(p0: Pool, p: Pool, a: PoolAct)
    requires Halted(p0, p) && !a.BeginResume?
    ensures Halted(p0, PoolModel.Next(p, a))
  {
    var p' := PoolModel.Next(p, a);
    if p.engines != [] {
      var _ := NextOnEngine(p, a, 0);
    }
    forall i, n: nat | 0 <= i < |p.engines| && ResumeOp(n) in p'.engines[i].t.ops
      ensures ResumeOp(n) in p.engines[i].t.ops
    {
      var ea := NextOnEngine(p, a, i);
      if ea.Some? && !IsCall(ea.value) {
        StepCreatesNothing(p.engines[i], ea.value);
      }
    }
  }

  lemma {:induction false} RunKeepsHalted(p0: Pool, p: Pool, acts: seq<PoolAct>)
    requires Halted(p0, p) && NoResume(acts)
    ensures Halted(p0, PoolModel.Run(p, acts))
    decreases |acts|
  {
    if acts != [] {
      NextKeepsHalted(p0, p, acts[0]);
      RunKeepsHalted(p0, PoolModel.Next(p, acts[0]), acts[1..]);
    }
  }

  // Every loop still alive ends at its next iteration, which leaves the engines as they are.
  ghost predicate LoopsEnd(p: Pool) {
    forall r :: PoolModel.Enabled(p, LoopStep(r)) ==> PoolModel.Next(p, LoopStep(r)) == p.(loops := p.loops - {r})
  }

  /** What request_pause() achieves at once, before the pause itself has started: from then on and until
      resume() is called again no engine gets a new resume() coroutine, no resume loop goes on to another
      engine, and each one ends at its next iteration. */
  lemma RequestStopsLoops(p: Pool, acts: seq<PoolAct>)
    requires NoResume(acts)
    ensures var p' := PoolModel.Run(PoolModel.Next(p, RequestPause), acts);
            Halted(p, p') && LoopsEnd(p')
  {
    RunKeepsHalted(p, PoolModel.Next(p, RequestPause), acts);
  }

  // No load is under way on the engine.
  ghost predicate NoLoad(e: Engine) {
    forall id :: id in e.t.ops ==> !IsLoader(e.t.ops[id])
  }

  /** When the loads in flight at the pause have ended, every engine is PAUSED (STOPPED if its first
      load failed) and holds no vLLM object. */
  lemma YieldedAtRest(e: Engine)
    requires Inv(e) && Settled(e) && NoLoad(e)
    ensures (e.f.state.Paused? || e.f.state.Stopped?) && !e.f.loaded
  {
    var l, u :| CoreOf(e, l, u);
  }

  /** What a yield leaves of an engine: not RUNNING or on its way there; a load under way is bound to
      unload again; and without a load, PAUSED (or STOPPED) with no vLLM object. */
  ghost predicate GivenUp(e: Engine) {
    && !e.f.state.Running? && !e.f.state.Unloading? && NoResumeWaits(e.t)
    && (InLoad(e.f) ==> DoomedLoad(e))
    && (NoLoad(e) ==> (e.f.state.Paused? || e.f.state.Stopped?) && !e.f.loaded)
  }

  lemma YieldedGivesUp(p: Pool)
    requires AllInv(p) && Yielded(p)
    ensures forall i :: 0 <= i < |p.engines| ==> GivenUp(p.engines[i])
  {
    forall i | 0 <= i < |p.engines|
      ensures GivenUp(p.engines[i])
    {
      var e := p.engines[i];
      if NoLoad(e) {
        YieldedAtRest(e);
      }
    }
  }

  /** With commands given in turn: once pool.pause() is done, and until resume() is called again, every engine
      of the pool has given up the GPU or is about to, and none is RUNNING; however the run got there: also
      when the pause landed between two engines of a resume loop, in the middle of loads, or with several
      resume loops alive. */
  lemma PoolYieldSafety(p: Pool, before: seq<PoolAct>, after: seq<PoolAct>)
    requires Init(p) && AllInTurn(p, before) && PauseDone(PoolModel.Run(p, before)) && NoResume(after)
    ensures var p1 := PoolModel.Run(PoolModel.Next(PoolModel.Run(p, before), EndPause), after);
            forall i :: 0 <= i < |p1.engines| ==> GivenUp(p1.engines[i])
  {
    InitPoolInv(p);
    RunKeepsPoolInv(p, before);
    var done := PoolModel.Run(p, before);
    var p0 := PoolModel.Next(done, EndPause);
    NextKeepsPoolInv(done, EndPause);
    forall i | 0 <= i < |done.engines| ensures Settled(done.engines[i]) {
      EndPauseKeepsEngineOk(done.engines[i], done.pausing.value);
    }
    RunKeepsYielded(p0, after);
    YieldedGivesUp(PoolModel.Run(p0, after));
  }

  /** A soft yield whose drain did not time out aborts no request: it leaves RUNNING with no request in
      flight, and _destroy_engine finds none. */
  lemma SoftYieldDrains(p: Pool, acts: seq<PoolAct>, i: nat, id: OpId)
    requires Init(p) && AllInTurn(p, acts)
    requires var p1 := PoolModel.Run(p, acts); i < |p1.engines| && id in p1.engines[i].t.ops
    ensures var Engine(f, t) := PoolModel.Run(p, acts).engines[i];
            && (t.ops[id] == PauseMid(false) ==> f.state.Running? && f.active == 0 && f.bodies == {})
            && (t.ops[id] == UnloadEntry(true) ==> f.state.Unloading? && f.active == 0 && f.inflight == {})
            && (t.ops[id] == UnloadDestroy(true, false) ==> f.state.Unloading? && f.active == 0 && f.inflight == {})
  {
    InitPoolInv(p);
    RunKeepsPoolInv(p, acts);
    var p1 := PoolModel.Run(p, acts);
    assert EngineOk(p1.engines[i], p1.pausing);
    var l, u :| CoreOf(p1.engines[i], l, u);
  }
}
