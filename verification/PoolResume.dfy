/** The sequential resume: one load at a time, and in the end every engine serves. */
module PoolResume {
  import opened Wrappers
  import opened Sidecar
  import opened EngineModel
  import opened EngineLifecycle
  import opened EngineCommands
  import opened PoolModel
  import opened PoolSafety
  import opened PoolOverlap

  // An engine with nothing to do that holds no GPU memory, and one that serves.
  ghost predicate Down(e: Engine) {
    Inv(e) && e.t.ops == map[] && e.f.state.Paused? && e.f.accepting
  }

  ghost predicate Up(e: Engine) {
    Inv(e) && e.t.ops == map[] && IsAvailable(e.f)
  }

  // resume() is the only coroutine on the engine, and its load will come up, or the process is about to exit.
  ghost predicate ComingUp(e: Engine, id: OpId) {
    && Inv(e) && e.t.ops.Keys == {id} && e.f.accepting && e.f.pendingPause.None?
    && match e.t.ops[id] {
         case ResumeEntry => e.f.state.Paused?
         case WaitVram(_) => e.f.state.Loading?
         case Creating(first, _) => e.f.state.Loading? && !first
         case LoadEntry(_) => e.f.state.Loading?
         case FailEntry(first) => e.f.state.Loading? && !first
         case Exiting => e.f.state.Paused?
         case _ => false
       }
  }

  lemma StepKeepsDown(e: Engine, a: Act)
    requires Down(e) && !IsCall(a)
    ensures Down(EngineModel.Next(e, a))
  {
    NextKeepsInv(e, a);
  }

  lemma StepKeepsUp(e: Engine, a: Act)
    requires Up(e) && !IsCall(a)
    ensures Up(EngineModel.Next(e, a))
  {
    NextKeepsInv(e, a);
  }

  lemma EnterKeepsComingUp(e: Engine, id: OpId)
    requires ComingUp(e, id) && HasLock(e.t, id)
    ensures Inv(EnterLock(e, id)) ==> ComingUp(EnterLock(e, id), id) || Up(EnterLock(e, id))
  {
    if e.t.ops[id].LoadEntry? {
      assert EnterLock(e, id).t.ops == map[];
    }
  }

  lemma StepKeepsComingUp(e: Engine, id: OpId, a: Act)
    requires ComingUp(e, id) && !IsCall(a)
    ensures ComingUp(EngineModel.Next(e, a), id) || Up(EngineModel.Next(e, a))
  {
    NextKeepsInv(e, a);
    if a.Enter? && EngineModel.Enabled(e, a) {
      assert a.id == id;
      EnterKeepsComingUp(e, id);
    }
  }

  lemma CallStartsComingUp(e: Engine, id: OpId)
    requires Down(e)
    ensures ComingUp(EngineModel.Next(e, CallResume(id)), id)
  {
    NextKeepsInv(e, CallResume(id));
  }

  // Loop r is at engine k: those before serve, this one comes up or serves, the others are down.
  ghost predicate Progress(p: Pool, r: nat, k: nat) {
    && k < |p.engines|
    && (forall i :: 0 <= i < k ==> Up(p.engines[i]))
    && (ComingUp(p.engines[k], ResumeOp(r)) || Up(p.engines[k]))
    && (forall i :: k < i < |p.engines| ==> Down(p.engines[i]))
  }

  ghost predicate Resuming(p: Pool, r: nat) {
    && !p.pauseRequested && p.pausing.None?
    && ((p.loops.Keys == {r} && Progress(p, r, p.loops[r]))
        || (p.loops == map[] && forall i :: 0 <= i < |p.engines| ==> Up(p.engines[i])))
  }

  // No command.
  predicate Undisturbed(a: PoolAct) {
    a.LoopStep? || a.EngineStep?
  }

  // One engine changes within its part.
  lemma UpdateKeepsProgress(p: Pool, r: nat, k: nat, i: nat, e: Engine)
    requires Progress(p, r, k) && i < |p.engines|
    requires if i < k then Up(e) else if i > k then Down(e) else ComingUp(e, ResumeOp(r)) || Up(e)
    ensures Progress(p.(engines := p.engines[i := e]), r, k)
  {
  }

  lemma EngineStepKeepsResuming(p: Pool, r: nat, i: nat, a: Act)
    requires Resuming(p, r) && i < |p.engines| && !IsCall(a)
    ensures Resuming(PoolModel.Next(p, EngineStep(i, a)), r)
  {
    var e := p.engines[i];
    if p.loops == map[] {
      StepKeepsUp(e, a);
    } else {
      if i < p.loops[r] {
        StepKeepsUp(e, a);
      } else if i > p.loops[r] {
        StepKeepsDown(e, a);
      } else if Up(e) {
        StepKeepsUp(e, a);
      } else {
        StepKeepsComingUp(e, ResumeOp(r), a);
      }
      UpdateKeepsProgress(p, r, p.loops[r], i, EngineModel.Next(e, a));
    }
  }

  lemma LoopStepKeepsResuming(p: Pool, r: nat)
    requires Resuming(p, r) && PoolModel.Enabled(p, LoopStep(r))
    ensures Resuming(PoolModel.Next(p, LoopStep(r)), r)
  {
    var k := p.loops[r];
    assert Up(p.engines[k]);
    if k + 1 < |p.engines| {
      CallStartsComingUp(p.engines[k + 1], ResumeOp(r));
    } else {
      assert PoolModel.Next(p, LoopStep(r)).loops == map[];
    }
  }

  lemma {:induction false} RunKeepsResuming(p: Pool, r: nat, acts: seq<PoolAct>)
    requires Resuming(p, r) && forall i :: 0 <= i < |acts| ==> Undisturbed(acts[i])
    ensures Resuming(PoolModel.Run(p, acts), r)
    decreases |acts|
  {
    if acts != [] {
      var a := acts[0];
      if PoolModel.Enabled(p, a) {
        match a
        case LoopStep(q) => LoopStepKeepsResuming(p, r);
        case EngineStep(i, ea) => EngineStepKeepsResuming(p, r, i, ea);
      }
      RunKeepsResuming(PoolModel.Next(p, a), r, acts[1..]);
    }
  }

  /** A resume() of a pool at rest that no command disturbs loads one engine at a time, in any interleaving
      and whichever load attempts fail; and once it has returned, every engine serves. */
  lemma ResumeBringsAllBack(p: Pool, acts: seq<PoolAct>)
    requires p.loops == map[] && p.pausing.None? && forall i :: 0 <= i < |p.engines| ==> Down(p.engines[i])
    requires forall i :: 0 <= i < |acts| ==> Undisturbed(acts[i])
    ensures var p' := PoolModel.Run(PoolModel.Next(p, BeginResume), acts);
            && (forall i, j :: 0 <= i < j < |p'.engines| ==> !InLoad(p'.engines[i].f) || !InLoad(p'.engines[j].f))
            && (p.nextLoop !in p'.loops ==> forall i :: 0 <= i < |p'.engines| ==> IsAvailable(p'.engines[i].f))
  {
    var p1 := PoolModel.Next(p, BeginResume);
    if p.engines != [] {
      CallStartsComingUp(p.engines[0], ResumeOp(p.nextLoop));
    } else {
      assert p1.loops == map[];
    }
    RunKeepsResuming(p1, p.nextLoop, acts);
  }

  // What every run of a pool keeps, whatever commands overlap: no engine is closed but to a pause, and the coroutine a
  // resume loop is about to create on an engine is not there yet.
  ghost predicate Ready(p: Pool) {
    && (forall i :: 0 <= i < |p.engines| ==> p.engines[i].f.accepting || ClosedForAPause(p.engines[i]))
    && (forall i, n: nat :: 0 <= i < |p.engines| && ResumeOp(n) in p.engines[i].t.ops ==> n < p.nextLoop)
    && (forall r :: r in p.loops ==> r < p.nextLoop)
    && (forall r, i :: r in p.loops && p.loops[r] < i < |p.engines| ==> ResumeOp(r) !in p.engines[i].t.ops)
  }

  lemma EngineStepKeepsReady(p: Pool, i: nat, a: Act)
    requires AllInv(p) && Ready(p) && i < |p.engines| && !IsCall(a)
    ensures Ready(PoolModel.Next(p, EngineStep(i, a)))
  {
    NextKeepsOpen(p.engines[i], a);
    StepCreatesNothing(p.engines[i], a);
  }

  lemma IterateKeepsReady(p: Pool, r: nat, k: nat)
    requires AllInv(p) && Ready(p) && r < p.nextLoop
    requires forall i :: k <= i < |p.engines| ==> ResumeOp(r) !in p.engines[i].t.ops
    ensures Ready(Iterate(p, r, k))
  {
    if k < |p.engines| && !p.pauseRequested {
      NextKeepsOpen(p.engines[k], CallResume(ResumeOp(r)));
    }
  }

  lemma CallPausesKeepsReady(p: Pool, u: Urgency)
    requires AllInv(p) && Ready(p)
    ensures Ready(PoolModel.Next(p, PoolAct.BeginPause(u)))
  {
    var p' := PoolModel.Next(p, PoolAct.BeginPause(u));
    forall i | 0 <= i < |p.engines|
      ensures p'.engines[i].f.accepting || ClosedForAPause(p'.engines[i])
      ensures forall n :: ResumeOp(n) in p'.engines[i].t.ops <==> ResumeOp(n) in p.engines[i].t.ops
    {
      NextKeepsOpen(p.engines[i], CallPause(PauseOp(p.nextPause), u));
    }
  }

  lemma NextKeepsReady(p: Pool, a: PoolAct)
    requires AllInv(p) && Ready(p)
    ensures Ready(PoolModel.Next(p, a))
  {
    if !PoolModel.Enabled(p, a) { return; }
    match a
    case BeginPause(u) => CallPausesKeepsReady(p, u);
    case BeginResume =>
      IterateKeepsReady(p.(pauseRequested := false, nextLoop := p.nextLoop + 1, pausing := None), p.nextLoop, 0);
    case LoopStep(r) => IterateKeepsReady(p, r, p.loops[r] + 1);
    case EngineStep(i, ea) => EngineStepKeepsReady(p, i, ea);
    case _ =>
  }

  lemma {:induction false} RunKeepsReady(p: Pool, acts: seq<PoolAct>)
    requires AllInv(p) && Ready(p)
    ensures AllInv(PoolModel.Run(p, acts)) && Ready(PoolModel.Run(p, acts))
    decreases |acts|
  {
    if acts != [] {
      NextKeepsAllInv(p, acts[0]);
      NextKeepsReady(p, acts[0]);
      RunKeepsReady(PoolModel.Next(p, acts[0]), acts[1..]);
    }
  }

  // No pause is on the engine, and it serves, is PAUSED, or is in a load that will come up.
  ghost predicate Able(e: Engine) {
    && e.f.accepting && e.f.pendingPause.None?
    && (forall o :: o in e.t.ops ==> !IsPause(e.t.ops[o]))
    && (forall o :: o in e.t.ops && IsLoader(e.t.ops[o]) ==> !Doomed(e.f, e.t.ops[o]))
    && (e.f.state.Running? || InLoad(e.f) || e.f.state.Paused?)
  }

  ghost predicate Hopeful(e: Engine) {
    Inv(e) && (Able(e) || LoadGivenUp(e))
  }

  // It is not PAUSED, or its load is given up.
  ghost predicate Raised(e: Engine) {
    !e.f.state.Paused? || LoadGivenUp(e)
  }

  // Or the coroutine id is about to raise it.
  ghost predicate Called(e: Engine, id: OpId) {
    Hopeful(e) && (Raised(e) || (id in e.t.ops && e.t.ops[id].ResumeEntry?))
  }

  lemma EnterKeepsAble(e: Engine, id: OpId)
    requires Inv(e) && Able(e) && HasLock(e.t, id)
    ensures Able(EnterLock(e, id))
    ensures !e.f.state.Paused? || e.t.ops[id].ResumeEntry? ==> !EnterLock(e, id).f.state.Paused?
  {
    var l, u :| CoreOf(e, l, u);
    assert IsLoader(e.t.ops[id]) ==> l == Some(id);
  }

  // A failed attempt is tried again, or the load is given up.
  lemma FailKeepsAble(e: Engine, id: OpId)
    requires Inv(e) && Able(e)
    ensures var e' := EngineModel.Next(e, CreateFail(id));
            (Able(e') && e'.f.state == e.f.state) || LoadGivenUp(e')
  {
    if EngineModel.Enabled(e, CreateFail(id)) {
      assert id in EngineModel.Next(e, CreateFail(id)).t.ops;
    }
  }

  lemma StepKeepsHopeful(e: Engine, a: Act)
    requires Hopeful(e) && !IsCall(a)
    ensures Hopeful(EngineModel.Next(e, a))
    ensures Raised(e) ==> Raised(EngineModel.Next(e, a))
  {
    NextKeepsInv(e, a);
    if LoadGivenUp(e) {
      NextKeepsGivenUp(e, a);
    } else if EngineModel.Enabled(e, a) {
      if a.Enter? {
        EnterKeepsAble(e, a.id);
      } else if a.CreateFail? {
        FailKeepsAble(e, a.id);
      }
    }
  }

  lemma StepKeepsCalled(e: Engine, id: OpId, a: Act)
    requires Called(e, id) && !IsCall(a)
    ensures Called(EngineModel.Next(e, a), id)
  {
    StepKeepsHopeful(e, a);
    if !Raised(e) && a.Enter? && EngineModel.Enabled(e, a) {
      EnterKeepsAble(e, a.id);
    }
  }

  lemma CallKeepsHopeful(e: Engine, id: OpId, other: OpId, next: Engine)
    requires Hopeful(e) && next == EngineModel.Next(e, CallResume(id))
    ensures Hopeful(next) && (Raised(e) ==> Raised(next))
    ensures id !in e.t.ops ==> Called(next, id)
    ensures Called(e, other) ==> Called(next, other)
  {
    NextKeepsInv(e, CallResume(id));
    if LoadGivenUp(e) {
      NextKeepsGivenUp(e, CallResume(id));
    }
  }

  // Loop r has been at the engines before k, awaits engine k, and no pause is asked for.
  ghost predicate Serving(p: Pool, r: nat) {
    && !p.pauseRequested && p.pausing.None?
    && (forall i :: 0 <= i < |p.engines| ==> Hopeful(p.engines[i]))
    && (if r in p.loops
        then && p.loops[r] < |p.engines|
             && Called(p.engines[p.loops[r]], ResumeOp(r))
             && (forall i :: 0 <= i < p.loops[r] ==> Raised(p.engines[i]))
        else forall i :: 0 <= i < |p.engines| ==> Raised(p.engines[i]))
  }

  // Engine k changes, and loops other than r.
  lemma UpdateKeepsServing(p: Pool, r: nat, k: nat, e: Engine, loops: map<nat, nat>)
    requires Serving(p, r) && k < |p.engines| && Hopeful(e)
    requires Raised(p.engines[k]) ==> Raised(e)
    requires Called(p.engines[k], ResumeOp(r)) ==> Called(e, ResumeOp(r))
    requires (r in loops <==> r in p.loops) && (r in loops ==> loops[r] == p.loops[r])
    ensures Serving(p.(engines := p.engines[k := e], loops := loops), r)
  {
  }

  lemma EngineStepKeepsServing(p: Pool, r: nat, i: nat, a: Act)
    requires Serving(p, r) && i < |p.engines| && !IsCall(a)
    ensures Serving(PoolModel.Next(p, EngineStep(i, a)), r)
  {
    var e := p.engines[i];
    StepKeepsHopeful(e, a);
    if Called(e, ResumeOp(r)) {
      StepKeepsCalled(e, ResumeOp(r), a);
    }
    UpdateKeepsServing(p, r, i, EngineModel.Next(e, a), p.loops);
  }

  // Loop r goes on with engine k.
  lemma AdvanceKeepsServing(p: Pool, r: nat, k: nat, e: Engine)
    requires Serving(p, r) && r in p.loops && k == p.loops[r] + 1 < |p.engines|
    requires Raised(p.engines[k - 1]) && Called(e, ResumeOp(r))
    ensures Serving(p.(engines := p.engines[k := e], loops := p.loops[r := k]), r)
  {
  }

  // Loop q returns; if it is loop r, every engine has had its turn.
  lemma ReturnKeepsServing(p: Pool, r: nat, q: nat)
    requires Serving(p, r)
    requires q == r && r in p.loops ==> p.loops[r] + 1 == |p.engines| && Raised(p.engines[p.loops[r]])
    ensures Serving(p.(loops := p.loops - {q}), r)
  {
  }

  // An iteration that calls resume() on an engine, and one that does not.
  lemma IterationIs(p: Pool, q: nat) returns (next: Option<Engine>)
    requires PoolModel.Enabled(p, LoopStep(q)) && !p.pauseRequested
    ensures var k := p.loops[q] + 1;
            if k < |p.engines|
            then && next == Some(EngineModel.Next(p.engines[k], CallResume(ResumeOp(q))))
                 && PoolModel.Next(p, LoopStep(q))
                    == p.(engines := p.engines[k := next.value], loops := p.loops[q := k])
            else next.None? && PoolModel.Next(p, LoopStep(q)) == p.(loops := p.loops - {q})
  {
    var k := p.loops[q] + 1;
    next := if k < |p.engines| then Some(EngineModel.Next(p.engines[k], CallResume(ResumeOp(q)))) else None;
  }

  lemma LoopStepKeepsServing(p: Pool, r: nat, q: nat)
    requires Ready(p) && Serving(p, r) && PoolModel.Enabled(p, LoopStep(q))
    ensures Serving(PoolModel.Next(p, LoopStep(q)), r)
  {
    var k := p.loops[q] + 1;
    var next := IterationIs(p, q);
    if next.None? {
      ReturnKeepsServing(p, r, q);
    } else {
      CallKeepsHopeful(p.engines[k], ResumeOp(q), ResumeOp(r), next.value);
      if q == r {
        AdvanceKeepsServing(p, r, k, next.value);
      } else {
        UpdateKeepsServing(p, r, k, next.value, p.loops[q := k]);
      }
    }
  }

  lemma {:induction false} RunKeepsServing(p: Pool, r: nat, acts: seq<PoolAct>)
    requires AllInv(p) && Ready(p) && Serving(p, r) && forall i :: 0 <= i < |acts| ==> Undisturbed(acts[i])
    ensures Serving(PoolModel.Run(p, acts), r)
    decreases |acts|
  {
    if acts != [] {
      var a := acts[0];
      NextKeepsAllInv(p, a);
      NextKeepsReady(p, a);
      if PoolModel.Enabled(p, a) {
        match a
        case LoopStep(q) => LoopStepKeepsServing(p, r, q);
        case EngineStep(i, ea) => EngineStepKeepsServing(p, r, i, ea);
      }
      RunKeepsServing(PoolModel.Next(p, a), r, acts[1..]);
    }
  }

  // No pause is on its way on the engine: none waits, drains or unloads.
  ghost predicate ClearOfPauses(e: Engine) {
    forall o :: o in e.t.ops ==> !IsPause(e.t.ops[o]) && !IsUnloader(e.t.ops[o])
  }

  // With commands given in turn that is so whenever no pause is in progress.
  lemma InTurnIsClear(p: Pool)
    requires PoolInv(p) && p.pausing.None?
    ensures forall i :: 0 <= i < |p.engines| ==> ClearOfPauses(p.engines[i])
  {
    forall i | 0 <= i < |p.engines| ensures ClearOfPauses(p.engines[i]) {
      assert EngineOk(p.engines[i], None);
    }
  }

  ghost predicate CanResume(e: Engine) {
    ClearOfPauses(e) && !DoomedLoad(e) && !e.f.state.Stopped?
  }

  lemma HopefulUnlessDoomed(e: Engine)
    requires Inv(e) && CanResume(e)
    requires e.f.accepting || ClosedForAPause(e)
    ensures Hopeful(e)
  {
    var l, u :| CoreOf(e, l, u);
    assert l.Some? ==> IsLoader(e.t.ops[l.value]);
  }

  // What a resume leaves of an engine.
  ghost predicate ComesUp(e: Engine) {
    && (((e.f.state.Running? || InLoad(e.f)) && !DoomedLoad(e)) || LoadGivenUp(e))
    && (Quiet(e) ==> IsAvailable(e.f) || e.f.state.Stopped?)
  }

  lemma HopefulComesUp(e: Engine)
    requires Hopeful(e) && Raised(e)
    ensures ComesUp(e)
  {
    var l, u :| CoreOf(e, l, u);
    assert l.Some? ==> IsLoader(e.t.ops[l.value]);
  }

  ghost predicate AllCanResume(p: Pool) {
    forall i :: 0 <= i < |p.engines| ==> CanResume(p.engines[i])
  }

  // resume() starts on engine 0.
  lemma BeginResumeServes(p: Pool)
    requires AllInv(p) && Ready(p) && AllCanResume(p)
    ensures Serving(PoolModel.Next(p, BeginResume), p.nextLoop)
  {
    forall i | 0 <= i < |p.engines| ensures Hopeful(p.engines[i]) {
      HopefulUnlessDoomed(p.engines[i]);
    }
    if p.engines != [] {
      var p1 := PoolModel.Next(p, BeginResume);
      CallKeepsHopeful(p.engines[0], ResumeOp(p.nextLoop), ResumeOp(p.nextLoop), p1.engines[0]);
    }
  }

  /** When resume() takes effect on a pool: in any run, with no pause on its way on any engine, no load that is
      bound to unload and no engine STOPPED, whatever else is going on, other resume loops included, and
      whichever load attempts fail.  Once this resume() has returned, and no command came in between, every
      engine is RUNNING or in a load that will come up, unless a load on it is given up, which leaves it
      STOPPED or ends the process; and with nothing left to do on it it is available, or STOPPED. */
  lemma ResumeTakesEffect(start: Pool, before: seq<PoolAct>, after: seq<PoolAct>)
    requires Init(start) && AllCanResume(PoolModel.Run(start, before))
    requires forall i :: 0 <= i < |after| ==> Undisturbed(after[i])
    ensures var p := PoolModel.Run(start, before);
            var p' := PoolModel.Run(PoolModel.Next(p, BeginResume), after);
            p.nextLoop !in p'.loops ==> forall i :: 0 <= i < |p'.engines| ==> ComesUp(p'.engines[i])
  {
    InitIsSound(start);
    RunKeepsReady(start, before);
    var p := PoolModel.Run(start, before);
    BeginResumeServes(p);
    NextKeepsAllInv(p, BeginResume);
    NextKeepsReady(p, BeginResume);
    var p1 := PoolModel.Next(p, BeginResume);
    RunKeepsServing(p1, p.nextLoop, after);
    var p' := PoolModel.Run(p1, after);
    forall i | 0 <= i < |p'.engines| && p.nextLoop !in p'.loops
      ensures ComesUp(p'.engines[i])
    {
      HopefulComesUp(p'.engines[i]);
    }
  }
}
