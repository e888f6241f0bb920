/** What a pause or a resume achieves on one engine, whatever else is running on it. */
module EngineCommands {
  import opened Wrappers
  import opened Sidecar
  import opened EngineModel
  import opened EngineLifecycle

  // A load that will unload again, or fail, without the engine ever being RUNNING.
  predicate Doomed(f: Fields, pc: Pc) {
    f.pendingPause.Some? || pc.LoadDestroy? || pc.FailEntry?
  }

  ghost predicate LoadDoomed(e: Engine) {
    forall id :: id in e.t.ops && IsLoader(e.t.ops[id]) ==> Doomed(e.f, e.t.ops[id])
  }

  ghost predicate NoResumeWaits(t: Tasks) {
    forall id :: id in t.queue && id in t.ops ==> !t.ops[id].ResumeEntry?
  }

  // Every resume() that waits for the lock got in line before the pause.
  ghost predicate ResumesFirst(t: Tasks, id: OpId) {
    forall j, k :: 0 <= j < k < |t.queue| && t.queue[j] == id && t.queue[k] in t.ops
                   ==> !t.ops[t.queue[k]].ResumeEntry?
  }

  lemma GoKeepsResumesFirst(t: Tasks, id: OpId, x: Exit, pause: OpId)
    requires t.queue != [] && t.queue[0] == id && id != pause && ResumesFirst(t, pause) && QueueOk(t)
    requires x.Return? || !x.pc.ResumeEntry?
    ensures ResumesFirst(Go(t, id, x), pause)
  {
  }

  /** The engine gives up the GPU, or already has, unless resume() is called again. */
  ghost predicate Settled(e: Engine) {
    && !e.f.state.Running? && !e.f.state.Unloading?
    && LoadDoomed(e)
    && NoResumeWaits(e.t)
  }

  lemma GoKeepsNoResumeWaits(t: Tasks, id: OpId, x: Exit)
    requires NoResumeWaits(t) && t.queue != [] && t.queue[0] == id
    requires x.Return? || !x.pc.ResumeEntry?
    ensures NoResumeWaits(Go(t, id, x))
  {
  }

  lemma EnterKeepsSettled(e: Engine, id: OpId)
    requires Inv(e) && Settled(e) && HasLock(e.t, id)
    ensures Settled(EnterLock(e, id))
  {
    var l, u :| CoreOf(e, l, u);
    assert IsLoader(e.t.ops[id]) ==> l == Some(id);
    assert !IsUnloader(e.t.ops[id]);
  }

  lemma NextKeepsSettled(e: Engine, a: Act)
    requires Inv(e) && Settled(e) && !a.CallResume?
    ensures Settled(Next(e, a))
  {
    if a.Enter? && Enabled(e, a) {
      EnterKeepsSettled(e, a.id);
    }
  }

  // The load under way will not come up RUNNING.
  ghost predicate DoomedLoad(e: Engine) {
    InLoad(e.f) && LoadDoomed(e)
  }

  lemma NextKeepsDoomedLoad(e: Engine, a: Act)
    requires Inv(e) && DoomedLoad(e)
    ensures var f := Next(e, a).f;
            DoomedLoad(Next(e, a)) || ((f.state.Paused? || f.state.Stopped?) && !f.loaded)
  {
    var l, u :| CoreOf(e, l, u);
    assert l.Some? && IsLoader(e.t.ops[l.value]);
    assert a.Enter? && Enabled(e, a) && IsLoader(e.t.ops[a.id]) ==> l == Some(a.id);
    assert forall o :: o in e.t.ops && HoldsLock(e.t.ops[o]) ==> e.t.queue[0] == o;
  }

  // Along the run the load stays doomed until the engine is PAUSED (or its first load failed).
  ghost predicate EndsUnloaded(e: Engine, acts: seq<Act>)
    decreases |acts|
  {
    if DoomedLoad(e) then acts == [] || EndsUnloaded(Next(e, acts[0]), acts[1..])
    else (e.f.state.Paused? || e.f.state.Stopped?) && !e.f.loaded
  }

  lemma {:induction false} DoomedLoadEndsUnloaded(e: Engine, acts: seq<Act>)
    requires Inv(e) && (DoomedLoad(e) || ((e.f.state.Paused? || e.f.state.Stopped?) && !e.f.loaded))
    ensures EndsUnloaded(e, acts)
    decreases |acts|
  {
    if DoomedLoad(e) && acts != [] {
      NextKeepsInv(e, acts[0]);
      NextKeepsDoomedLoad(e, acts[0]);
      DoomedLoadEndsUnloaded(Next(e, acts[0]), acts[1..]);
    }
  }

  /** A pause that gets the lock during STARTING or LOADING makes that load end PAUSED (STOPPED if the
      first load fails), never RUNNING, through all its attempts and whatever else is called. */
  lemma PauseDuringLoadIsHonoured(e: Engine, id: OpId, u: Urgency, acts: seq<Act>)
    requires Inv(e) && InLoad(e.f) && HasLock(e.t, id) && e.t.ops[id] == PauseEntry(u)
    ensures DoomedLoad(Next(e, Enter(id))) && EndsUnloaded(Next(e, Enter(id)), acts)
  {
    NextKeepsInv(e, Enter(id));
    DoomedLoadEndsUnloaded(Next(e, Enter(id)), acts);
  }

  predicate IsPause(pc: Pc) {
    pc.PauseCall? || pc.PauseEntry? || IsSoftPause(pc)
  }

  predicate IsCommand(pc: Pc) {
    IsPause(pc) || pc.ResumeEntry?
  }

  // A soft yield drains on the RUNNING engine.
  ghost predicate Drains(e: Engine) {
    e.f.state.Running? && exists o :: o in e.t.ops && IsSoftPause(e.t.ops[o])
  }

  // No coroutine but id has a command to carry out; loads, unloads and the drains of soft yields may be
  // under way.
  ghost predicate OnlyCommand(e: Engine, id: OpId) {
    forall o :: o in e.t.ops && IsCommand(e.t.ops[o]) ==> o == id || (e.f.state.Running? && IsSoftPause(e.t.ops[o]))
  }

  // The engine is on its way out of RUNNING, or out of it.
  ghost predicate Falling(e: Engine) {
    && LoadDoomed(e)
    && NoResumeWaits(e.t)
    && !e.f.pendingResume
    && (e.f.state.Running? ==> exists o :: o in e.t.ops && IsSoftPause(e.t.ops[o]))
  }

  lemma EnterKeepsLoadDoomed(e: Engine, id: OpId)
    requires Inv(e) && LoadDoomed(e) && HasLock(e.t, id) && !e.f.pendingResume && !e.t.ops[id].ResumeEntry?
    ensures LoadDoomed(EnterLock(e, id)) && !EnterLock(e, id).f.pendingResume
    ensures EnterLock(e, id).f.state.Running? ==> e.f.state.Running?
  {
    var l, u :| CoreOf(e, l, u);
    assert IsLoader(e.t.ops[id]) ==> l == Some(id);
  }

  lemma EnterKeepsFalling(e: Engine, id: OpId)
    requires Inv(e) && Falling(e) && HasLock(e.t, id)
    ensures Falling(EnterLock(e, id))
  {
    var e' := EnterLock(e, id);
    EnterKeepsLoadDoomed(e, id);
    GoKeepsNoResumeWaits(e.t, id, Section(e.f, e.t.ops[id]).1);
    if e'.f.state.Running? {
      var o :| o in e.t.ops && IsSoftPause(e.t.ops[o]);
      assert o in e'.t.ops && IsSoftPause(e'.t.ops[o]);
    }
  }

  lemma NextKeepsFalling(e: Engine, a: Act)
    requires Inv(e) && Falling(e) && !a.CallResume?
    ensures Falling(Next(e, a))
  {
    if !Enabled(e, a) {
    } else if a.Enter? {
      EnterKeepsFalling(e, a.id);
    } else if e.f.state.Running? {
      var o :| o in e.t.ops && IsSoftPause(e.t.ops[o]);
      var t' := Next(e, a).t;
      assert o in t'.ops && IsSoftPause(t'.ops[o]);
    }
  }

  // The engine is on its way to RUNNING, or there.
  ghost predicate Rising(e: Engine) {
    && (forall o :: o in e.t.ops ==> !IsPause(e.t.ops[o]))
    && e.f.pendingPause.None?
    && (forall o :: o in e.t.ops && IsLoader(e.t.ops[o]) ==> !Doomed(e.f, e.t.ops[o]))
    && (e.f.state.Running? || InLoad(e.f) || (e.f.state.Unloading? && e.f.pendingResume))
  }

  // A load is given up: the engine is STOPPED after its first load, or the process is about to exit.
  ghost predicate LoadGivenUp(e: Engine) {
    e.f.state.Stopped? || exists o :: o in e.t.ops && GivesUp(e.t.ops[o])
  }

  // A STOPPED engine has no load and no unload, and nothing starts one.
  lemma NextKeepsStopped(e: Engine, a: Act)
    requires Inv(e) && e.f.state.Stopped?
    ensures Next(e, a).f.state.Stopped?
  {
    var l, u :| CoreOf(e, l, u);
  }

  predicate GivesUp(pc: Pc) {
    pc.FailEntry? || pc.Exiting?
  }

  // A coroutine that gives up a load leaves the engine STOPPED or stays.
  lemma GivingUpStays(e: Engine, o: OpId, a: Act)
    requires o in e.t.ops && GivesUp(e.t.ops[o])
    ensures Next(e, a).f.state.Stopped? || (o in Next(e, a).t.ops && GivesUp(Next(e, a).t.ops[o]))
  {
  }

  lemma NextKeepsGivenUp(e: Engine, a: Act)
    requires Inv(e) && LoadGivenUp(e)
    ensures LoadGivenUp(Next(e, a))
  {
    if e.f.state.Stopped? {
      NextKeepsStopped(e, a);
    } else {
      var o :| o in e.t.ops && GivesUp(e.t.ops[o]);
      GivingUpStays(e, o, a);
    }
  }

  // A failed attempt is tried again, or the load is given up.
  lemma FailKeepsRising(e: Engine, id: OpId)
    requires Inv(e) && Rising(e)
    ensures Rising(Next(e, CreateFail(id))) || LoadGivenUp(Next(e, CreateFail(id)))
  {
    if Enabled(e, CreateFail(id)) {
      var e' := Next(e, CreateFail(id));
      assert id in e'.t.ops;
    }
  }

  lemma EnterKeepsRising(e: Engine, id: OpId)
    requires Inv(e) && Rising(e) && HasLock(e.t, id)
    ensures Rising(EnterLock(e, id))
  {
    var l, u :| CoreOf(e, l, u);
    assert IsLoader(e.t.ops[id]) ==> l == Some(id);
  }

  lemma NextKeepsRising(e: Engine, a: Act)
    requires Inv(e) && Rising(e) && !a.CallPause?
    ensures Rising(Next(e, a)) || LoadGivenUp(Next(e, a))
  {
    if !Enabled(e, a) {
    } else if a.CreateFail? {
      FailKeepsRising(e, a.id);
    } else if a.Enter? {
      EnterKeepsRising(e, a.id);
    }
  }

  // No load is the engine's first, and the first one did not fail.
  predicate NoFirstLoad(e: Engine) {
    !e.f.state.Stopped?
    && forall o :: o in e.t.ops ==>
         match e.t.ops[o]
         case Creating(first, _) => !first
         case LoadEntry(first) => !first
         case LoadDestroy(first, _) => !first
         case FailEntry(first) => !first
         case _ => true
  }

  lemma NextKeepsNoFirstLoad(e: Engine, a: Act)
    requires NoFirstLoad(e)
    ensures NoFirstLoad(Next(e, a))
  {
  }

  predicate NoCommands(acts: seq<Act>) {
    forall i :: 0 <= i < |acts| ==> !acts[i].CallPause? && !acts[i].CallResume?
  }

  predicate NoFailures(acts: seq<Act>) {
    forall i :: 0 <= i < |acts| ==> !acts[i].CreateFail?
  }

  lemma {:induction false} RunKeepsFalling(e: Engine, acts: seq<Act>)
    requires Inv(e) && Falling(e) && NoCommands(acts)
    ensures Falling(Run(e, acts))
    decreases |acts|
  {
    if acts != [] {
      NextKeepsInv(e, acts[0]);
      NextKeepsFalling(e, acts[0]);
      RunKeepsFalling(Next(e, acts[0]), acts[1..]);
    }
  }

  lemma {:induction false} RunKeepsRising(e: Engine, acts: seq<Act>)
    requires Inv(e) && (Rising(e) || LoadGivenUp(e)) && NoCommands(acts)
    ensures Rising(Run(e, acts)) || LoadGivenUp(Run(e, acts))
    decreases |acts|
  {
    if acts != [] {
      NextKeepsInv(e, acts[0]);
      if LoadGivenUp(e) {
        NextKeepsGivenUp(e, acts[0]);
      } else {
        NextKeepsRising(e, acts[0]);
      }
      RunKeepsRising(Next(e, acts[0]), acts[1..]);
    }
  }

  lemma {:induction false} RunKeepsNoFirstLoad(e: Engine, acts: seq<Act>)
    requires NoFirstLoad(e)
    ensures NoFirstLoad(Run(e, acts))
    decreases |acts|
  {
    if acts != [] {
      NextKeepsNoFirstLoad(e, acts[0]);
      RunKeepsNoFirstLoad(Next(e, acts[0]), acts[1..]);
    }
  }

  // Nothing is left to do on the engine.
  predicate Quiet(e: Engine) {
    e.t.ops == map[]
  }

  lemma RestsAccordingly(e: Engine)
    requires Inv(e) && Quiet(e)
    ensures Falling(e) ==> (e.f.state.Paused? || e.f.state.Stopped?) && !e.f.loaded
    ensures Rising(e) ==> e.f.state.Running? && e.f.loaded
  {
    var l, u :| CoreOf(e, l, u);
  }

  // A pause that finds a pending resume changes nothing.
  lemma PauseIsDropped(e: Engine, id: OpId, u: Urgency)
    requires Inv(e) && HasLock(e.t, id) && e.t.ops[id] == PauseEntry(u) && OnlyCommand(e, id)
    requires e.f.state.Unloading? && e.f.pendingResume
    ensures Rising(Next(e, Enter(id))) && NoFirstLoad(Next(e, Enter(id)))
  {
    var l, un :| CoreOf(e, l, un);
  }

  // Any other puts the engine on its way down.
  lemma PauseFalls(e: Engine, id: OpId, u: Urgency)
    requires Inv(e) && HasLock(e.t, id) && e.t.ops[id] == PauseEntry(u) && OnlyCommand(e, id)
    requires !(e.f.state.Unloading? && e.f.pendingResume)
    ensures Falling(Next(e, Enter(id)))
  {
    var l, un :| CoreOf(e, l, un);
    if e.f.state.Running? && u.Normal? {
      assert Next(e, Enter(id)).t.ops[id] == Draining;
    }
  }

  /** "The last command wins" for pause(): with no other command on the engine, whichever load attempts
      fail, the engine comes to rest with its GPU memory released if and only if the pause did not find the
      engine UNLOADING with a resume already queued behind the unload. */
  lemma LastPauseWins(e: Engine, id: OpId, u: Urgency, acts: seq<Act>)
    requires Inv(e) && HasLock(e.t, id) && e.t.ops[id] == PauseEntry(u) && OnlyCommand(e, id)
    requires NoCommands(acts) && Quiet(Run(Next(e, Enter(id)), acts))
    ensures !Run(Next(e, Enter(id)), acts).f.loaded <==> !(e.f.state.Unloading? && e.f.pendingResume)
  {
    var e1 := Next(e, Enter(id));
    NextKeepsInv(e, Enter(id));
    RunKeepsInv(e1, acts);
    if e.f.state.Unloading? && e.f.pendingResume {
      PauseIsDropped(e, id, u);
      RunKeepsRising(e1, acts);
      RunKeepsNoFirstLoad(e1, acts);
    } else {
      PauseFalls(e, id, u);
      RunKeepsFalling(e1, acts);
    }
    RestsAccordingly(Run(e1, acts));
  }

  // A resume that finds a RUNNING engine draining changes nothing.
  lemma ResumeDuringDrain(e: Engine, id: OpId)
    requires Inv(e) && HasLock(e.t, id) && e.t.ops[id] == ResumeEntry && OnlyCommand(e, id) && Drains(e)
    ensures Falling(Next(e, Enter(id)))
  {
    var l, u :| CoreOf(e, l, u);
    var o :| o in e.t.ops && IsSoftPause(e.t.ops[o]);
    assert o in Next(e, Enter(id)).t.ops;
  }

  lemma ResumeRises(e: Engine, id: OpId)
    requires Inv(e) && HasLock(e.t, id) && e.t.ops[id] == ResumeEntry && OnlyCommand(e, id)
    requires !DoomedLoad(e) && !e.f.state.Stopped? && !Drains(e)
    ensures Rising(Next(e, Enter(id)))
  {
    var l, u :| CoreOf(e, l, u);
    if InLoad(e.f) {
      assert IsLoader(e.t.ops[l.value]);
    }
  }

  /** "The last command wins" for resume(): with no other command on the engine, whichever load attempts
      fail, the engine comes to rest serving if and only if the resume did not find a load that is already
      due to unload again (or to be given up), nor a soft yield draining, nor an engine whose first load had
      failed, and no first load still under way fails. */
  lemma LastResumeWins(e: Engine, id: OpId, acts: seq<Act>)
    requires Inv(e) && HasLock(e.t, id) && e.t.ops[id] == ResumeEntry && OnlyCommand(e, id)
    requires NoCommands(acts) && Quiet(Run(Next(e, Enter(id)), acts))
    ensures var end := Run(Next(e, Enter(id)), acts);
            && (end.f.state.Running?
                <==> !DoomedLoad(e) && !Drains(e) && !e.f.state.Stopped? && !end.f.state.Stopped?)
            && (NoFirstLoad(e) ==> !end.f.state.Stopped?)
  {
    var e1 := Next(e, Enter(id));
    NextKeepsInv(e, Enter(id));
    RunKeepsInv(e1, acts);
    if NoFirstLoad(e) {
      NextKeepsNoFirstLoad(e, Enter(id));
      RunKeepsNoFirstLoad(e1, acts);
    }
    if DoomedLoad(e) || e.f.state.Stopped? {
      var l, u :| CoreOf(e, l, u);
      RunKeepsFalling(e1, acts);
    } else if Drains(e) {
      ResumeDuringDrain(e, id);
      RunKeepsFalling(e1, acts);
    } else {
      ResumeRises(e, id);
      RunKeepsRising(e1, acts);
    }
    RestsAccordingly(Run(e1, acts));
  }

  /** A resume called after a pause can be lost: resume() starts a load, a pause arrives during it,
      resume() is called again before it ends, and the engine comes to rest PAUSED. */
  lemma ResumeIsLost()
    ensures var (first, pause, second) := (ResumeOp(0), PauseOp(0), ResumeOp(1));
            var loading := Next(Next(PausedEngine(), CallResume(first)), Enter(first));
            var doomed := Next(Next(Next(loading, CallPause(pause, Immediate)), BeginPause(pause)), Enter(pause));
            var ignored := Next(Next(doomed, CallResume(second)), Enter(second));
            var loaded := Next(Next(ignored, VramFree(first)), CreateOk(first));
            var rest := Next(Next(Next(loaded, Enter(first)), Enter(first)), Enter(first));
            Quiet(rest) && rest.f.state.Paused?
  {
    var first, pause, second := ResumeOp(0), PauseOp(0), ResumeOp(1);
    var f := PausedEngine().f.(state := Loading);
    var loading := Next(Next(PausedEngine(), CallResume(first)), Enter(first));
    assert loading == Engine(f, Tasks(map[first := WaitVram(1)], []));
    var doomed := Next(Next(Next(loading, CallPause(pause, Immediate)), BeginPause(pause)), Enter(pause));
    var g := f.(pendingPause := Some(Immediate));
    assert doomed == Engine(g, loading.t) by { assert doomed.t.ops == loading.t.ops; }
    var ignored := Next(Next(doomed, CallResume(second)), Enter(second));
    assert ignored == doomed by { assert ignored.t.ops == doomed.t.ops; }
    var loaded := Next(Next(ignored, VramFree(first)), CreateOk(first));
    assert loaded == Engine(g.(loaded := true), Tasks(map[first := LoadEntry(false)], [first]));
    var rest := Next(Next(Next(loaded, Enter(first)), Enter(first)), Enter(first));
    assert rest.t.ops == map[];
  }
}
