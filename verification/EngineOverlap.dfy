/** What a pause achieves when earlier pauses are still on their way: the caller may have given up waiting
    for them, and they go on regardless. */
module EngineOverlap {
  import opened Sidecar
  import opened EngineModel
  import opened EngineLifecycle
  import opened EngineCommands

  /** The engine is not RUNNING, and nothing on it will make it so unless resume() is called again: a load
      is bound to unload, and an unload has no resume pending behind it. */
  ghost predicate Sinking(e: Engine) {
    !e.f.state.Running? && !e.f.pendingResume && LoadDoomed(e) && NoResumeWaits(e.t)
  }

  lemma NextKeepsSinking(e: Engine, a: Act)
    requires Inv(e) && Sinking(e) && !a.CallResume?
    ensures Sinking(Next(e, a))
  {
    if a.Enter? && Enabled(e, a) {
      EnterKeepsLoadDoomed(e, a.id);
      GoKeepsNoResumeWaits(e.t, a.id, Section(e.f, e.t.ops[a.id]).1);
    }
  }

  lemma SinkingAtRest(e: Engine)
    requires Inv(e) && Sinking(e) && Quiet(e)
    ensures (e.f.state.Paused? || e.f.state.Stopped?) && !e.f.loaded
  {
    var l, u :| CoreOf(e, l, u);
  }

  /** The step loses the pause: it gets the lock while the engine is UNLOADING with a resume pending, and
      returns at once; the unload then loads again. */
  predicate Loses(e: Engine, pause: OpId, a: Act) {
    a == Enter(pause) && HasLock(e.t, pause) && e.t.ops[pause].PauseEntry?
    && e.f.state.Unloading? && e.f.pendingResume
  }

  // How far the pause has got, and what it has achieved by then.
  ghost predicate HeldAt(e: Engine, pause: OpId, pc: Pc) {
    match pc
    case PauseCall(_) => true
    case PauseEntry(_) => ResumesFirst(e.t, pause)
    case Draining => Falling(e)
    case PauseMid(_) => Falling(e)
    case UnloadEntry(_) => Sinking(e)
    case UnloadDestroy(_, _) => Sinking(e)
    case _ => false
  }

  // The pause is on its way, or has made the engine sink.
  ghost predicate Held(e: Engine, pause: OpId) {
    if pause in e.t.ops then HeldAt(e, pause, e.t.ops[pause]) else Sinking(e)
  }

  // The pause's own lock sections.
  lemma PauseKeepsHeld(e: Engine, pause: OpId)
    requires Inv(e) && Held(e, pause) && HasLock(e.t, pause) && !Loses(e, pause, Enter(pause))
    ensures Held(EnterLock(e, pause), pause)
  {
    var l, u :| CoreOf(e, l, u);
    if !e.t.ops[pause].PauseEntry? {
      EnterKeepsLoadDoomed(e, pause);
      GoKeepsNoResumeWaits(e.t, pause, Section(e.f, e.t.ops[pause]).1);
    }
  }

  lemma OtherKeepsHeld(e: Engine, pause: OpId, id: OpId)
    requires Inv(e) && Held(e, pause) && pause in e.t.ops && HasLock(e.t, id) && id != pause
    ensures Held(EnterLock(e, id), pause)
  {
    var pc := e.t.ops[pause];
    if pc.PauseEntry? {
      GoKeepsResumesFirst(e.t, id, Section(e.f, e.t.ops[id]).1, pause);
    } else if pc.Draining? || pc.PauseMid? {
      EnterKeepsFalling(e, id);
    } else if !pc.PauseCall? {
      NextKeepsSinking(e, Enter(id));
    }
  }

  // A step outside the lock sections.
  lemma MoveKeepsHeld(e: Engine, pause: OpId, a: Act)
    requires Inv(e) && Held(e, pause) && pause in e.t.ops && Enabled(e, a)
    requires !a.Enter? && !a.CallResume?
    ensures Held(Next(e, a), pause)
  {
    var pc := e.t.ops[pause];
    if pc.Draining? || pc.PauseMid? {
      NextKeepsFalling(e, a);
    } else if pc.UnloadEntry? || pc.UnloadDestroy? {
      NextKeepsSinking(e, a);
    }
  }

  lemma NextKeepsHeld(e: Engine, pause: OpId, a: Act)
    requires Inv(e) && Held(e, pause) && !a.CallResume? && (a.CallPause? ==> a.id != pause) && !Loses(e, pause, a)
    ensures Held(Next(e, a), pause)
  {
    if !Enabled(e, a) {
    } else if pause !in e.t.ops {
      NextKeepsSinking(e, a);
    } else if !a.Enter? {
      MoveKeepsHeld(e, pause, a);
    } else if a.id == pause {
      PauseKeepsHeld(e, pause);
    } else {
      OtherKeepsHeld(e, pause, a.id);
    }
  }

  lemma PauseSets(e: Engine, pause: OpId, u: Urgency)
    requires Inv(e) && pause !in e.t.ops
    ensures Held(Next(e, CallPause(pause, u)), pause)
  {
  }

  /** When a pause returns it has made the engine sink if and only if the step it returns by does not lose
      it. */
  lemma ReturnedPauseSinks(e: Engine, pause: OpId, a: Act)
    requires Inv(e) && Held(e, pause) && !a.CallResume?
    requires pause in e.t.ops && pause !in Next(e, a).t.ops
    ensures Sinking(Next(e, a)) <==> !Loses(e, pause, a)
  {
    if !Loses(e, pause, a) {
      NextKeepsHeld(e, pause, a);
    }
  }

  // Along the run nothing calls resume() or reuses the pause's coroutine, and no step loses the pause.
  ghost predicate Kept(e: Engine, pause: OpId, acts: seq<Act>)
    decreases |acts|
  {
    acts == [] || (!acts[0].CallResume? && (acts[0].CallPause? ==> acts[0].id != pause) && !Loses(e, pause, acts[0])
                   && Kept(Next(e, acts[0]), pause, acts[1..]))
  }

  /** A pause called on an engine in any state, with any other pauses, loads, unloads and waiting resumes on
      it: if it is not lost and resume() is not called meanwhile, the engine sinks by the time it returns,
      and goes on sinking. */
  lemma {:induction false} HeldPauseSinks(e: Engine, pause: OpId, acts: seq<Act>)
    requires Inv(e) && Held(e, pause) && Kept(e, pause, acts)
    ensures Held(Run(e, acts), pause)
    ensures pause !in Run(e, acts).t.ops ==> Sinking(Run(e, acts))
    decreases |acts|
  {
    if acts != [] {
      NextKeepsInv(e, acts[0]);
      NextKeepsHeld(e, pause, acts[0]);
      HeldPauseSinks(Next(e, acts[0]), pause, acts[1..]);
    }
  }
}
