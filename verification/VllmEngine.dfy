/** The VLLMEngine object, changed in place.  Each method is the code of one coroutine between two
    awaits, and leaves exactly the state that EngineModel.Next gives. */
module VllmEngineObject {
  import opened Wrappers
  import opened Sidecar
  import opened EngineModel

  class VLLMEngine {
    var state: EngineState
    var engineLoaded: bool                   // self._engine is not None
    var pendingPause: Option<Urgency>
    var pendingResume: bool
    var accepting: bool
    var activeRequests: int
    var inflightRequestIds: set<nat>
    ghost var bodies: set<nat>               // requests inside their try block

    // The coroutines on this engine, and the waiters of its transition lock, first the holder.
    var coroutines: map<OpId, Pc>
    var lockQueue: seq<OpId>

    ghost function Model(): Engine
      reads this
    {
      Engine(Fields(state, engineLoaded, pendingPause, pendingResume, accepting, activeRequests,
                    inflightRequestIds, bodies),
             Tasks(coroutines, lockQueue))
    }

    // An engine of a pool that start_paused() set up.
    constructor StartPaused()
      ensures Model() == PausedEngine()
    {
      state, engineLoaded := Paused, false;
      pendingPause, pendingResume, accepting := None, false, true;
      activeRequests, inflightRequestIds, bodies := 0, {}, {};
      coroutines, lockQueue := map[], [];
    }

    // An engine whose start() has passed its first lock section.
    constructor Start()
      ensures Model() == StartedEngine()
    {
      state, engineLoaded := Starting, false;
      pendingPause, pendingResume, accepting := None, false, true;
      activeRequests, inflightRequestIds, bodies := 0, {}, {};
      coroutines, lockQueue := map[StartOp := Creating(true, 1)], [];
    }

    // Asking for, releasing and leaving the transition lock.

    method AcquireAs(id: OpId, pc: Pc)
      modifies this`coroutines, this`lockQueue
      ensures Tasks(coroutines, lockQueue) == Ask(Tasks(old(coroutines), old(lockQueue)), id, pc)
    {
      coroutines := coroutines[id := pc];
      lockQueue := lockQueue + [id];
    }

    method ReleaseAs(id: OpId, x: Exit)
      requires lockQueue != []
      modifies this`coroutines, this`lockQueue
      ensures Tasks(coroutines, lockQueue) == Go(Tasks(old(coroutines), old(lockQueue)), id, x)
    {
      match x {
        case Stay(pc) =>
          coroutines := coroutines[id := pc];
        case Release(pc) =>
          coroutines, lockQueue := coroutines[id := pc], lockQueue[1..];
        case Requeue(pc) =>
          coroutines, lockQueue := coroutines[id := pc], lockQueue[1..] + [id];
        case Return =>
          coroutines, lockQueue := coroutines - {id}, lockQueue[1..];
      }
    }

    // pause()

    method CallPause(id: OpId, u: Urgency)
      requires id !in coroutines
      modifies this`coroutines
      ensures Model() == Next(old(Model()), Act.CallPause(id, u))
    {
      coroutines := coroutines[id := PauseCall(u)];
    }

    method BeginPause(id: OpId)
      requires id in coroutines && coroutines[id].PauseCall?
      modifies this`coroutines, this`lockQueue
      ensures Model() == Next(old(Model()), Act.BeginPause(id))
    {
      AcquireAs(id, PauseEntry(coroutines[id].u));
    }

    method PauseSection(id: OpId)
      requires HasLock(Model().t, id) && coroutines[id].PauseEntry?
      modifies this
      ensures Model() == Next(old(Model()), Enter(id))
    {
      var urgency := coroutines[id].u;
      if state == Loading || state == Starting {
        pendingPause := Some(urgency);
        ReleaseAs(id, Return);
        return;
      }
      if state != Running {
        ReleaseAs(id, Return);
        return;
      }
      if urgency == Normal {
        accepting := false;
        ReleaseAs(id, Release(Draining));
      } else {
        state := Unloading;
        ReleaseAs(id, Requeue(UnloadEntry(false)));
      }
    }

    // _drain_requests returns.
    method DrainEnded(id: OpId, timedOut: bool)
      requires At(Model().t, id, Draining) && (activeRequests == 0 || timedOut)
      modifies this`coroutines, this`lockQueue
      ensures Model() == Next(old(Model()), DrainEnd(id, timedOut))
    {
      AcquireAs(id, PauseMid(timedOut));
    }

    method DrainedSection(id: OpId)
      requires HasLock(Model().t, id) && coroutines[id].PauseMid?
      modifies this
      ensures Model() == Next(old(Model()), Enter(id))
    {
      if state != Running {
        ReleaseAs(id, Return);
        return;
      }
      state := Unloading;
      ReleaseAs(id, Requeue(UnloadEntry(!coroutines[id].timedOut)));
    }

    // _destroy_engine: into it, up to dropping the vLLM object, and out of it.

    method UnloadSection(id: OpId)
      requires HasLock(Model().t, id) && coroutines[id].UnloadEntry?
      modifies this`coroutines, this`lockQueue
      ensures Model() == Next(old(Model()), Enter(id))
    {
      ReleaseAs(id, Stay(UnloadDestroy(coroutines[id].drained, false)));
    }

    method DropEngine(id: OpId)
      requires HasLock(Model().t, id) && HoldsLock(coroutines[id]) && !coroutines[id].released
      modifies this
      ensures Model() == Next(old(Model()), Enter(id))
    {
      inflightRequestIds := {};
      engineLoaded := false;
      ReleaseAs(id, Stay(if coroutines[id].UnloadDestroy? then UnloadDestroy(coroutines[id].drained, true)
                         else LoadDestroy(coroutines[id].first, true)));
    }

    method FinishUnload(id: OpId)
      requires HasLock(Model().t, id) && coroutines[id].UnloadDestroy? && coroutines[id].released
      modifies this
      ensures Model() == Next(old(Model()), Enter(id))
    {
      accepting := true;
      if pendingResume {
        pendingResume := false;
        state := Loading;
        ReleaseAs(id, Release(WaitVram(1)));
      } else {
        state := Paused;
        ReleaseAs(id, Return);
      }
    }

    // resume()

    method CallResume(id: OpId)
      requires id !in coroutines
      modifies this`coroutines, this`lockQueue
      ensures Model() == Next(old(Model()), Act.CallResume(id))
    {
      AcquireAs(id, ResumeEntry);
    }

    method ResumeSection(id: OpId)
      requires HasLock(Model().t, id) && coroutines[id].ResumeEntry?
      modifies this
      ensures Model() == Next(old(Model()), Enter(id))
    {
      if state == Unloading {
        pendingResume := true;
        ReleaseAs(id, Return);
        return;
      }
      if state != Paused {
        ReleaseAs(id, Return);
        return;
      }
      state := Loading;
      ReleaseAs(id, Release(WaitVram(1)));
    }

    // _do_reload() and the load of start()

    method VramReleased(id: OpId)
      requires id in coroutines && coroutines[id].WaitVram?
      modifies this`coroutines
      ensures Model() == Next(old(Model()), VramFree(id))
    {
      coroutines := coroutines[id := Creating(false, coroutines[id].attempt)];
    }

    method EngineCreated(id: OpId)
      requires id in coroutines && coroutines[id].Creating?
      modifies this`coroutines, this`lockQueue, this`engineLoaded
      ensures Model() == Next(old(Model()), CreateOk(id))
    {
      engineLoaded := true;
      AcquireAs(id, LoadEntry(coroutines[id].first));
    }

    method CreateRaised(id: OpId)
      requires id in coroutines && coroutines[id].Creating?
      modifies this`coroutines, this`lockQueue, this`engineLoaded
      ensures Model() == Next(old(Model()), CreateFail(id))
    {
      var Creating(first, attempt) := coroutines[id];
      if !first && attempt < MAX_ATTEMPTS {
        engineLoaded := false;
        coroutines := coroutines[id := WaitVram(attempt + 1)];
      } else {
        AcquireAs(id, FailEntry(first));
      }
    }

    method LoadedSection(id: OpId)
      requires HasLock(Model().t, id) && coroutines[id].LoadEntry?
      modifies this
      ensures Model() == Next(old(Model()), Enter(id))
    {
      if pendingPause.Some? {
        pendingPause := None;
        ReleaseAs(id, Stay(LoadDestroy(coroutines[id].first, false)));
      } else {
        state := Running;
        ReleaseAs(id, Return);
      }
    }

    method FinishPausedLoad(id: OpId)
      requires HasLock(Model().t, id) && coroutines[id].LoadDestroy? && coroutines[id].released
      modifies this
      ensures Model() == Next(old(Model()), Enter(id))
    {
      state := Paused;
      ReleaseAs(id, Return);
    }

    method FailedSection(id: OpId)
      requires HasLock(Model().t, id) && coroutines[id].FailEntry?
      modifies this
      ensures Model() == Next(old(Model()), Enter(id))
    {
      pendingPause := None;
      if coroutines[id].first {
        state := Stopped;
        ReleaseAs(id, Return);
      } else {
        state := Paused;
        ReleaseAs(id, Release(Exiting));
      }
    }

    // generate() and generate_stream()

    method RequestBegins(r: nat) returns (served: bool)
      requires r !in bodies
      modifies this`activeRequests, this`inflightRequestIds, this`bodies
      ensures served == IsAvailable(old(Model()).f) && Model() == Next(old(Model()), Arrive(r))
    {
      if !(state == Running && accepting) {
        return false;
      }
      activeRequests := activeRequests + 1;
      inflightRequestIds := inflightRequestIds + {r};
      bodies := bodies + {r};
      return true;
    }

    method RequestEnds(r: nat)
      requires r in bodies
      modifies this`activeRequests, this`inflightRequestIds, this`bodies
      ensures Model() == Next(old(Model()), Leave(r))
    {
      activeRequests := activeRequests - 1;
      inflightRequestIds := inflightRequestIds - {r};
      bodies := bodies - {r};
    }
  }
}
