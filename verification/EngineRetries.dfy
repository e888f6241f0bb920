/** The attempts of a reload: a failed one is tried again, twice. */
module EngineRetries {
  import opened Wrappers
  import opened EngineModel
  import opened EngineLifecycle
  import opened EngineCommands

  /** A failed creation leaves the engine on its way up if and only if it was a reload's first or second
      attempt; then the next attempt follows it, after another wait for the VRAM. */
  lemma FailedAttemptIsRetried(e: Engine, id: OpId)
    requires Inv(e) && Rising(e) && id in e.t.ops && e.t.ops[id].Creating?
    ensures var Creating(first, attempt) := e.t.ops[id];
            var e' := Next(e, CreateFail(id));
            && (Rising(e') <==> !first && attempt < 3)
            && (Rising(e') ==> e'.t.ops[id] == WaitVram(attempt + 1) && e'.f == e.f)
  {
    var l, u :| CoreOf(e, l, u);
    assert IsLoader(e.t.ops[id]);
    var e' := Next(e, CreateFail(id));
    assert id in e'.t.ops;
  }

  // How many creations fail along the run.
  function Failures(e: Engine, acts: seq<Act>): nat
    decreases |acts|
  {
    if acts == [] then 0
    else (if acts[0].CreateFail? && Enabled(e, acts[0]) then 1 else 0) + Failures(Next(e, acts[0]), acts[1..])
  }

  predicate NoPauses(acts: seq<Act>) {
    forall i :: 0 <= i < |acts| ==> !acts[i].CallPause?
  }

  // The engine serves, or is in a reload of which `failed` attempts have failed.
  ghost predicate Reloads(e: Engine, failed: nat) {
    && Rising(e) && !e.f.state.Unloading? && !LoadGivenUp(e)
    && forall o :: o in e.t.ops ==>
         match e.t.ops[o]
         case WaitVram(attempt) => attempt == failed + 1
         case Creating(first, attempt) => !first && attempt == failed + 1
         case _ => true
  }

  lemma EnterKeepsReloads(e: Engine, failed: nat, id: OpId)
    requires Inv(e) && Reloads(e, failed) && HasLock(e.t, id)
    ensures Reloads(EnterLock(e, id), failed)
  {
    EnterKeepsRising(e, id);
    var l, u :| CoreOf(e, l, u);
    assert IsUnloader(e.t.ops[id]) ==> u == Some(id);
  }

  lemma FailKeepsReloads(e: Engine, failed: nat, id: OpId)
    requires Inv(e) && Reloads(e, failed) && id in e.t.ops && e.t.ops[id].Creating?
    ensures var e' := Next(e, CreateFail(id));
            if failed < 2 then Reloads(e', failed + 1) else LoadGivenUp(e')
  {
    FailedAttemptIsRetried(e, id);
    FailKeepsRising(e, id);
    var l, u :| CoreOf(e, l, u);
    assert IsLoader(e.t.ops[id]);
  }

  lemma NextKeepsReloads(e: Engine, failed: nat, a: Act)
    requires Inv(e) && Reloads(e, failed) && !a.CallPause? && !(a.CreateFail? && Enabled(e, a))
    ensures Reloads(Next(e, a), failed)
  {
    if !Enabled(e, a) {
    } else if a.Enter? {
      EnterKeepsReloads(e, failed, a.id);
    } else {
      NextKeepsRising(e, a);
    }
  }

  lemma {:induction false} RunStaysGivenUp(e: Engine, acts: seq<Act>)
    requires Inv(e) && LoadGivenUp(e)
    ensures LoadGivenUp(Run(e, acts))
    decreases |acts|
  {
    if acts != [] {
      NextKeepsInv(e, acts[0]);
      NextKeepsGivenUp(e, acts[0]);
      RunStaysGivenUp(Next(e, acts[0]), acts[1..]);
    }
  }

  lemma {:induction false} RunKeepsReloads(e: Engine, failed: nat, acts: seq<Act>)
    requires Inv(e) && Reloads(e, failed) && failed < 3 && NoPauses(acts)
    ensures var all := failed + Failures(e, acts);
            if all < 3 then Reloads(Run(e, acts), all) else LoadGivenUp(Run(e, acts))
    decreases |acts|
  {
    if acts != [] {
      var a := acts[0];
      NextKeepsInv(e, a);
      if !(a.CreateFail? && Enabled(e, a)) {
        NextKeepsReloads(e, failed, a);
        RunKeepsReloads(Next(e, a), failed, acts[1..]);
      } else {
        FailKeepsReloads(e, failed, a.id);
        if failed < 2 {
          RunKeepsReloads(Next(e, a), failed + 1, acts[1..]);
        } else {
          RunStaysGivenUp(Next(e, a), acts[1..]);
        }
      }
    }
  }

  // A reload starts: a resume() finds the engine PAUSED, or an unload ends with a resume pending behind it; and
  // no pause is on the engine.
  ghost predicate StartsReload(e: Engine, id: OpId) {
    && HasLock(e.t, id) && !LoadGivenUp(e) && (forall o :: o in e.t.ops ==> !IsPause(e.t.ops[o]))
    && match e.t.ops[id] {
         case ResumeEntry => e.f.state.Paused?
         case UnloadDestroy(_, released) => released && e.f.pendingResume
         case _ => false
       }
  }

  lemma ReloadStarts(e: Engine, id: OpId)
    requires Inv(e) && StartsReload(e, id)
    ensures Reloads(Next(e, Enter(id)), 0)
  {
    var l, u :| CoreOf(e, l, u);
  }

  /** A reload that nobody pauses survives two failed attempts and no more: over any run it is given up if and
      only if its creation has failed three times, and until then the engine is on its way up, and RUNNING once
      nothing is left to do on it. */
  lemma ReloadSurvivesTwoFailures(e: Engine, id: OpId, acts: seq<Act>)
    requires Inv(e) && StartsReload(e, id) && NoPauses(acts)
    ensures var e1 := Next(e, Enter(id));
            var end := Run(e1, acts);
            && (LoadGivenUp(end) <==> Failures(e1, acts) >= 3)
            && (Failures(e1, acts) <= 2 ==> Rising(end) && (Quiet(end) ==> end.f.state.Running? && end.f.loaded))
  {
    var e1 := Next(e, Enter(id));
    NextKeepsInv(e, Enter(id));
    ReloadStarts(e, id);
    RunKeepsReloads(e1, 0, acts);
    RunKeepsInv(e1, acts);
    if Quiet(Run(e1, acts)) && Failures(e1, acts) <= 2 {
      RestsAccordingly(Run(e1, acts));
    }
  }
}
