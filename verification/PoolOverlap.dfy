/** Pool-wide pauses that overlap: what the latest one achieves. */
module PoolOverlap {
  import opened Sidecar
  import opened EngineModel
  import opened EngineLifecycle
  import opened EngineOverlap
  import opened PoolModel
  import opened PoolSafety

  // Every pause on an engine was begun, and the one in progress is the latest of them.
  ghost predicate PausesOk(p: Pool) {
    && (forall i, n: nat :: 0 <= i < |p.engines| && PauseOp(n) in p.engines[i].t.ops ==> n < p.nextPause)
    && (p.pausing.Some? ==> p.pausing.value + 1 == p.nextPause)
  }

  lemma NextKeepsPausesOk(p: Pool, a: PoolAct)
    requires PausesOk(p)
    ensures PausesOk(PoolModel.Next(p, a))
  {
    var p' := PoolModel.Next(p, a);
    if p.engines != [] {
      var _ := NextOnEngine(p, a, 0);
    }
    forall i, n: nat | 0 <= i < |p.engines| && PauseOp(n) in p'.engines[i].t.ops
      ensures n < p'.nextPause
    {
      var ea := NextOnEngine(p, a, i);
      if ea.Some? && !IsCall(ea.value) {
        StepCreatesNothing(p.engines[i], ea.value);
      }
    }
  }

  // The latest pause is on its way on every engine, or has made it sink.
  ghost predicate AllHeld(p: Pool) {
    p.pauseRequested && p.nextPause > 0
    && forall i :: 0 <= i < |p.engines| ==> Held(p.engines[i], PauseOp(p.nextPause - 1))
  }

  /** Every engine sinks, and the resume loops stop. */
  ghost predicate AllSinking(p: Pool) {
    p.pauseRequested && forall i :: 0 <= i < |p.engines| ==> Sinking(p.engines[i])
  }

  // The step loses the latest pause on an engine.
  predicate LosesPause(p: Pool, a: PoolAct) {
    a.EngineStep? && a.i < |p.engines| && p.nextPause > 0 && Loses(p.engines[a.i], PauseOp(p.nextPause - 1), a.a)
  }

  lemma NextKeepsAllSinking(p: Pool, a: PoolAct)
    requires AllInv(p) && AllSinking(p) && !a.BeginResume?
    ensures AllSinking(PoolModel.Next(p, a))
  {
    NextKeepsAllInv(p, a);
    forall i | 0 <= i < |p.engines| ensures Sinking(PoolModel.Next(p, a).engines[i]) {
      var ea := NextOnEngine(p, a, i);
      if ea.Some? {
        NextKeepsSinking(p.engines[i], ea.value);
      }
    }
  }

  lemma NextKeepsAllHeld(p: Pool, a: PoolAct)
    requires AllInv(p) && AllHeld(p) && !a.BeginResume? && !a.BeginPause? && !LosesPause(p, a)
    ensures AllHeld(PoolModel.Next(p, a))
  {
    NextKeepsAllInv(p, a);
    forall i | 0 <= i < |p.engines| ensures Held(PoolModel.Next(p, a).engines[i], PauseOp(p.nextPause - 1)) {
      var ea := NextOnEngine(p, a, i);
      if ea.Some? {
        NextKeepsHeld(p.engines[i], PauseOp(p.nextPause - 1), ea.value);
      }
    }
  }

  lemma BeginPauseHolds(p: Pool, u: Urgency)
    requires AllInv(p) && PausesOk(p)
    ensures AllHeld(PoolModel.Next(p, PoolAct.BeginPause(u)))
  {
    forall i | 0 <= i < |p.engines|
      ensures Held(PoolModel.Next(p, PoolAct.BeginPause(u)).engines[i], PauseOp(p.nextPause))
    {
      PauseSets(p.engines[i], PauseOp(p.nextPause), u);
    }
  }

  lemma ReturnedPauseSinksAll(p: Pool)
    requires AllHeld(p) && PausesOk(p) && PauseDone(p)
    ensures AllSinking(p)
  {
  }

  // Commands given in turn never lose a pause.
  lemma InTurnLosesNothing(p: Pool, a: PoolAct)
    requires PoolInv(p)
    ensures !LosesPause(p, a)
  {
    if a.EngineStep? && a.i < |p.engines| {
      assert EngineOk(p.engines[a.i], p.pausing);
    }
  }

  lemma InitIsSound(p: Pool)
    requires Init(p)
    ensures AllInv(p) && PausesOk(p)
  {
    InitPoolInv(p);
    forall i | 0 <= i < |p.engines| ensures Inv(p.engines[i]) {
      assert EngineOk(p.engines[i], p.pausing);
    }
  }
}
