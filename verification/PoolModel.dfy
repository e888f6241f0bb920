/** N engines behind one EnginePool in multi_instance mode: pool-wide pauses, sequential resume loops,
    and the _pause_requested flag between them. */
module PoolModel {
  import opened Wrappers
  import opened Sidecar
  import opened EngineModel

  datatype Pool = Pool(
    engines: seq<Engine>,
    pauseRequested: bool,
    loops: map<nat, nat>,    // resume() calls in progress, and the engine each one awaits
    nextLoop: nat,
    pausing: Option<nat>,    // the latest pause() call, until it returns or a resume() follows it
    nextPause: nat)

  datatype PoolAct =
    | BeginPause(u: Urgency)          // pause() up to its gather
    | EndPause                        // the gather of pause() returns
    | RequestPause                    // request_pause()
    | BeginResume                     // resume() up to its first await
    | LoopStep(r: nat)                // e.resume() returned: the next iteration of a resume loop
    | EngineStep(i: nat, a: Act)      // a coroutine or request of engine i goes on

  predicate IsCall(a: Act) {
    a.CallPause? || a.CallResume?
  }

  predicate PauseDone(p: Pool) {
    p.pausing.Some? && forall i :: 0 <= i < |p.engines| ==> PauseOp(p.pausing.value) !in p.engines[i].t.ops
  }

  // The caller has waited for the pause in progress before it gives the next command.
  predicate InTurn(p: Pool, a: PoolAct) {
    a.BeginPause? || a.BeginResume? ==> p.pausing.None?
  }

  predicate Enabled(p: Pool, a: PoolAct) {
    match a
    case BeginPause(_) => true
    case EndPause => PauseDone(p)
    case RequestPause => true
    case BeginResume => true
    case LoopStep(r) =>
      r in p.loops && p.loops[r] < |p.engines| && ResumeOp(r) !in p.engines[p.loops[r]].t.ops
    case EngineStep(i, ea) => i < |p.engines| && !IsCall(ea)
  }

  function CallPauses(es: seq<Engine>, id: OpId, u: Urgency): (r: seq<Engine>)
    ensures |r| == |es| && forall i :: 0 <= i < |es| ==> r[i] == EngineModel.Next(es[i], CallPause(id, u))
  {
    seq(|es|, i requires 0 <= i < |es| => EngineModel.Next(es[i], CallPause(id, u)))
  }

  // One iteration of the resume loop r, at engine i.
  function Iterate(p: Pool, r: nat, i: nat): Pool {
    if i < |p.engines| && !p.pauseRequested
    then p.(engines := p.engines[i := EngineModel.Next(p.engines[i], CallResume(ResumeOp(r)))],
            loops := p.loops[r := i])
    else p.(loops := p.loops - {r})
  }

  function Step(p: Pool, a: PoolAct): Pool
    requires Enabled(p, a)
  {
    match a
    case BeginPause(u) =>
      p.(engines := CallPauses(p.engines, PauseOp(p.nextPause), u), pauseRequested := true,
         pausing := Some(p.nextPause), nextPause := p.nextPause + 1)
    case EndPause => p.(pausing := None)
    case RequestPause => p.(pauseRequested := true)
    case BeginResume =>
      Iterate(p.(pauseRequested := false, nextLoop := p.nextLoop + 1, pausing := None), p.nextLoop, 0)
    case LoopStep(r) => Iterate(p, r, p.loops[r] + 1)
    case EngineStep(i, ea) => p.(engines := p.engines[i := EngineModel.Next(p.engines[i], ea)])
  }

  /** One step; an action that is not enabled leaves the pool as it is. */
  function Next(p: Pool, a: PoolAct): Pool {
    if Enabled(p, a) then Step(p, a) else p
  }

  function Run(p: Pool, acts: seq<PoolAct>): Pool
    decreases |acts|
  {
    if acts == [] then p else Run(Next(p, acts[0]), acts[1..])
  }

  // Every command of the run is given in turn.
  predicate AllInTurn(p: Pool, acts: seq<PoolAct>)
    decreases |acts|
  {
    acts == [] || (InTurn(p, acts[0]) && AllInTurn(Next(p, acts[0]), acts[1..]))
  }

  // main(): every engine is being started, or every engine is paused.
  ghost predicate Init(p: Pool) {
    && (|| (forall i :: 0 <= i < |p.engines| ==> p.engines[i] == StartedEngine())
        || (forall i :: 0 <= i < |p.engines| ==> p.engines[i] == PausedEngine()))
    && !p.pauseRequested && p.loops == map[] && p.pausing.None?
  }
}
