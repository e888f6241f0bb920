/** One vLLM engine as its coroutines see it: the fields of VLLMEngine, the program counter of
    every coroutine running on it, and the FIFO transition lock.

    asyncio is cooperative, so a step is the code between two awaits.  A coroutine asks for the
    transition lock by appending itself to `queue`; the front of the queue holds it.  */
module EngineModel {
  import opened Wrappers
  import opened Sidecar

  datatype EngineState = Stopped | Starting | Running | Unloading | Paused | Loading

  // The coroutine that runs an operation on the engine.
  datatype OpId = StartOp | ResumeOp(n: nat) | PauseOp(n: nat)

  datatype Pc =
    | PauseCall(u: Urgency)                          // task created, not yet run
    | PauseEntry(u: Urgency)                         // first lock section of pause()
    | Draining                                       // _drain_requests of a soft yield
    | PauseMid(timedOut: bool)                       // second lock section of a soft yield
    | UnloadEntry(drained: bool)                     // third lock section of pause()
    | UnloadDestroy(drained: bool, released: bool)   // inside _destroy_engine, lock held
    | ResumeEntry                                    // lock section of resume()
    | WaitVram(attempt: nat)                         // _wait_for_vram_release
    | Creating(first: bool, attempt: nat)            // _create_engine
    | LoadEntry(first: bool)                         // lock section after a successful load
    | LoadDestroy(first: bool, released: bool)       // inside _destroy_engine, lock held
    | FailEntry(first: bool)                         // lock section after a failed load
    | Exiting                                        // waiting for os._exit

  const MAX_ATTEMPTS := 3

  // The fields of VLLMEngine.
  datatype Fields = Fields(
    state: EngineState,
    loaded: bool,                    // self._engine is not None
    pendingPause: Option<Urgency>,
    pendingResume: bool,
    accepting: bool,
    active: int,                     // self._active_requests
    inflight: set<nat>,              // self._inflight_request_ids
    bodies: set<nat>)                // requests between the += 1 and their finally block

  // The coroutines running on the engine, and the waiters of its transition lock.
  datatype Tasks = Tasks(ops: map<OpId, Pc>, queue: seq<OpId>)

  datatype Engine = Engine(f: Fields, t: Tasks)

  datatype Act =
    | CallPause(id: OpId, u: Urgency)     // asyncio.gather creates its coroutine
    | BeginPause(id: OpId)                // ... and its first step asks for the lock
    | CallResume(id: OpId)                // awaited directly: asks for the lock at once
    | Enter(id: OpId)                     // the lock holder runs up to its next await
    | DrainEnd(id: OpId, timedOut: bool)
    | VramFree(id: OpId)
    | CreateOk(id: OpId)
    | CreateFail(id: OpId)
    | Arrive(r: nat)                      // generate()/generate_stream() enters its body
    | Leave(r: nat)                       // its finally block

  predicate IsLoader(pc: Pc) {
    pc.WaitVram? || pc.Creating? || pc.LoadEntry? || pc.LoadDestroy? || pc.FailEntry?
  }

  predicate IsUnloader(pc: Pc) {
    pc.UnloadEntry? || pc.UnloadDestroy?
  }

  predicate WantsLock(pc: Pc) {
    pc.PauseEntry? || pc.PauseMid? || pc.UnloadEntry? || pc.UnloadDestroy? || pc.ResumeEntry?
    || pc.LoadEntry? || pc.LoadDestroy? || pc.FailEntry?
  }

  predicate HoldsLock(pc: Pc) {
    pc.UnloadDestroy? || pc.LoadDestroy?
  }

  predicate IsAvailable(f: Fields) {
    f.state.Running? && f.accepting
  }

  predicate At(t: Tasks, id: OpId, pc: Pc) {
    id in t.ops && t.ops[id] == pc
  }

  predicate HasLock(t: Tasks, id: OpId) {
    id in t.ops && WantsLock(t.ops[id]) && t.queue != [] && t.queue[0] == id
  }

  // The coroutine goes to pc without touching the lock.
  function Move(t: Tasks, id: OpId, pc: Pc): Tasks {
    Tasks(t.ops[id := pc], t.queue)
  }

  // The coroutine asks for the lock and will continue at pc once it has it.
  function Ask(t: Tasks, id: OpId, pc: Pc): Tasks {
    Tasks(t.ops[id := pc], t.queue + [id])
  }

  // How the lock holder goes on when its section reaches an await or its end.
  datatype Exit =
    | Stay(pc: Pc)      // awaits inside the section
    | Release(pc: Pc)   // leaves the section and goes on without the lock
    | Requeue(pc: Pc)   // leaves the section and asks for the lock again
    | Return            // leaves the section and returns

  function Go(t: Tasks, id: OpId, x: Exit): Tasks
    requires t.queue != []
  {
    match x
    case Stay(pc) => Move(t, id, pc)
    case Release(pc) => Tasks(t.ops[id := pc], t.queue[1..])
    case Requeue(pc) => Tasks(t.ops[id := pc], t.queue[1..] + [id])
    case Return => Tasks(t.ops - {id}, t.queue[1..])
  }

  // The lock sections: what they do to the fields, and how they go on.

  function EnterPause(f: Fields, u: Urgency): (Fields, Exit) {
    if f.state.Loading? || f.state.Starting? then (f.(pendingPause := Some(u)), Return)
    else if !f.state.Running? then (f, Return)
    else if u.Normal? then (f.(accepting := false), Release(Draining))
    else (f.(state := Unloading), Requeue(UnloadEntry(false)))
  }

  function EnterMid(f: Fields, timedOut: bool): (Fields, Exit) {
    if !f.state.Running? then (f, Return)
    else (f.(state := Unloading), Requeue(UnloadEntry(!timedOut)))
  }

  // _destroy_engine up to `self._engine = None`: in-flight ids are aborted and forgotten.
  function Drop(f: Fields): Fields {
    f.(loaded := false, inflight := {})
  }

  function FinishUnload(f: Fields): (Fields, Exit) {
    if f.pendingResume
    then (f.(accepting := true, pendingResume := false, state := Loading), Release(WaitVram(1)))
    else (f.(accepting := true, state := Paused), Return)
  }

  function EnterResume(f: Fields): (Fields, Exit) {
    if f.state.Unloading? then (f.(pendingResume := true), Return)
    else if !f.state.Paused? then (f, Return)
    else (f.(state := Loading), Release(WaitVram(1)))
  }

  function FinishLoad(f: Fields, first: bool): (Fields, Exit) {
    if f.pendingPause.Some? then (f.(pendingPause := None), Stay(LoadDestroy(first, false)))
    else (f.(state := Running), Return)
  }

  function GiveUp(f: Fields, first: bool): (Fields, Exit) {
    if first then (f.(state := Stopped, pendingPause := None), Return)
    else (f.(state := Paused, pendingPause := None), Release(Exiting))
  }

  // What the coroutine at the front of the lock queue does until its next await.
  function Section(f: Fields, pc: Pc): (Fields, Exit)
    requires WantsLock(pc)
  {
    match pc
    case PauseEntry(u) => EnterPause(f, u)
    case PauseMid(timedOut) => EnterMid(f, timedOut)
    case UnloadEntry(drained) => (f, Stay(UnloadDestroy(drained, false)))
    case UnloadDestroy(drained, released) =>
      if !released then (Drop(f), Stay(UnloadDestroy(drained, true))) else FinishUnload(f)
    case ResumeEntry => EnterResume(f)
    case LoadEntry(first) => FinishLoad(f, first)
    case LoadDestroy(first, released) =>
      if !released then (Drop(f), Stay(LoadDestroy(first, true))) else (f.(state := Paused), Return)
    case FailEntry(first) => GiveUp(f, first)
  }

  function EnterLock(e: Engine, id: OpId): Engine
    requires HasLock(e.t, id)
  {
    var (f', x) := Section(e.f, e.t.ops[id]);
    Engine(f', Go(e.t, id, x))
  }

  function LoadFailed(e: Engine, id: OpId, first: bool, attempt: nat): Engine {
    if first || attempt >= MAX_ATTEMPTS then Engine(e.f, Ask(e.t, id, FailEntry(first)))
    else Engine(e.f.(loaded := false), Move(e.t, id, WaitVram(attempt + 1)))
  }

  // Is the coroutine or request that takes the step where the step needs it?
  predicate Enabled(e: Engine, a: Act) {
    match a
    case CallPause(id, _) => id !in e.t.ops
    case BeginPause(id) => id in e.t.ops && e.t.ops[id].PauseCall?
    case CallResume(id) => id !in e.t.ops
    case Enter(id) => HasLock(e.t, id)
    case DrainEnd(id, timedOut) => At(e.t, id, Draining) && (e.f.active == 0 || timedOut)
    case VramFree(id) => id in e.t.ops && e.t.ops[id].WaitVram?
    case CreateOk(id) => id in e.t.ops && e.t.ops[id].Creating?
    case CreateFail(id) => id in e.t.ops && e.t.ops[id].Creating?
    case Arrive(r) => IsAvailable(e.f) && r !in e.f.bodies
    case Leave(r) => r in e.f.bodies
  }

  function Act1(e: Engine, a: Act): Engine
    requires Enabled(e, a)
  {
    match a
    case CallPause(id, u) => Engine(e.f, Move(e.t, id, PauseCall(u)))
    case BeginPause(id) => Engine(e.f, Ask(e.t, id, PauseEntry(e.t.ops[id].u)))
    case CallResume(id) => Engine(e.f, Ask(e.t, id, ResumeEntry))
    case Enter(id) => EnterLock(e, id)
    case DrainEnd(id, timedOut) => Engine(e.f, Ask(e.t, id, PauseMid(timedOut)))
    case VramFree(id) => Engine(e.f, Move(e.t, id, Creating(false, e.t.ops[id].attempt)))
    case CreateOk(id) => Engine(e.f.(loaded := true), Ask(e.t, id, LoadEntry(e.t.ops[id].first)))
    case CreateFail(id) => LoadFailed(e, id, e.t.ops[id].first, e.t.ops[id].attempt)
    case Arrive(r) => Engine(Joined(e.f, r), e.t)
    case Leave(r) => Engine(Left(e.f, r), e.t)
  }

  function Joined(f: Fields, r: nat): Fields {
    f.(active := f.active + 1, inflight := f.inflight + {r}, bodies := f.bodies + {r})
  }

  function Left(f: Fields, r: nat): Fields {
    f.(active := f.active - 1, inflight := f.inflight - {r}, bodies := f.bodies - {r})
  }

  /** One step; an action that is not enabled leaves the engine as it is. */
  function Next(e: Engine, a: Act): Engine {
    if Enabled(e, a) then Act1(e, a) else e
  }

  function Run(e: Engine, acts: seq<Act>): Engine
    decreases |acts|
  {
    if acts == [] then e else Run(Next(e, acts[0]), acts[1..])
  }

  function Fresh(state: EngineState, ops: map<OpId, Pc>): Engine {
    Engine(Fields(state, false, None, false, true, 0, {}, {}), Tasks(ops, []))
  }

  // EnginePool.start: the first load is under way.
  function StartedEngine(): Engine {
    Fresh(Starting, map[StartOp := Creating(true, 1)])
  }

  // EnginePool.start_paused: nothing is loaded.
  function PausedEngine(): Engine {
    Fresh(Paused, map[])
  }
}
