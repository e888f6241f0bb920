/** What every interleaving of pauses, resumes, loads and requests keeps on one engine. */
module EngineLifecycle {
  import opened Wrappers
  import opened EngineModel

  // Only coroutines that want the lock are in its queue, each once; the one inside is in front.
  ghost predicate QueueOk(t: Tasks) {
    && (forall i, j :: 0 <= i < j < |t.queue| ==> t.queue[i] != t.queue[j])
    && (forall id :: id in t.queue ==> id in t.ops && WantsLock(t.ops[id]))
    && (forall id :: id in t.ops && HoldsLock(t.ops[id]) ==> t.queue != [] && t.queue[0] == id)
  }

  // l is the one loader and u the one unloader among the coroutines, if there is any.
  ghost predicate Roles(ops: map<OpId, Pc>, l: Option<OpId>, u: Option<OpId>) {
    && (l.Some? ==> l.value in ops)
    && (u.Some? ==> u.value in ops)
    && (forall id :: id in ops ==> (IsLoader(ops[id]) <==> l == Some(id)))
    && (forall id :: id in ops ==> (IsUnloader(ops[id]) <==> u == Some(id)))
  }

  predicate InLoad(f: Fields) {
    f.state.Loading? || f.state.Starting?
  }

  // What the loader's program counter says about the engine.
  predicate LoaderOk(f: Fields, pc: Pc) {
    match pc
    case LoadEntry(_) => f.loaded
    case LoadDestroy(_, released) => f.loaded == !released && f.pendingPause.None?
    case WaitVram(attempt) => !f.loaded && 1 <= attempt <= MAX_ATTEMPTS
    case Creating(_, attempt) => !f.loaded && 1 <= attempt <= MAX_ATTEMPTS
    case _ => !f.loaded
  }

  predicate RequestsOk(f: Fields) {
    f.active == |f.bodies| && f.inflight <= f.bodies && (!f.loaded ==> f.inflight == {})
  }

  predicate FieldsOk(f: Fields, loader: Option<Pc>, unloader: Option<Pc>) {
    && (InLoad(f) <==> loader.Some?)
    && (f.state.Unloading? <==> unloader.Some?)
    && (loader.Some? ==> LoaderOk(f, loader.value))
    && (unloader.Some? ==> f.loaded == !(unloader.value.UnloadDestroy? && unloader.value.released))
    && (f.state.Running? ==> f.loaded)
    && (f.state.Paused? || f.state.Stopped? ==> !f.loaded)
    && (f.pendingPause.Some? ==> InLoad(f))
    && (f.pendingResume ==> f.state.Unloading?)
    && RequestsOk(f)
  }

  function PcOf(ops: map<OpId, Pc>, who: Option<OpId>): Option<Pc> {
    if who.Some? && who.value in ops then Some(ops[who.value]) else None
  }

  ghost predicate CoreOf(e: Engine, l: Option<OpId>, u: Option<OpId>) {
    Roles(e.t.ops, l, u) && FieldsOk(e.f, PcOf(e.t.ops, l), PcOf(e.t.ops, u))
  }

  /** The lifecycle invariant of one engine. */
  ghost predicate Inv(e: Engine) {
    QueueOk(e.t) && exists l, u :: CoreOf(e, l, u)
  }

  lemma AskKeepsQueue(t: Tasks, id: OpId, pc: Pc)
    requires QueueOk(t) && id !in t.queue && WantsLock(pc) && !HoldsLock(pc)
    ensures QueueOk(Ask(t, id, pc))
  {
  }

  // An exit puts its coroutine where its new pc belongs.
  predicate ExitOk(x: Exit) {
    match x
    case Stay(pc) => WantsLock(pc)
    case Release(pc) => !WantsLock(pc)
    case Requeue(pc) => WantsLock(pc) && !HoldsLock(pc)
    case Return => true
  }

  lemma GoKeepsQueue(t: Tasks, id: OpId, x: Exit)
    requires QueueOk(t) && t.queue != [] && t.queue[0] == id && ExitOk(x)
    ensures QueueOk(Go(t, id, x))
  {
  }

  lemma SectionExitOk(f: Fields, pc: Pc)
    requires WantsLock(pc)
    ensures ExitOk(Section(f, pc).1)
  {
  }

  // The lock queue across a step.
  lemma NextKeepsQueue(e: Engine, a: Act)
    requires QueueOk(e.t)
    ensures QueueOk(Next(e, a).t)
  {
    if !Enabled(e, a) { return; }
    match a
    case BeginPause(id) => AskKeepsQueue(e.t, id, PauseEntry(e.t.ops[id].u));
    case CallResume(id) => AskKeepsQueue(e.t, id, ResumeEntry);
    case Enter(id) =>
      SectionExitOk(e.f, e.t.ops[id]);
      GoKeepsQueue(e.t, id, Section(e.f, e.t.ops[id]).1);
    case DrainEnd(id, timedOut) => AskKeepsQueue(e.t, id, PauseMid(timedOut));
    case CreateOk(id) => AskKeepsQueue(e.t, id, LoadEntry(e.t.ops[id].first));
    case CreateFail(id) => AskKeepsQueue(e.t, id, FailEntry(e.t.ops[id].first));
    case _ =>
  }

  // Who holds a role after the coroutine id, which now is or is not of the role, moved.
  function Hand(who: Option<OpId>, id: OpId, now: bool): Option<OpId> {
    if now then Some(id) else if who == Some(id) then None else who
  }

  lemma MoveKeepsRoles(ops: map<OpId, Pc>, id: OpId, pc: Pc, l: Option<OpId>, u: Option<OpId>)
    requires Roles(ops, l, u)
    requires IsLoader(pc) ==> l.None? || l == Some(id)
    requires IsUnloader(pc) ==> u.None? || u == Some(id)
    ensures Roles(ops[id := pc], Hand(l, id, IsLoader(pc)), Hand(u, id, IsUnloader(pc)))
  {
  }

  lemma EndKeepsRoles(ops: map<OpId, Pc>, id: OpId, l: Option<OpId>, u: Option<OpId>)
    requires Roles(ops, l, u)
    ensures Roles(ops - {id}, Hand(l, id, false), Hand(u, id, false))
  {
  }

  // A role's program counter after a coroutine at pc left its section by x.
  function LoaderAfter(loader: Option<Pc>, pc: Pc, x: Exit): Option<Pc> {
    if !x.Return? && IsLoader(x.pc) then Some(x.pc) else if IsLoader(pc) then None else loader
  }

  function UnloaderAfter(unloader: Option<Pc>, pc: Pc, x: Exit): Option<Pc> {
    if !x.Return? && IsUnloader(x.pc) then Some(x.pc) else if IsUnloader(pc) then None else unloader
  }

  // The fields after the lock section of a coroutine at pc, whoever the others are.
  lemma SectionKeepsFields(f: Fields, pc: Pc, loader: Option<Pc>, unloader: Option<Pc>)
    requires WantsLock(pc) && FieldsOk(f, loader, unloader)
    requires IsLoader(pc) ==> loader == Some(pc)
    requires IsUnloader(pc) ==> unloader == Some(pc)
    requires loader.Some? && HoldsLock(loader.value) ==> loader == Some(pc)
    ensures var (f', x) := Section(f, pc);
            && FieldsOk(f', LoaderAfter(loader, pc, x), UnloaderAfter(unloader, pc, x))
            && (!x.Return? && IsLoader(x.pc) && !IsLoader(pc) ==> loader.None?)
            && (!x.Return? && IsUnloader(x.pc) && !IsUnloader(pc) ==> unloader.None?)
  {
  }

  lemma EnterKeepsCore(e: Engine, id: OpId, l: Option<OpId>, u: Option<OpId>)
    requires CoreOf(e, l, u) && HasLock(e.t, id)
    requires forall o :: o in e.t.ops && HoldsLock(e.t.ops[o]) ==> o == id
    ensures exists l', u' :: CoreOf(EnterLock(e, id), l', u')
  {
    var pc := e.t.ops[id];
    var (f', x) := Section(e.f, pc);
    SectionKeepsFields(e.f, pc, PcOf(e.t.ops, l), PcOf(e.t.ops, u));
    if x.Return? {
      EndKeepsRoles(e.t.ops, id, l, u);
      assert CoreOf(EnterLock(e, id), Hand(l, id, false), Hand(u, id, false));
    } else {
      MoveKeepsRoles(e.t.ops, id, x.pc, l, u);
      assert CoreOf(EnterLock(e, id), Hand(l, id, IsLoader(x.pc)), Hand(u, id, IsUnloader(x.pc)));
    }
  }

  lemma RequestKeepsCore(e: Engine, a: Act, l: Option<OpId>, u: Option<OpId>)
    requires CoreOf(e, l, u) && (a.Arrive? || a.Leave?)
    ensures CoreOf(Next(e, a), l, u)
  {
  }

  // A step outside the lock sections.
  lemma MoveKeepsCore(e: Engine, a: Act, l: Option<OpId>, u: Option<OpId>)
    requires CoreOf(e, l, u) && Enabled(e, a) && !a.Arrive? && !a.Leave? && !a.Enter?
    ensures CoreOf(Next(e, a), l, u)
  {
    MoveKeepsRoles(e.t.ops, a.id, Next(e, a).t.ops[a.id], l, u);
  }

  // Everything but the lock queue across a step.
  lemma NextKeepsCore(e: Engine, a: Act, l: Option<OpId>, u: Option<OpId>)
    requires CoreOf(e, l, u)
    requires forall o :: o in e.t.ops && HoldsLock(e.t.ops[o]) ==> e.t.queue != [] && e.t.queue[0] == o
    ensures exists l', u' :: CoreOf(Next(e, a), l', u')
  {
    if !Enabled(e, a) {
      assert CoreOf(Next(e, a), l, u);
    } else if a.Arrive? || a.Leave? {
      RequestKeepsCore(e, a, l, u);
    } else if a.Enter? {
      EnterKeepsCore(e, a.id, l, u);
      assert Next(e, a) == EnterLock(e, a.id);
    } else {
      MoveKeepsCore(e, a, l, u);
    }
  }

  /** Every step of every coroutine keeps the lifecycle invariant, in any interleaving. */
  lemma NextKeepsInv(e: Engine, a: Act)
    requires Inv(e)
    ensures Inv(Next(e, a))
  {
    var l, u :| CoreOf(e, l, u);
    NextKeepsQueue(e, a);
    NextKeepsCore(e, a, l, u);
  }

  lemma FreshInv(e: Engine)
    requires e == StartedEngine() || e == PausedEngine()
    ensures Inv(e)
  {
    assert CoreOf(e, if e == StartedEngine() then Some(StartOp) else None, None);
  }

  lemma {:induction false} RunKeepsInv(e: Engine, acts: seq<Act>)
    requires Inv(e)
    ensures Inv(Run(e, acts))
    decreases |acts|
  {
    if acts != [] {
      NextKeepsInv(e, acts[0]);
      RunKeepsInv(Next(e, acts[0]), acts[1..]);
    }
  }

  /** In every run: one loader while the state says loading, one unloader while it says unloading,
      a vLLM object while RUNNING and none while PAUSED or STOPPED, and an exact request count. */
  lemma Lifecycle(e: Engine, acts: seq<Act>)
    requires e == StartedEngine() || e == PausedEngine()
    ensures var Engine(f, t) := Run(e, acts);
            && (forall a, b :: a in t.ops && b in t.ops && IsLoader(t.ops[a]) && IsLoader(t.ops[b]) ==> a == b)
            && (forall a, b :: a in t.ops && b in t.ops && IsUnloader(t.ops[a]) && IsUnloader(t.ops[b]) ==> a == b)
            && (InLoad(f) <==> exists a :: a in t.ops && IsLoader(t.ops[a]))
            && (f.state.Unloading? <==> exists a :: a in t.ops && IsUnloader(t.ops[a]))
            && (f.state.Running? ==> f.loaded)
            && (f.state.Paused? || f.state.Stopped? ==> !f.loaded)
            && (f.pendingPause.Some? ==> InLoad(f))
            && (f.pendingResume ==> f.state.Unloading?)
            && RequestsOk(f)
            && (forall a :: a in t.ops && t.ops[a].WaitVram? ==> 1 <= t.ops[a].attempt <= MAX_ATTEMPTS)
  {
    FreshInv(e);
    RunKeepsInv(e, acts);
    var e' := Run(e, acts);
    var l, u :| CoreOf(e', l, u);
    if l.Some? {
      assert IsLoader(e'.t.ops[l.value]);
    }
    if u.Some? {
      assert IsUnloader(e'.t.ops[u.value]);
    }
  }

  // A soft yield has closed the engine to new requests and has not unloaded it yet.
  predicate IsSoftPause(pc: Pc) {
    pc.Draining? || pc.PauseMid?
  }

  ghost predicate ClosedForAPause(e: Engine) {
    e.f.state.Unloading? || (e.f.state.Running? && exists o :: o in e.t.ops && IsSoftPause(e.t.ops[o]))
  }

  lemma NextKeepsOpen(e: Engine, a: Act)
    requires Inv(e) && (e.f.accepting || ClosedForAPause(e))
    ensures Next(e, a).f.accepting || ClosedForAPause(Next(e, a))
  {
    var l, u :| CoreOf(e, l, u);
    var e' := Next(e, a);
    if !e.f.accepting && e.f.state.Running? {
      var o :| o in e.t.ops && IsSoftPause(e.t.ops[o]);
      assert e'.f.state.Unloading? || (o in e'.t.ops && IsSoftPause(e'.t.ops[o]));
    } else if a.Enter? && Enabled(e, a) && e.f.state.Running? {
      assert e'.f.accepting || IsSoftPause(e'.t.ops[a.id]);
    }
  }

  lemma {:induction false} RunKeepsOpen(e: Engine, acts: seq<Act>)
    requires Inv(e) && (e.f.accepting || ClosedForAPause(e))
    ensures Run(e, acts).f.accepting || ClosedForAPause(Run(e, acts))
    decreases |acts|
  {
    if acts != [] {
      NextKeepsInv(e, acts[0]);
      NextKeepsOpen(e, acts[0]);
      RunKeepsOpen(Next(e, acts[0]), acts[1..]);
    }
  }

  /** No engine stays closed: in every run a RUNNING engine takes requests unless a soft yield is on its
      way through it. */
  lemma RunningServes(e: Engine, acts: seq<Act>)
    requires e == StartedEngine() || e == PausedEngine()
    ensures var Engine(f, t) := Run(e, acts);
            f.state.Running? && (forall o :: o in t.ops ==> !IsSoftPause(t.ops[o])) ==> IsAvailable(f)
  {
    FreshInv(e);
    RunKeepsOpen(e, acts);
  }

  // _destroy_engine aborts and forgets what is in flight.
  predicate Drops(e: Engine, a: Act) {
    a.Enter? && Enabled(e, a)
    && match e.t.ops[a.id] {
         case UnloadDestroy(_, released) => !released
         case LoadDestroy(_, released) => !released
         case _ => false
       }
  }

  /** A step keeps "the ids in flight are exactly the request bodies" if and only if it does not drop the vLLM
      object under a request. */
  lemma InflightIsExact(e: Engine, a: Act)
    requires e.f.inflight == e.f.bodies
    ensures var f := Next(e, a).f; f.inflight == f.bodies <==> !(Drops(e, a) && f.bodies != {})
  {
  }
}
