/** No coroutine on an engine gets stuck, and none goes on for ever. */
module EngineProgress {
  import opened Wrappers
  import opened EngineModel
  import opened EngineLifecycle

  // Whoever wants the lock is in its queue.
  ghost predicate InLine(t: Tasks) {
    forall id :: id in t.ops && WantsLock(t.ops[id]) ==> id in t.queue
  }

  lemma AskKeepsLine(t: Tasks, id: OpId, pc: Pc)
    requires InLine(t)
    ensures InLine(Ask(t, id, pc))
  {
    var t' := Ask(t, id, pc);
    assert t'.queue[|t.queue|] == id;
    forall o | o in t'.ops && WantsLock(t'.ops[o]) && o != id
      ensures o in t'.queue
    {
      assert o in t.queue;
    }
  }

  lemma GoKeepsLine(t: Tasks, id: OpId, x: Exit)
    requires InLine(t) && t.queue != [] && t.queue[0] == id && ExitOk(x)
    ensures InLine(Go(t, id, x))
  {
    var t' := Go(t, id, x);
    if x.Requeue? {
      assert t'.queue[|t.queue| - 1] == id;
    }
    forall o | o in t'.ops && WantsLock(t'.ops[o]) && o != id
      ensures o in t'.queue
    {
      var i :| 0 <= i < |t.queue| && t.queue[i] == o;
      assert t.queue[1..][i - 1] == o;
    }
  }

  lemma NextKeepsLine(e: Engine, a: Act)
    requires InLine(e.t)
    ensures InLine(Next(e, a).t)
  {
    if !Enabled(e, a) { return; }
    match a
    case BeginPause(id) => AskKeepsLine(e.t, id, PauseEntry(e.t.ops[id].u));
    case CallResume(id) => AskKeepsLine(e.t, id, ResumeEntry);
    case Enter(id) =>
      SectionExitOk(e.f, e.t.ops[id]);
      GoKeepsLine(e.t, id, Section(e.f, e.t.ops[id]).1);
    case DrainEnd(id, timedOut) => AskKeepsLine(e.t, id, PauseMid(timedOut));
    case CreateOk(id) => AskKeepsLine(e.t, id, LoadEntry(e.t.ops[id].first));
    case CreateFail(id) => AskKeepsLine(e.t, id, FailEntry(e.t.ops[id].first));
    case _ =>
  }

  lemma {:induction false} RunKeepsLine(e: Engine, acts: seq<Act>)
    requires Inv(e) && InLine(e.t)
    ensures Inv(Run(e, acts)) && InLine(Run(e, acts).t)
    decreases |acts|
  {
    if acts != [] {
      NextKeepsInv(e, acts[0]);
      NextKeepsLine(e, acts[0]);
      RunKeepsLine(Next(e, acts[0]), acts[1..]);
    }
  }

  // A step of the coroutine's own, after its call.
  predicate IsStepOf(a: Act, id: OpId) {
    match a
    case BeginPause(o) => o == id
    case Enter(o) => o == id
    case DrainEnd(o, _) => o == id
    case VramFree(o) => o == id
    case CreateOk(o) => o == id
    case CreateFail(o) => o == id
    case _ => false
  }

  // The coroutine can go on, or it waits for the lock behind one that can.
  ghost predicate CanGoOn(e: Engine, id: OpId) {
    exists a :: Enabled(e, a) && (IsStepOf(a, id) || (id in e.t.queue && a == Enter(e.t.queue[0])))
  }

  lemma NotStuck(e: Engine, id: OpId)
    requires QueueOk(e.t) && InLine(e.t) && id in e.t.ops && !e.t.ops[id].Exiting?
    ensures CanGoOn(e, id)
  {
    var pc := e.t.ops[id];
    if WantsLock(pc) {
      assert e.t.queue[0] in e.t.queue;
      assert Enabled(e, Enter(e.t.queue[0]));
    } else {
      var a := if pc.PauseCall? then BeginPause(id) else if pc.Draining? then DrainEnd(id, true)
               else if pc.WaitVram? then VramFree(id) else CreateOk(id);
      assert Enabled(e, a) && IsStepOf(a, id);
    }
  }

  // How many steps a coroutine at pc can still take.
  function StepsLeft(pc: Pc): nat {
    match pc
    case PauseCall(_) => 16
    case PauseEntry(_) => 15
    case Draining => 14
    case PauseMid(_) => 13
    case UnloadEntry(_) => 12
    case UnloadDestroy(_, released) => if released then 10 else 11
    case ResumeEntry => 10
    case WaitVram(attempt) => if attempt < 3 then 5 + 2 * (3 - attempt) else 5
    case Creating(_, attempt) => if attempt < 3 then 4 + 2 * (3 - attempt) else 4
    case LoadEntry(_) => 3
    case LoadDestroy(_, released) => if released then 1 else 2
    case FailEntry(_) => 1
    case Exiting => 0
  }

  // One lock section.
  lemma SectionCounts(f: Fields, pc: Pc)
    requires WantsLock(pc)
    ensures StepsLeft(pc) > 0
    ensures var x := Section(f, pc).1; x.Return? || StepsLeft(x.pc) < StepsLeft(pc)
  {
  }

  lemma OwnStepCounts(e: Engine, a: Act, id: OpId)
    requires Inv(e) && Enabled(e, a) && IsStepOf(a, id)
    ensures id in e.t.ops && StepsLeft(e.t.ops[id]) > 0
    ensures id in Next(e, a).t.ops ==> StepsLeft(Next(e, a).t.ops[id]) < StepsLeft(e.t.ops[id])
  {
    if a.Enter? {
      SectionCounts(e.f, e.t.ops[id]);
    }
  }

  lemma OtherStepKeepsPc(e: Engine, a: Act, id: OpId)
    requires id in e.t.ops && !(Enabled(e, a) && IsStepOf(a, id))
    ensures id in Next(e, a).t.ops && Next(e, a).t.ops[id] == e.t.ops[id]
  {
  }

  // How many steps the coroutine takes along the run.
  function StepsOf(e: Engine, acts: seq<Act>, id: OpId): nat
    decreases |acts|
  {
    if acts == [] then 0
    else (if Enabled(e, acts[0]) && IsStepOf(acts[0], id) then 1 else 0) + StepsOf(Next(e, acts[0]), acts[1..], id)
  }

  // The coroutine is not called (again).
  predicate NotCalled(acts: seq<Act>, id: OpId) {
    forall i :: 0 <= i < |acts| ==> (acts[i].CallPause? || acts[i].CallResume? ==> acts[i].id != id)
  }

  lemma AbsentStaysAbsent(e: Engine, a: Act, id: OpId)
    requires id !in e.t.ops && (a.CallPause? || a.CallResume? ==> a.id != id)
    ensures id !in Next(e, a).t.ops && !(Enabled(e, a) && IsStepOf(a, id))
  {
  }

  lemma {:induction false} StepsAreBounded(e: Engine, acts: seq<Act>, id: OpId)
    requires Inv(e) && NotCalled(acts, id)
    ensures StepsOf(e, acts, id) <= if id in e.t.ops then StepsLeft(e.t.ops[id]) else 0
    decreases |acts|
  {
    if acts != [] {
      var a := acts[0];
      NextKeepsInv(e, a);
      StepsAreBounded(Next(e, a), acts[1..], id);
      if id !in e.t.ops {
        AbsentStaysAbsent(e, a, id);
      } else if Enabled(e, a) && IsStepOf(a, id) {
        OwnStepCounts(e, a, id);
      } else {
        OtherStepKeepsPc(e, a, id);
      }
    }
  }

  /** Progress: in every run, a coroutine on the engine, but for one that waits for the process to end, can go
      on, or waits for the lock behind one that can; and it goes on for at most 16 steps before it has
      returned, through drains, an unload, a reload with all its attempts and a second unload. */
  lemma CoroutinesGoOn(e: Engine, before: seq<Act>, id: OpId, after: seq<Act>)
    requires e == StartedEngine() || e == PausedEngine()
    requires NotCalled(after, id)
    ensures var e' := Run(e, before);
            && (id in e'.t.ops && !e'.t.ops[id].Exiting? ==> CanGoOn(e', id))
            && StepsOf(e', after, id) <= 16
  {
    FreshInv(e);
    RunKeepsLine(e, before);
    var e' := Run(e, before);
    if id in e'.t.ops && !e'.t.ops[id].Exiting? {
      NotStuck(e', id);
    }
    StepsAreBounded(e', after, id);
  }
}
