/** Runs of one engine in which the last command is lost. */
module LostCommands {
  import opened Wrappers
  import opened Sidecar
  import opened EngineModel
  import opened EngineCommands

  // The lock is free and one coroutine waits for it.
  predicate SoleWaiter(e: Engine) {
    |e.t.queue| == 1 && e.t.queue[0] in e.t.ops && !HoldsLock(e.t.ops[e.t.queue[0]])
  }

  /** A run of steps that are all enabled, and in which a coroutine that is alone in asking for a free lock
      goes on at once, as asyncio lets it. */
  ghost predicate Prompt(e: Engine, acts: seq<Act>)
    decreases |acts|
  {
    acts == [] || (Enabled(e, acts[0])
                   && (SoleWaiter(e) ==> acts[0] == Enter(e.t.queue[0]))
                   && Prompt(Next(e, acts[0]), acts[1..]))
  }

  ghost predicate Leads(e: Engine, acts: seq<Act>, end: Engine) {
    Prompt(e, acts) && Run(e, acts) == end
  }

  // A prompt step.
  predicate Goes(e: Engine, a: Act, next: Engine) {
    Enabled(e, a) && (SoleWaiter(e) ==> a == Enter(e.t.queue[0])) && Next(e, a) == next
  }

  lemma Twice(e: Engine, a: Act, e1: Engine, b: Act, e2: Engine)
    requires Goes(e, a, e1) && Goes(e1, b, e2)
    ensures Leads(e, [a, b], e2)
  {
    assert [a, b][1..] == [b] && [b][1..] == [];
    assert Prompt(e2, []) && Prompt(e1, [b]) && Run(e1, [b]) == e2;
  }

  lemma Thrice(e: Engine, a: Act, e1: Engine, b: Act, e2: Engine, c: Act, e3: Engine)
    requires Goes(e, a, e1) && Goes(e1, b, e2) && Goes(e2, c, e3)
    ensures Leads(e, [a, b, c], e3)
  {
    Twice(e1, b, e2, c, e3);
    assert [a, b, c][1..] == [b, c];
  }

  lemma {:induction false} Join(e: Engine, acts: seq<Act>, mid: Engine, more: seq<Act>, end: Engine)
    requires Leads(e, acts, mid) && Leads(mid, more, end)
    ensures Leads(e, acts + more, end)
    decreases |acts|
  {
    if acts == [] {
      assert acts + more == more;
    } else {
      Join(Next(e, acts[0]), acts[1..], mid, more, end);
      assert (acts + more)[1..] == acts[1..] + more;
    }
  }

  // The coroutines of the run.
  const FIRST_PAUSE := PauseOp(0)
  const RELOAD := ResumeOp(0)
  const IDLE1 := ResumeOp(1)
  const IDLE2 := ResumeOp(2)
  const PAUSE := PauseOp(1)
  const RESUME := ResumeOp(3)
  const LAST_PAUSE := PauseOp(2)

  function In(state: EngineState, loaded: bool, pendingResume: bool, ops: map<OpId, Pc>, queue: seq<OpId>): Engine {
    Engine(Fields(state, loaded, None, pendingResume, true, 0, {}, {}), Tasks(ops, queue))
  }

  function Serving(): Engine {
    In(Running, true, false, map[], [])
  }

  function Closing(): Engine {
    In(Unloading, true, false, map[FIRST_PAUSE := UnloadEntry(false)], [FIRST_PAUSE])
  }

  // A pause unloads the engine, and three resumes wait for it.
  function Convoy(): Engine {
    In(Unloading, true, false,
       map[FIRST_PAUSE := UnloadDestroy(false, false),
           RELOAD := ResumeEntry, IDLE1 := ResumeEntry, IDLE2 := ResumeEntry],
       [FIRST_PAUSE, RELOAD, IDLE1, IDLE2])
  }

  // The first resume has loaded the engine again before the others had their turn.
  function Reloaded(): Engine {
    In(Loading, true, false, map[RELOAD := LoadEntry(false), IDLE1 := ResumeEntry, IDLE2 := ResumeEntry],
       [IDLE1, IDLE2, RELOAD])
  }

  // Behind it a pause, a resume and the last pause.
  function Queued(): Engine {
    In(Loading, true, false,
       map[RELOAD := LoadEntry(false), IDLE1 := ResumeEntry, IDLE2 := ResumeEntry, PAUSE := PauseEntry(Immediate),
           RESUME := ResumeEntry, LAST_PAUSE := PauseEntry(Immediate)],
       [IDLE1, IDLE2, RELOAD, PAUSE, RESUME, LAST_PAUSE])
  }

  // The last pause is about to find the engine UNLOADING with a resume pending.
  function Meeting(): Engine {
    In(Unloading, true, true, map[PAUSE := UnloadEntry(false), LAST_PAUSE := PauseEntry(Immediate)],
       [LAST_PAUSE, PAUSE])
  }

  lemma StartServes()
    ensures Leads(StartedEngine(), [CreateOk(StartOp), Enter(StartOp)], Serving())
  {
    var e1 := In(Starting, true, false, map[StartOp := LoadEntry(true)], [StartOp]);
    Twice(StartedEngine(), CreateOk(StartOp), e1, Enter(StartOp), Serving());
  }

  lemma PauseUnloads()
    ensures Leads(Serving(), [CallPause(FIRST_PAUSE, Immediate), BeginPause(FIRST_PAUSE), Enter(FIRST_PAUSE)],
                  Closing())
  {
    Thrice(Serving(), CallPause(FIRST_PAUSE, Immediate),
           In(Running, true, false, map[FIRST_PAUSE := PauseCall(Immediate)], []), BeginPause(FIRST_PAUSE),
           In(Running, true, false, map[FIRST_PAUSE := PauseEntry(Immediate)], [FIRST_PAUSE]), Enter(FIRST_PAUSE),
           Closing());
  }

  lemma ResumesWait()
    ensures Leads(Closing(),
                  [Enter(FIRST_PAUSE), CallResume(RELOAD)] + [CallResume(IDLE1), CallResume(IDLE2)], Convoy())
  {
    var inside := map[FIRST_PAUSE := UnloadDestroy(false, false)];
    var e1 := In(Unloading, true, false, inside, [FIRST_PAUSE]);
    var e2 := In(Unloading, true, false, inside[RELOAD := ResumeEntry], [FIRST_PAUSE, RELOAD]);
    var e3 := In(Unloading, true, false, inside[RELOAD := ResumeEntry][IDLE1 := ResumeEntry],
                 [FIRST_PAUSE, RELOAD, IDLE1]);
    Twice(Closing(), Enter(FIRST_PAUSE), e1, CallResume(RELOAD), e2);
    Twice(e2, CallResume(IDLE1), e3, CallResume(IDLE2), Convoy());
    Join(Closing(), [Enter(FIRST_PAUSE), CallResume(RELOAD)], e2, [CallResume(IDLE1), CallResume(IDLE2)], Convoy());
  }

  lemma ReloadsAhead()
    ensures Leads(Convoy(),
                  [Enter(FIRST_PAUSE), Enter(FIRST_PAUSE)] + [Enter(RELOAD), VramFree(RELOAD), CreateOk(RELOAD)],
                  Reloaded())
  {
    var idle := map[IDLE1 := ResumeEntry, IDLE2 := ResumeEntry];
    var e1 := In(Unloading, false, false, Convoy().t.ops[FIRST_PAUSE := UnloadDestroy(false, true)], Convoy().t.queue);
    var e2 := In(Paused, false, false, idle[RELOAD := ResumeEntry], [RELOAD, IDLE1, IDLE2]);
    var e3 := In(Loading, false, false, idle[RELOAD := WaitVram(1)], [IDLE1, IDLE2]);
    var e4 := In(Loading, false, false, idle[RELOAD := Creating(false, 1)], [IDLE1, IDLE2]);
    Twice(Convoy(), Enter(FIRST_PAUSE), e1, Enter(FIRST_PAUSE), e2);
    Thrice(e2, Enter(RELOAD), e3, VramFree(RELOAD), e4, CreateOk(RELOAD), Reloaded());
    Join(Convoy(), [Enter(FIRST_PAUSE), Enter(FIRST_PAUSE)], e2, [Enter(RELOAD), VramFree(RELOAD), CreateOk(RELOAD)],
         Reloaded());
  }

  // Before the last pause is called.
  function Waiting(): Engine {
    In(Loading, true, false, Reloaded().t.ops[PAUSE := PauseEntry(Immediate)][RESUME := ResumeEntry],
       [IDLE1, IDLE2, RELOAD, PAUSE, RESUME])
  }

  lemma PauseAndResumeWait()
    ensures Leads(Reloaded(), [CallPause(PAUSE, Immediate), BeginPause(PAUSE), CallResume(RESUME)], Waiting())
  {
    var e1 := In(Loading, true, false, Reloaded().t.ops[PAUSE := PauseCall(Immediate)], Reloaded().t.queue);
    var e2 := In(Loading, true, false, Reloaded().t.ops[PAUSE := PauseEntry(Immediate)], [IDLE1, IDLE2, RELOAD, PAUSE]);
    Thrice(Reloaded(), CallPause(PAUSE, Immediate), e1, BeginPause(PAUSE), e2, CallResume(RESUME), Waiting());
  }

  lemma LastPauseWaits()
    ensures Leads(Waiting(), [CallPause(LAST_PAUSE, Immediate), BeginPause(LAST_PAUSE)], Queued())
  {
    var e1 := In(Loading, true, false, Waiting().t.ops[LAST_PAUSE := PauseCall(Immediate)], Waiting().t.queue);
    Twice(Waiting(), CallPause(LAST_PAUSE, Immediate), e1, BeginPause(LAST_PAUSE), Queued());
  }

  // The waiting resumes find the engine LOADING and return.
  function IdlersGone(): Engine {
    In(Loading, true, false,
       map[RELOAD := LoadEntry(false), PAUSE := PauseEntry(Immediate), RESUME := ResumeEntry,
           LAST_PAUSE := PauseEntry(Immediate)],
       [RELOAD, PAUSE, RESUME, LAST_PAUSE])
  }

  lemma IdlersLeave()
    ensures Leads(Queued(), [Enter(IDLE1), Enter(IDLE2)], IdlersGone())
  {
    var e1 := In(Loading, true, false, IdlersGone().t.ops[IDLE2 := ResumeEntry],
                 [IDLE2, RELOAD, PAUSE, RESUME, LAST_PAUSE]);
    Twice(Queued(), Enter(IDLE1), e1, Enter(IDLE2), IdlersGone());
  }

  lemma AllMeet()
    ensures Leads(IdlersGone(), [Enter(RELOAD), Enter(PAUSE), Enter(RESUME)], Meeting())
  {
    var last := map[PAUSE := PauseEntry(Immediate), RESUME := ResumeEntry, LAST_PAUSE := PauseEntry(Immediate)];
    var e1 := In(Running, true, false, last, [PAUSE, RESUME, LAST_PAUSE]);
    var e2 := In(Unloading, true, false, last[PAUSE := UnloadEntry(false)], [RESUME, LAST_PAUSE, PAUSE]);
    Thrice(IdlersGone(), Enter(RELOAD), e1, Enter(PAUSE), e2, Enter(RESUME), Meeting());
  }

  lemma UnloadsAndReloads()
    ensures Leads(Meeting(), [Enter(LAST_PAUSE), Enter(PAUSE), Enter(PAUSE)]
                             + ([Enter(PAUSE), VramFree(PAUSE)] + [CreateOk(PAUSE), Enter(PAUSE)]), Serving())
  {
    var e1 := In(Unloading, true, true, map[PAUSE := UnloadEntry(false)], [PAUSE]);
    var e2 := In(Unloading, true, true, map[PAUSE := UnloadDestroy(false, false)], [PAUSE]);
    var e3 := In(Unloading, false, true, map[PAUSE := UnloadDestroy(false, true)], [PAUSE]);
    var e4 := In(Loading, false, false, map[PAUSE := WaitVram(1)], []);
    var e5 := In(Loading, false, false, map[PAUSE := Creating(false, 1)], []);
    var e6 := In(Loading, true, false, map[PAUSE := LoadEntry(false)], [PAUSE]);
    Thrice(Meeting(), Enter(LAST_PAUSE), e1, Enter(PAUSE), e2, Enter(PAUSE), e3);
    Twice(e3, Enter(PAUSE), e4, VramFree(PAUSE), e5);
    Twice(e5, CreateOk(PAUSE), e6, Enter(PAUSE), Serving());
    Join(e3, [Enter(PAUSE), VramFree(PAUSE)], e5, [CreateOk(PAUSE), Enter(PAUSE)], Serving());
    Join(Meeting(), [Enter(LAST_PAUSE), Enter(PAUSE), Enter(PAUSE)], e3,
         [Enter(PAUSE), VramFree(PAUSE)] + [CreateOk(PAUSE), Enter(PAUSE)], Serving());
  }

  /** A pause called last can be lost: a run from the start of an engine, without failures and with every
      step as prompt as asyncio makes it, whose last command is an IMMEDIATE pause and which ends RUNNING
      with nothing left to do.  A resume and the pause wait behind another pause in a queue that never
      empties, so the pause finds the engine UNLOADING with the resume already pending. */
  lemma PauseIsLost() returns (before: seq<Act>, after: seq<Act>)
    ensures NoCommands(after) && NoFailures(before) && NoFailures(after)
    ensures Prompt(StartedEngine(), before + [CallPause(LAST_PAUSE, Immediate)] + after)
    ensures var e := Run(StartedEngine(), before + [CallPause(LAST_PAUSE, Immediate)] + after);
            Quiet(e) && e.f.state.Running? && e.f.loaded
  {
    before := ToWaiting();
    after := FromQueued();
    var call := CallPause(LAST_PAUSE, Immediate);
    LastPauseWaits();
    Join(StartedEngine(), before, Waiting(), [call, BeginPause(LAST_PAUSE)], Queued());
    Join(StartedEngine(), before + [call, BeginPause(LAST_PAUSE)], Queued(), after, Serving());
    assert before + [call, BeginPause(LAST_PAUSE)] + after == before + [call] + ([BeginPause(LAST_PAUSE)] + after);
    after := [BeginPause(LAST_PAUSE)] + after;
  }

  lemma ToWaiting() returns (acts: seq<Act>)
    ensures Leads(StartedEngine(), acts, Waiting()) && NoFailures(acts)
  {
    var serve := [CreateOk(StartOp), Enter(StartOp)];
    var pause := [CallPause(FIRST_PAUSE, Immediate), BeginPause(FIRST_PAUSE), Enter(FIRST_PAUSE)];
    var wait := [Enter(FIRST_PAUSE), CallResume(RELOAD)] + [CallResume(IDLE1), CallResume(IDLE2)];
    var reload := [Enter(FIRST_PAUSE), Enter(FIRST_PAUSE)] + [Enter(RELOAD), VramFree(RELOAD), CreateOk(RELOAD)];
    var queue := [CallPause(PAUSE, Immediate), BeginPause(PAUSE), CallResume(RESUME)];
    StartServes();
    PauseUnloads();
    Join(StartedEngine(), serve, Serving(), pause, Closing());
    ResumesWait();
    Join(StartedEngine(), serve + pause, Closing(), wait, Convoy());
    ReloadsAhead();
    Join(StartedEngine(), serve + pause + wait, Convoy(), reload, Reloaded());
    PauseAndResumeWait();
    Join(StartedEngine(), serve + pause + wait + reload, Reloaded(), queue, Waiting());
    acts := serve + pause + wait + reload + queue;
  }

  lemma FromQueued() returns (acts: seq<Act>)
    ensures Leads(Queued(), acts, Serving()) && NoCommands(acts) && NoFailures(acts)
  {
    var idle := [Enter(IDLE1), Enter(IDLE2)];
    var meet := [Enter(RELOAD), Enter(PAUSE), Enter(RESUME)];
    var reload := [Enter(LAST_PAUSE), Enter(PAUSE), Enter(PAUSE)]
                  + ([Enter(PAUSE), VramFree(PAUSE)] + [CreateOk(PAUSE), Enter(PAUSE)]);
    IdlersLeave();
    AllMeet();
    Join(Queued(), idle, IdlersGone(), meet, Meeting());
    UnloadsAndReloads();
    Join(Queued(), idle + meet, Meeting(), reload, Serving());
    acts := idle + meet + reload;
  }

  // While a request is served a soft yield drains, and a resume comes and goes.

  function Busy(ops: map<OpId, Pc>, queue: seq<OpId>, accepting: bool): Engine {
    Engine(Fields(Running, true, None, false, accepting, 1, {0}, {0}), Tasks(ops, queue))
  }

  // The request has ended.
  function Drained(state: EngineState, loaded: bool, pc: Pc, queue: seq<OpId>): Engine {
    Engine(Fields(state, loaded, None, false, false, 0, {}, {}), Tasks(map[PAUSE := pc], queue))
  }

  lemma YieldDrains()
    ensures Leads(Serving(), [Arrive(0), CallPause(PAUSE, Normal)] + [BeginPause(PAUSE), Enter(PAUSE)],
                  Busy(map[PAUSE := Draining], [], false))
  {
    var e1 := Busy(map[], [], true);
    var e2 := Busy(map[PAUSE := PauseCall(Normal)], [], true);
    var e3 := Busy(map[PAUSE := PauseEntry(Normal)], [PAUSE], true);
    var e4 := Busy(map[PAUSE := Draining], [], false);
    Twice(Serving(), Arrive(0), e1, CallPause(PAUSE, Normal), e2);
    Twice(e2, BeginPause(PAUSE), e3, Enter(PAUSE), e4);
    Join(Serving(), [Arrive(0), CallPause(PAUSE, Normal)], e2, [BeginPause(PAUSE), Enter(PAUSE)], e4);
  }

  lemma ResumeComesAndGoes()
    ensures Leads(Busy(map[PAUSE := Draining], [], false), [CallResume(RESUME), Enter(RESUME)],
                  Busy(map[PAUSE := Draining], [], false))
  {
    var e := Busy(map[PAUSE := Draining], [], false);
    var e1 := Busy(map[PAUSE := Draining, RESUME := ResumeEntry], [RESUME], false);
    Twice(e, CallResume(RESUME), e1, Enter(RESUME), e);
  }

  lemma DrainUnloads()
    ensures Leads(Busy(map[PAUSE := Draining], [], false),
                  [Leave(0), DrainEnd(PAUSE, false), Enter(PAUSE)] + [Enter(PAUSE), Enter(PAUSE), Enter(PAUSE)],
                  In(Paused, false, false, map[], []))
  {
    var e0 := Busy(map[PAUSE := Draining], [], false);
    var e1 := Drained(Running, true, Draining, []);
    var e2 := Drained(Running, true, PauseMid(false), [PAUSE]);
    var e3 := Drained(Unloading, true, UnloadEntry(true), [PAUSE]);
    var e4 := Drained(Unloading, true, UnloadDestroy(true, false), [PAUSE]);
    var e5 := Drained(Unloading, false, UnloadDestroy(true, true), [PAUSE]);
    var end := In(Paused, false, false, map[], []);
    Thrice(e0, Leave(0), e1, DrainEnd(PAUSE, false), e2, Enter(PAUSE), e3);
    Thrice(e3, Enter(PAUSE), e4, Enter(PAUSE), e5, Enter(PAUSE), end);
    Join(e0, [Leave(0), DrainEnd(PAUSE, false), Enter(PAUSE)], e3, [Enter(PAUSE), Enter(PAUSE), Enter(PAUSE)], end);
  }

  /** A resume called last is lost to a drain: a run from the start of an engine, without failures and with
      every step as prompt as asyncio makes it, whose last command is a resume that finds the engine RUNNING
      while a soft yield drains, and which ends PAUSED with nothing left to do. */
  lemma ResumeIsLostToADrain() returns (before: seq<Act>, after: seq<Act>)
    ensures NoCommands(after) && NoFailures(before) && NoFailures(after)
    ensures Prompt(StartedEngine(), before + [CallResume(RESUME)] + after)
    ensures var e := Run(StartedEngine(), before + [CallResume(RESUME)] + after);
            Quiet(e) && e.f.state.Paused? && !e.f.loaded
  {
    var serve := [CreateOk(StartOp), Enter(StartOp)];
    var drain := [Arrive(0), CallPause(PAUSE, Normal)] + [BeginPause(PAUSE), Enter(PAUSE)];
    var unload := [Leave(0), DrainEnd(PAUSE, false), Enter(PAUSE)] + [Enter(PAUSE), Enter(PAUSE), Enter(PAUSE)];
    var e := Busy(map[PAUSE := Draining], [], false);
    var end := In(Paused, false, false, map[], []);
    StartServes();
    YieldDrains();
    Join(StartedEngine(), serve, Serving(), drain, e);
    ResumeComesAndGoes();
    Join(StartedEngine(), serve + drain, e, [CallResume(RESUME), Enter(RESUME)], e);
    DrainUnloads();
    Join(StartedEngine(), serve + drain + [CallResume(RESUME), Enter(RESUME)], e, unload, end);
    before, after := serve + drain, [Enter(RESUME)] + unload;
    assert serve + drain + [CallResume(RESUME), Enter(RESUME)] + unload == before + [CallResume(RESUME)] + after;
  }

  // A soft yield that an immediate pause overtook still drains, and comes upon the engine resumed.

  function Stale(state: EngineState, loaded: bool, accepting: bool, inflight: set<nat>, others: map<OpId, Pc>,
                 queue: seq<OpId>): Engine {
    Engine(Fields(state, loaded, None, false, accepting, 1, inflight, {0}), Tasks(others[PAUSE := Draining], queue))
  }

  lemma ImmediatePauseOvertakes()
    ensures Leads(Busy(map[PAUSE := Draining], [], false),
                  [CallPause(LAST_PAUSE, Immediate), BeginPause(LAST_PAUSE), Enter(LAST_PAUSE)]
                  + [Enter(LAST_PAUSE), Enter(LAST_PAUSE), Enter(LAST_PAUSE)],
                  Stale(Paused, false, true, {}, map[], []))
  {
    var e0 := Busy(map[PAUSE := Draining], [], false);
    var e1 := Stale(Running, true, false, {0}, map[LAST_PAUSE := PauseCall(Immediate)], []);
    var e2 := Stale(Running, true, false, {0}, map[LAST_PAUSE := PauseEntry(Immediate)], [LAST_PAUSE]);
    var e3 := Stale(Unloading, true, false, {0}, map[LAST_PAUSE := UnloadEntry(false)], [LAST_PAUSE]);
    var e4 := Stale(Unloading, true, false, {0}, map[LAST_PAUSE := UnloadDestroy(false, false)], [LAST_PAUSE]);
    var e5 := Stale(Unloading, false, false, {}, map[LAST_PAUSE := UnloadDestroy(false, true)], [LAST_PAUSE]);
    var e6 := Stale(Paused, false, true, {}, map[], []);
    Thrice(e0, CallPause(LAST_PAUSE, Immediate), e1, BeginPause(LAST_PAUSE), e2, Enter(LAST_PAUSE), e3);
    Thrice(e3, Enter(LAST_PAUSE), e4, Enter(LAST_PAUSE), e5, Enter(LAST_PAUSE), e6);
    Join(e0, [CallPause(LAST_PAUSE, Immediate), BeginPause(LAST_PAUSE), Enter(LAST_PAUSE)], e3,
         [Enter(LAST_PAUSE), Enter(LAST_PAUSE), Enter(LAST_PAUSE)], e6);
  }

  lemma ResumeReloads()
    ensures Leads(Stale(Paused, false, true, {}, map[], []),
                  [CallResume(RESUME), Enter(RESUME)] + [VramFree(RESUME), CreateOk(RESUME), Enter(RESUME)],
                  Stale(Running, true, true, {}, map[], []))
  {
    var e0 := Stale(Paused, false, true, {}, map[], []);
    var e1 := Stale(Paused, false, true, {}, map[RESUME := ResumeEntry], [RESUME]);
    var e2 := Stale(Loading, false, true, {}, map[RESUME := WaitVram(1)], []);
    var e3 := Stale(Loading, false, true, {}, map[RESUME := Creating(false, 1)], []);
    var e4 := Stale(Loading, true, true, {}, map[RESUME := LoadEntry(false)], [RESUME]);
    var e5 := Stale(Running, true, true, {}, map[], []);
    Twice(e0, CallResume(RESUME), e1, Enter(RESUME), e2);
    Thrice(e2, VramFree(RESUME), e3, CreateOk(RESUME), e4, Enter(RESUME), e5);
    Join(e0, [CallResume(RESUME), Enter(RESUME)], e2, [VramFree(RESUME), CreateOk(RESUME), Enter(RESUME)], e5);
  }

  lemma StaleDrainEnds()
    ensures Leads(Stale(Running, true, true, {}, map[], []),
                  [Leave(0), DrainEnd(PAUSE, false), Enter(PAUSE)] + [Enter(PAUSE), Enter(PAUSE), Enter(PAUSE)],
                  In(Paused, false, false, map[], []))
  {
    var e0 := Stale(Running, true, true, {}, map[], []);
    var e1 := In(Running, true, false, map[PAUSE := Draining], []);
    var e2 := In(Running, true, false, map[PAUSE := PauseMid(false)], [PAUSE]);
    var e3 := In(Unloading, true, false, map[PAUSE := UnloadEntry(true)], [PAUSE]);
    var e4 := In(Unloading, true, false, map[PAUSE := UnloadDestroy(true, false)], [PAUSE]);
    var e5 := In(Unloading, false, false, map[PAUSE := UnloadDestroy(true, true)], [PAUSE]);
    var end := In(Paused, false, false, map[], []);
    Thrice(e0, Leave(0), e1, DrainEnd(PAUSE, false), e2, Enter(PAUSE), e3);
    Thrice(e3, Enter(PAUSE), e4, Enter(PAUSE), e5, Enter(PAUSE), end);
    Join(e0, [Leave(0), DrainEnd(PAUSE, false), Enter(PAUSE)], e3, [Enter(PAUSE), Enter(PAUSE), Enter(PAUSE)], end);
  }

  /** Why the exact conditions leave out such a yield: a run, just as prompt, whose last command is a resume
      that does bring the engine to RUNNING, and which ends PAUSED all the same, because the soft yield that
      an immediate pause had overtaken then finds the engine RUNNING and unloads it. */
  lemma StaleDrainUnloads() returns (before: seq<Act>, reload: seq<Act>, after: seq<Act>)
    ensures NoCommands(reload + after) && NoFailures(before) && NoFailures(reload + after)
    ensures Prompt(StartedEngine(), before + [CallResume(RESUME)] + reload + after)
    ensures Run(StartedEngine(), before + [CallResume(RESUME)] + reload).f.state.Running?
    ensures var e := Run(StartedEngine(), before + [CallResume(RESUME)] + reload + after);
            Quiet(e) && e.f.state.Paused? && !e.f.loaded
  {
    var serve := [CreateOk(StartOp), Enter(StartOp)];
    var drain := [Arrive(0), CallPause(PAUSE, Normal)] + [BeginPause(PAUSE), Enter(PAUSE)];
    var pause := [CallPause(LAST_PAUSE, Immediate), BeginPause(LAST_PAUSE), Enter(LAST_PAUSE)]
                 + [Enter(LAST_PAUSE), Enter(LAST_PAUSE), Enter(LAST_PAUSE)];
    var resume := [CallResume(RESUME), Enter(RESUME)] + [VramFree(RESUME), CreateOk(RESUME), Enter(RESUME)];
    var e1 := Busy(map[PAUSE := Draining], [], false);
    var e2 := Stale(Paused, false, true, {}, map[], []);
    var e3 := Stale(Running, true, true, {}, map[], []);
    StartServes();
    YieldDrains();
    Join(StartedEngine(), serve, Serving(), drain, e1);
    ImmediatePauseOvertakes();
    Join(StartedEngine(), serve + drain, e1, pause, e2);
    ResumeReloads();
    before := serve + drain + pause;
    Join(StartedEngine(), before, e2, resume, e3);
    reload := [Enter(RESUME)] + [VramFree(RESUME), CreateOk(RESUME), Enter(RESUME)];
    assert resume == [CallResume(RESUME)] + reload;
    assert before + resume == before + [CallResume(RESUME)] + reload;
    after := [Leave(0), DrainEnd(PAUSE, false), Enter(PAUSE)] + [Enter(PAUSE), Enter(PAUSE), Enter(PAUSE)];
    StaleDrainEnds();
    Join(StartedEngine(), before + resume, e3, after, In(Paused, false, false, map[], []));
  }
}
