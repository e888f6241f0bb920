/** The EnginePool object over its engines, changed in place. */
module EnginePoolObject {
  import opened Wrappers
  import opened Sidecar
  import opened EngineModel
  import opened PoolModel
  import opened Routing
  import opened Sessions
  import opened VllmEngineObject

  class EnginePool {
    const engines: seq<VLLMEngine>
    const lbStrategy: Strategy

    var pauseRequested: bool
    var rrIndex: nat
    var engineSessions: map<string, Pin>
    var sessionOrder: seq<string>       // the keys of engineSessions as they were inserted

    // The resume() loops and the pause() in progress.
    var loops: map<nat, nat>
    var nextLoop: nat
    var pausing: Option<nat>
    var nextPause: nat

    ghost predicate Valid() {
      forall i, j :: 0 <= i < j < |engines| ==> engines[i] != engines[j]
    }

    ghost function Engines(): (r: seq<Engine>)
      reads engines
      ensures |r| == |engines| && forall i :: 0 <= i < |engines| ==> r[i] == engines[i].Model()
    {
      seq(|engines|, i requires 0 <= i < |engines| reads engines => engines[i].Model())
    }

    ghost function Model(): Pool
      reads this, engines
    {
      Pool(Engines(), pauseRequested, loops, nextLoop, pausing, nextPause)
    }

    ghost function Router(): Routing.Router
      reads this
    {
      Routing.Router(rrIndex, Table(engineSessions, sessionOrder))
    }

    ghost function Slots(): (r: seq<Slot>)
      reads engines
      ensures |r| == |engines|
      ensures forall i :: 0 <= i < |engines| ==>
                r[i] == Slot(IsAvailable(engines[i].Model().f), engines[i].activeRequests)
    {
      seq(|engines|, i requires 0 <= i < |engines| reads engines
                       => Slot(IsAvailable(engines[i].Model().f), engines[i].activeRequests))
    }

    constructor (engines: seq<VLLMEngine>, lbStrategy: Strategy)
      requires forall i, j :: 0 <= i < j < |engines| ==> engines[i] != engines[j]
      ensures Valid() && this.engines == engines && this.lbStrategy == lbStrategy
      ensures Model() == Pool(Engines(), false, map[], 0, None, 0) && Router() == Routing.Router(0, EMPTY)
    {
      this.engines, this.lbStrategy := engines, lbStrategy;
      pauseRequested, rrIndex, engineSessions, sessionOrder := false, 0, map[], [];
      loops, nextLoop, pausing, nextPause := map[], 0, None, 0;
    }

    method RequestPause()
      modifies this`pauseRequested
      ensures Model() == PoolModel.Next(old(Model()), PoolAct.RequestPause)
    {
      pauseRequested := true;
    }

    // pause() up to its gather: one coroutine on every engine.
    method Pause(u: Urgency)
      requires Valid()
      requires forall i :: 0 <= i < |engines| ==> PauseOp(nextPause) !in engines[i].coroutines
      modifies this`pauseRequested, this`pausing, this`nextPause, engines
      ensures Model() == PoolModel.Next(old(Model()), PoolAct.BeginPause(u))
    {
      pauseRequested := true;
      var id := PauseOp(nextPause);
      for i := 0 to |engines|
        invariant forall k :: 0 <= k < i ==>
                    engines[k].Model() == EngineModel.Next(old(engines[k].Model()), CallPause(id, u))
        invariant forall k :: i <= k < |engines| ==> engines[k].Model() == old(engines[k].Model())
        modifies engines
      {
        engines[i].CallPause(id, u);
      }
      pausing := Some(nextPause);
      nextPause := nextPause + 1;
      assert Engines() == CallPauses(old(Engines()), id, u);
    }

    // The gather of pause() returns.
    method PauseReturned()
      requires PauseDone(Model())
      modifies this`pausing
      ensures Model() == PoolModel.Next(old(Model()), EndPause)
    {
      pausing := None;
    }

    // One iteration of a resume loop.
    method ResumeEngine(r: nat, i: nat)
      requires Valid()
      requires i < |engines| ==> ResumeOp(r) !in engines[i].coroutines
      modifies this`loops, engines
      ensures Model() == Iterate(old(Model()), r, i)
    {
      if i >= |engines| || pauseRequested {
        loops := loops - {r};
        return;
      }
      engines[i].CallResume(ResumeOp(r));
      loops := loops[r := i];
      assert Engines() == old(Engines())[i := EngineModel.Next(old(Engines())[i], CallResume(ResumeOp(r)))];
    }

    // resume() up to its first await.
    method Resume()
      requires Valid()
      requires |engines| > 0 ==> ResumeOp(nextLoop) !in engines[0].coroutines
      modifies this`pauseRequested, this`pausing, this`loops, this`nextLoop, engines
      ensures Model() == PoolModel.Next(old(Model()), BeginResume)
    {
      pauseRequested, pausing := false, None;
      nextLoop := nextLoop + 1;
      ResumeEngine(nextLoop - 1, 0);
    }

    // The awaited e.resume() of loop r returned.
    method ResumeReturned(r: nat)
      requires Valid() && PoolModel.Enabled(Model(), LoopStep(r))
      requires loops[r] + 1 < |engines| ==> ResumeOp(r) !in engines[loops[r] + 1].coroutines
      modifies this`loops, engines
      ensures Model() == PoolModel.Next(old(Model()), LoopStep(r))
    {
      ResumeEngine(r, loops[r] + 1);
    }

    method AvailableEngines() returns (available: seq<nat>)
      ensures available == Candidates(Slots())
    {
      available := [];
      ghost var slots := Slots();
      for i := 0 to |engines|
        invariant available == Candidates(slots[..i])
      {
        assert slots[..i + 1][..i] == slots[..i];
        if engines[i].state == Running && engines[i].accepting {
          available := available + [i];
        }
      }
      assert slots[..|engines|] == slots;
    }

    method LeastBusyOf(available: seq<nat>, ghost slots: seq<Slot>) returns (best: nat)
      requires available != [] && forall k :: 0 <= k < |available| ==> available[k] < |slots|
      requires |slots| == |engines| && forall i :: 0 <= i < |slots| ==> slots[i].load == engines[i].activeRequests
      ensures best < |slots| && best == LeastLoaded(slots, available)
    {
      best := available[0];
      for k := 1 to |available|
        invariant best < |slots| && best == LeastLoaded(slots, available[..k])
      {
        assert available[..k + 1][..k] == available[..k];
        if engines[available[k]].activeRequests < engines[best].activeRequests {
          best := available[k];
        }
      }
      assert available[..|available|] == available;
    }

    // The engine the session is pinned to, if it still may have it.
    method PinnedEngine(req: Request, available: seq<nat>) returns (pinned: Option<nat>)
      requires available == Candidates(Slots())
      ensures pinned == Pinned(Router(), Slots(), req)
    {
      if available == [] || req.key.None? || req.key.value !in engineSessions {
        return None;
      }
      var pin := engineSessions[req.key.value];
      if pin.expiry > req.now && pin.engine in available {
        var least := LeastBusyOf(available, Slots());
        if engines[pin.engine].activeRequests <= engines[least].activeRequests + AFFINITY_SLACK {
          return Some(pin.engine);
        }
      }
      return None;
    }

    // The configured balancing, without regard to the session.
    method BalancedEngine(available: seq<nat>) returns (e: nat)
      requires available == Candidates(Slots()) && available != []
      modifies this`rrIndex
      ensures engineSessions == old(engineSessions) && sessionOrder == old(sessionOrder)
      ensures (Router(), e) == Balanced(old(Router()), Slots(), lbStrategy)
    {
      if lbStrategy.RoundRobin? {
        e := available[rrIndex % |available|];
        rrIndex := rrIndex + 1;
      } else {
        e := LeastBusyOf(available, Slots());
      }
    }

    method RememberPin(req: Request, e: nat)
      modifies this`engineSessions, this`sessionOrder
      ensures Router() == Remember(old(Router()), req, e)
    {
      if req.key.Some? {
        if req.key.value !in engineSessions {
          sessionOrder := sessionOrder + [req.key.value];
        }
        engineSessions := engineSessions[req.key.value := Pin(e, req.now + SESSION_TTL)];
      }
    }

    // The first keys, at most a batch of them, whose entries are expired.
    method ExpiredBatch(now: real) returns (batch: seq<string>)
      ensures batch == Batch(Router().sessions, now)
    {
      batch := [];
      for i := 0 to |sessionOrder|
        invariant batch == Expired(engineSessions, sessionOrder[..i], now)
      {
        assert sessionOrder[..i + 1][..i] == sessionOrder[..i];
        if IsExpired(engineSessions, sessionOrder[i], now) {
          batch := batch + [sessionOrder[i]];
        }
      }
      assert sessionOrder[..|sessionOrder|] == sessionOrder;
      if |batch| > EXPIRY_BATCH {
        batch := batch[..EXPIRY_BATCH];
      }
    }

    method DeletePins(keys: seq<string>)
      modifies this`engineSessions, this`sessionOrder
      ensures Table(engineSessions, sessionOrder) == Delete(old(Table(engineSessions, sessionOrder)), SetOf(keys))
    {
      ghost var t := Table(engineSessions, sessionOrder);
      DeleteNothing(t);
      for i := 0 to |keys|
        invariant Table(engineSessions, sessionOrder) == Delete(t, SetOf(keys[..i]))
      {
        DeleteOneMore(t, keys, i);
        engineSessions := engineSessions - {keys[i]};
        sessionOrder := Without(sessionOrder, {keys[i]});
      }
      assert keys[..|keys|] == keys;
    }

    method ExpirePins(now: real)
      modifies this`engineSessions, this`sessionOrder
      ensures Router() == old(Router()).(sessions := Expire(old(Router()).sessions, now))
    {
      if |engineSessions| > MAX_SESSIONS {
        var batch := ExpiredBatch(now);
        DeletePins(batch);
      }
    }

    // The pick up to the check of the table; stores says whether it is checked.
    method ChooseEngine(req: Request) returns (chosen: Option<nat>, stores: bool)
      modifies this`rrIndex, this`engineSessions, this`sessionOrder
      ensures (Router(), chosen) == Choose(old(Router()), Slots(), lbStrategy, req)
      ensures stores == Stores(old(Router()), Slots(), req)
    {
      var available := AvailableEngines();
      if available == [] {
        return None, false;
      }
      chosen := PinnedEngine(req, available);
      stores := req.key.Some? && chosen.None?;
      if chosen.None? {
        var e := BalancedEngine(available);
        chosen := Some(e);
      }
      RememberPin(req, chosen.value);
    }

    method PickEngine(req: Request) returns (chosen: Option<nat>)
      modifies this`rrIndex, this`engineSessions, this`sessionOrder
      ensures (Router(), chosen) == Pick(old(Router()), Slots(), lbStrategy, req)
    {
      var stores;
      chosen, stores := ChooseEngine(req);
      if stores {
        ExpirePins(req.now);
      }
    }
  }
}
