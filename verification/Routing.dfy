/** Which engine of a multi_instance pool gets the next request. */
module Routing {
  import opened Wrappers
  import opened Arith
  import opened Sessions

  const AFFINITY_SLACK := 2

  datatype Strategy = LeastBusy | RoundRobin

  datatype Router = Router(rrIndex: nat, sessions: Table)

  // One engine: is it available, and how many requests has it?
  datatype Slot = Slot(available: bool, load: int)

  // A request: its session key and the time.
  datatype Request = Request(key: Option<string>, now: real)

  // The available engines, in order.
  function Candidates(es: seq<Slot>): (r: seq<nat>)
    ensures forall k :: 0 <= k < |r| ==> r[k] < |es| && es[r[k]].available
    ensures forall k, l :: 0 <= k < l < |r| ==> r[k] < r[l]
  {
    if es == [] then []
    else
      var n := |es| - 1;
      Candidates(es[..n]) + if es[n].available then [n] else []
  }

  // Where an available engine is among the candidates.
  lemma {:induction false} CandidateIndex(es: seq<Slot>, i: nat) returns (k: nat)
    requires i < |es| && es[i].available
    ensures k < |Candidates(es)| && Candidates(es)[k] == i
  {
    var n := |es| - 1;
    if i == n {
      k := |Candidates(es[..n])|;
    } else {
      k := CandidateIndex(es[..n], i);
    }
  }

  // min(available, key=load): the first of the least loaded.
  function LeastLoaded(es: seq<Slot>, c: seq<nat>): (r: nat)
    requires c != [] && forall k :: 0 <= k < |c| ==> c[k] < |es|
    ensures r in c && forall k :: 0 <= k < |c| ==> es[r].load <= es[c[k]].load
  {
    if |c| == 1 then c[0]
    else
      var best := LeastLoaded(es, c[..|c| - 1]);
      var last := c[|c| - 1];
      if es[last].load < es[best].load then last else best
  }

  // The session's engine, if it is still pinned, available and not much busier than the least loaded.
  function Pinned(r: Router, es: seq<Slot>, req: Request): Option<nat> {
    var c := Candidates(es);
    if c == [] || req.key.None? || req.key.value !in r.sessions.pins then None
    else
      var pin := r.sessions.pins[req.key.value];
      if pin.expiry > req.now && pin.engine in c
         && es[pin.engine].load <= es[LeastLoaded(es, c)].load + AFFINITY_SLACK
      then Some(pin.engine) else None
  }

  function Balanced(r: Router, es: seq<Slot>, s: Strategy): (Router, nat)
    requires Candidates(es) != []
  {
    var c := Candidates(es);
    if s.LeastBusy? then (r, LeastLoaded(es, c))
    else (r.(rrIndex := r.rrIndex + 1), c[r.rrIndex % |c|])
  }

  function Remember(r: Router, req: Request, engine: nat): Router {
    if req.key.None? then r
    else r.(sessions := Put(r.sessions, req.key.value, Pin(engine, req.now + SESSION_TTL)))
  }

  // The pick up to the point where a full table loses entries.
  function Choose(r: Router, es: seq<Slot>, s: Strategy, req: Request): (Router, Option<nat>) {
    if Candidates(es) == [] then (r, None)
    else
      var pinned := Pinned(r, es, req);
      if pinned.Some? then (Remember(r, req, pinned.value), pinned)
      else
        var (r1, chosen) := Balanced(r, es, s);
        (Remember(r1, req, chosen), Some(chosen))
  }

  // A session that was not served by its pin is stored anew, and the table is checked.
  predicate Stores(r: Router, es: seq<Slot>, req: Request) {
    Candidates(es) != [] && req.key.Some? && Pinned(r, es, req).None?
  }

  /** _pick_engine: the engine chosen, or None when no engine is available. */
  function Pick(r: Router, es: seq<Slot>, s: Strategy, req: Request): (Router, Option<nat>) {
    var (r1, e) := Choose(r, es, s, req);
    (if Stores(r, es, req) then r1.(sessions := Expire(r1.sessions, req.now)) else r1, e)
  }

  /** A pick fails only when nothing is available, and otherwise picks an available engine. */
  lemma PickIsAvailable(r: Router, es: seq<Slot>, s: Strategy, req: Request)
    ensures var (_, e) := Pick(r, es, s, req);
            && (e.None? <==> forall i :: 0 <= i < |es| ==> !es[i].available)
            && (e.Some? ==> e.value < |es| && es[e.value].available)
  {
    var c := Candidates(es);
    if c == [] {
      forall i | 0 <= i < |es|
        ensures !es[i].available
      {
        if es[i].available {
          var k := CandidateIndex(es, i);
          assert false;
        }
      }
    } else {
      assert es[c[0]].available;
    }
  }

  // The chosen engine starts the request.
  function Serve(es: seq<Slot>, e: Option<nat>): seq<Slot> {
    if e.Some? && e.value < |es| then es[e.value := es[e.value].(load := es[e.value].load + 1)] else es
  }

  lemma CandidatesSame(es: seq<Slot>, fs: seq<Slot>)
    requires |es| == |fs| && forall i :: 0 <= i < |es| ==> es[i].available == fs[i].available
    ensures Candidates(es) == Candidates(fs)
  {
  }

  lemma ServeKeepsCandidates(es: seq<Slot>, e: Option<nat>)
    ensures Candidates(Serve(es, e)) == Candidates(es)
  {
    CandidatesSame(es, Serve(es, e));
  }

  // The pool after a run of requests, none of which completes.
  function Run(r: Router, es: seq<Slot>, s: Strategy, reqs: seq<Request>): (Router, seq<Slot>)
    decreases |reqs|
  {
    if reqs == [] then (r, es)
    else
      var (r1, e) := Pick(r, es, s, reqs[0]);
      Run(r1, Serve(es, e), s, reqs[1..])
  }

  ghost predicate WithinSlack(es: seq<Slot>) {
    forall i, j :: 0 <= i < |es| && 0 <= j < |es| && es[i].available && es[j].available ==>
      es[i].load <= es[j].load + 3
  }

  lemma PickKeepsWithinSlack(r: Router, es: seq<Slot>, req: Request)
    requires WithinSlack(es)
    ensures WithinSlack(Serve(es, Pick(r, es, LeastBusy, req).1))
  {
    PickIsAvailable(r, es, LeastBusy, req);
    var c := Candidates(es);
    if c != [] {
      forall j | 0 <= j < |es| && es[j].available
        ensures es[LeastLoaded(es, c)].load <= es[j].load
      {
        var k := CandidateIndex(es, j);
      }
    }
  }

  /** Under least_busy with session affinity, over any sequence of picks with no completions, the loads of
      available engines never spread by more than the slack and one request. */
  lemma {:induction false} LoadsStayWithinSlack(r: Router, es: seq<Slot>, reqs: seq<Request>)
    requires WithinSlack(es)
    ensures WithinSlack(Run(r, es, LeastBusy, reqs).1)
    decreases |reqs|
  {
    if reqs != [] {
      var (r1, e) := Pick(r, es, LeastBusy, reqs[0]);
      PickKeepsWithinSlack(r, es, reqs[0]);
      LoadsStayWithinSlack(r1, Serve(es, e), reqs[1..]);
    }
  }

  // A request and the engines it finds: load and availability may change freely in between.
  datatype Arrival = Arrival(req: Request, es: seq<Slot>)

  // Where a run of arrivals goes; a router that is not bounded never loses an entry.
  function Route(r: Router, s: Strategy, arrivals: seq<Arrival>, bounded: bool): (Router, seq<Option<nat>>)
    decreases |arrivals|
  {
    if arrivals == [] then (r, [])
    else
      var Arrival(req, es) := arrivals[0];
      var (r1, e) := if bounded then Pick(r, es, s, req) else Choose(r, es, s, req);
      var (r2, rest) := Route(r1, s, arrivals[1..], bounded);
      (r2, [e] + rest)
  }

  // Two session tables that differ only in entries expired by now route alike.
  ghost predicate SameLive(a: Router, b: Router, now: real) {
    && a.rrIndex == b.rrIndex
    && forall k :: (k in a.sessions.pins && a.sessions.pins[k].expiry > now
                    <==> k in b.sessions.pins && b.sessions.pins[k].expiry > now)
                   && (k in a.sessions.pins && a.sessions.pins[k].expiry > now
                       ==> a.sessions.pins[k] == b.sessions.pins[k])
  }

  lemma ChooseSame(a: Router, b: Router, es: seq<Slot>, s: Strategy, req: Request)
    requires SameLive(a, b, req.now)
    ensures Pinned(a, es, req) == Pinned(b, es, req)
    ensures Choose(a, es, s, req).1 == Choose(b, es, s, req).1
    ensures SameLive(Choose(a, es, s, req).0, Choose(b, es, s, req).0, req.now)
  {
  }

  lemma PickSame(a: Router, b: Router, es: seq<Slot>, s: Strategy, req: Request)
    requires SameLive(a, b, req.now)
    ensures Pick(a, es, s, req).1 == Choose(b, es, s, req).1
    ensures SameLive(Pick(a, es, s, req).0, Choose(b, es, s, req).0, req.now)
  {
    ChooseSame(a, b, es, s, req);
    ExpireDropsExpired(Choose(a, es, s, req).0.sessions, req.now);
  }

  // Arrivals in the order of time.
  ghost predicate InTime(arrivals: seq<Arrival>) {
    forall i, j :: 0 <= i < j < |arrivals| ==> arrivals[i].req.now <= arrivals[j].req.now
  }

  /** Dropping expired sessions when the table is full never changes where any later request goes, whatever
      completes or becomes unavailable in between. */
  lemma {:induction false} ExpiryIsInvisible(a: Router, b: Router, s: Strategy, arrivals: seq<Arrival>)
    requires InTime(arrivals) && (arrivals != [] ==> SameLive(a, b, arrivals[0].req.now))
    ensures Route(a, s, arrivals, true).1 == Route(b, s, arrivals, false).1
    decreases |arrivals|
  {
    if arrivals != [] {
      var Arrival(req, es) := arrivals[0];
      PickSame(a, b, es, s, req);
      assert |arrivals| > 1 ==> req.now <= arrivals[1].req.now;
      ExpiryIsInvisible(Pick(a, es, s, req).0, Choose(b, es, s, req).0, s, arrivals[1..]);
    }
  }

  // The session is pinned to engine e until epoch `until`.
  predicate PinnedUntil(r: Router, key: string, e: nat, until: real) {
    key in r.sessions.pins && r.sessions.pins[key] == Pin(e, until)
  }

  // Requests of other sessions, all before `until`.
  ghost predicate OthersBefore(arrivals: seq<Arrival>, key: string, until: real) {
    forall i :: 0 <= i < |arrivals| ==> arrivals[i].req.key != Some(key) && arrivals[i].req.now < until
  }

  lemma {:induction false} PinSurvives(r: Router, s: Strategy, arrivals: seq<Arrival>, key: string, e: nat, until: real)
    requires PinnedUntil(r, key, e, until) && OthersBefore(arrivals, key, until)
    ensures PinnedUntil(Route(r, s, arrivals, true).0, key, e, until)
    decreases |arrivals|
  {
    if arrivals != [] {
      var Arrival(req, es) := arrivals[0];
      ExpireDropsExpired(Choose(r, es, s, req).0.sessions, req.now);
      PinSurvives(Pick(r, es, s, req).0, s, arrivals[1..], key, e, until);
    }
  }

  // Engine e is available and at most the slack busier than any available engine.
  ghost predicate GoodEnough(es: seq<Slot>, e: nat) {
    e < |es| && es[e].available
    && forall j :: 0 <= j < |es| && es[j].available ==> es[e].load <= es[j].load + 2
  }

  lemma PinnedWhenGood(r: Router, es: seq<Slot>, req: Request, e: nat, until: real)
    requires req.key.Some? && PinnedUntil(r, req.key.value, e, until) && req.now < until
    ensures Pinned(r, es, req) == if GoodEnough(es, e) then Some(e) else None
  {
    var c := Candidates(es);
    if e < |es| && es[e].available {
      var k := CandidateIndex(es, e);
      var least := LeastLoaded(es, c);
      forall j | 0 <= j < |es| && es[j].available
        ensures es[least].load <= es[j].load
      {
        var l := CandidateIndex(es, j);
      }
    }
  }

  lemma LeastIsGood(es: seq<Slot>)
    requires Candidates(es) != []
    ensures GoodEnough(es, LeastLoaded(es, Candidates(es)))
  {
    var c := Candidates(es);
    forall j | 0 <= j < |es| && es[j].available
      ensures es[LeastLoaded(es, c)].load <= es[j].load
    {
      var k := CandidateIndex(es, j);
    }
  }

  /** Session affinity: whatever other sessions do in between, and whatever completes or becomes unavailable,
      a session's next request within the TTL goes to the engine of its last one if that engine is then
      available and within the slack; and under least_busy only then. */
  lemma SessionSticks(r: Router, s: Strategy, first: Arrival, between: seq<Arrival>, next: Arrival)
    requires first.req.key.Some? && next.req.key == first.req.key && Pick(r, first.es, s, first.req).1.Some?
    requires var until := first.req.now + 600.0;
             OthersBefore(between, first.req.key.value, until) && next.req.now < until
    ensures var (r1, e) := Pick(r, first.es, s, first.req);
            var again := Pick(Route(r1, s, between, true).0, next.es, s, next.req).1;
            && (GoodEnough(next.es, e.value) ==> again == e)
            && (s.LeastBusy? && !GoodEnough(next.es, e.value) ==> again != e)
  {
    var (r1, e) := Pick(r, first.es, s, first.req);
    var until := first.req.now + 600.0;
    ExpireDropsExpired(Choose(r, first.es, s, first.req).0.sessions, first.req.now);
    PinSurvives(r1, s, between, first.req.key.value, e.value, until);
    PinnedWhenGood(Route(r1, s, between, true).0, next.es, next.req, e.value, until);
    if s.LeastBusy? && Candidates(next.es) != [] && !GoodEnough(next.es, e.value) {
      LeastIsGood(next.es);
    }
  }

  // The engine a session has to go back to: its pin has not run out, and its engine is good enough.
  ghost predicate Sticks(r: Router, es: seq<Slot>, req: Request, e: nat) {
    && req.key.Some? && req.key.value in r.sessions.pins
    && r.sessions.pins[req.key.value].engine == e && r.sessions.pins[req.key.value].expiry > req.now
    && GoodEnough(es, e)
  }

  lemma PinnedIs(r: Router, es: seq<Slot>, req: Request)
    ensures forall e: nat :: Pinned(r, es, req) == Some(e) <==> Sticks(r, es, req, e)
  {
    if req.key.Some? && req.key.value in r.sessions.pins {
      var pin := r.sessions.pins[req.key.value];
      if pin.expiry > req.now {
        PinnedWhenGood(r, es, req, pin.engine, pin.expiry);
      }
    }
  }

  // The first of the least busy available engines.
  ghost predicate FirstLeast(es: seq<Slot>, e: nat) {
    && e < |es| && es[e].available
    && (forall j :: 0 <= j < |es| && es[j].available ==> es[e].load <= es[j].load)
    && (forall j :: 0 <= j < e && es[j].available ==> es[e].load < es[j].load)
  }

  lemma {:induction false} LeastIsFirst(es: seq<Slot>, c: seq<nat>)
    requires c != [] && (forall k :: 0 <= k < |c| ==> c[k] < |es|) && forall k, l :: 0 <= k < l < |c| ==> c[k] < c[l]
    ensures forall k :: 0 <= k < |c| && c[k] < LeastLoaded(es, c) ==> es[LeastLoaded(es, c)].load < es[c[k]].load
  {
    if |c| > 1 {
      LeastIsFirst(es, c[..|c| - 1]);
    }
  }

  /** Exactly where a request goes under least_busy: to its session's engine if the pin has not run out and
      that engine is good enough, and else to the first of the least busy available ones. */
  lemma LeastBusyPicks(r: Router, es: seq<Slot>, req: Request, e: nat)
    requires Pick(r, es, LeastBusy, req).1 == Some(e)
    ensures Sticks(r, es, req, e) || (FirstLeast(es, e) && forall p: nat :: !Sticks(r, es, req, p))
    ensures Pick(r, es, LeastBusy, req).0.rrIndex == r.rrIndex
  {
    PinnedIs(r, es, req);
    if Pinned(r, es, req).None? {
      var c := Candidates(es);
      LeastIsFirst(es, c);
      forall j | 0 <= j < |es| && es[j].available
        ensures es[e].load <= es[j].load && (j < e ==> es[e].load < es[j].load)
      {
        var k := CandidateIndex(es, j);
      }
    }
  }

  // How many of the first n engines are available.
  function AvailableBefore(es: seq<Slot>, n: nat): nat
    requires n <= |es|
  {
    if n == 0 then 0 else AvailableBefore(es, n - 1) + if es[n - 1].available then 1 else 0
  }

  lemma {:induction false} CandidateCount(es: seq<Slot>, n: nat)
    requires n <= |es|
    ensures |Candidates(es[..n])| == AvailableBefore(es, n)
    ensures Candidates(es[..n]) <= Candidates(es)
    decreases |es| - n
  {
    if n == |es| {
      assert es[..n] == es;
      CountAll(es);
    } else {
      CandidateCount(es, n + 1);
      assert es[..n + 1][..n] == es[..n];
    }
  }

  lemma {:induction false} CountAll(es: seq<Slot>)
    ensures |Candidates(es)| == AvailableBefore(es, |es|)
  {
    if es != [] {
      var init := es[..|es| - 1];
      CountAll(init);
      CountSame(es, init, |init|);
    }
  }

  lemma {:induction false} CountSame(es: seq<Slot>, init: seq<Slot>, n: nat)
    requires n <= |init| && init <= es
    ensures AvailableBefore(es, n) == AvailableBefore(init, n)
  {
    if n > 0 {
      CountSame(es, init, n - 1);
    }
  }

  // The available engine with k available ones before it.
  lemma NthAvailable(es: seq<Slot>, k: nat)
    requires k < |Candidates(es)|
    ensures var e := Candidates(es)[k]; e < |es| && es[e].available && AvailableBefore(es, e) == k
  {
    var e := Candidates(es)[k];
    CandidateCount(es, e);
    CandidateCount(es, e + 1);
    assert es[..e + 1][..e] == es[..e];
    var n := AvailableBefore(es, e);
    assert Candidates(es)[n] == e;
  }

  /** Exactly where a request goes under round_robin: to its session's engine, which leaves the counter as it
      is; and else to the available engine that has as many available ones before it as the counter says,
      around the available ones, and the counter goes on by one. */
  lemma RoundRobinPicks(r: Router, es: seq<Slot>, req: Request, e: nat)
    requires Pick(r, es, RoundRobin, req).1 == Some(e)
    ensures var next := Pick(r, es, RoundRobin, req).0.rrIndex;
            || (Sticks(r, es, req, e) && next == r.rrIndex)
            || (&& (forall p: nat :: !Sticks(r, es, req, p)) && next == r.rrIndex + 1
                && e < |es| && es[e].available && AvailableBefore(es, |es|) > 0
                && AvailableBefore(es, e) == r.rrIndex % AvailableBefore(es, |es|))
  {
    PinnedIs(r, es, req);
    CountAll(es);
    if Pinned(r, es, req).None? {
      NthAvailable(es, r.rrIndex % |Candidates(es)|);
    }
  }

  /** A session that goes back to its engine only has its pin renewed: the counter, the other sessions and their
      order stay, expired or not. */
  lemma StickingOnlyRenews(r: Router, es: seq<Slot>, s: Strategy, req: Request, e: nat)
    requires Sticks(r, es, req, e)
    ensures var (r1, chosen) := Pick(r, es, s, req);
            && chosen == Some(e) && r1.rrIndex == r.rrIndex && r1.sessions.order == r.sessions.order
            && r1.sessions.pins == r.sessions.pins[req.key.value := Pin(e, req.now + 600.0)]
  {
    PinnedIs(r, es, req);
  }

  // The size of the session table.

  // A new session comes to a full table.
  predicate Fills(r: Router, es: seq<Slot>, req: Request) {
    Candidates(es) != [] && req.key.Some? && req.key.value !in r.sessions.pins && |r.sessions.pins| == 4096
  }

  // And nothing in it is expired.
  predicate Overflows(r: Router, es: seq<Slot>, req: Request) {
    Fills(r, es, req) && Live(r.sessions, req.now)
  }

  // The table that a pick stores into, before it is checked.
  lemma ChooseKeepsTable(r: Router, es: seq<Slot>, s: Strategy, req: Request)
    requires TableOk(r.sessions)
    ensures var t := Choose(r, es, s, req).0.sessions;
            && TableOk(t)
            && (Candidates(es) == [] || req.key.None? ==> t == r.sessions)
            && (Candidates(es) != [] && req.key.Some? ==>
                  && t.pins.Keys == r.sessions.pins.Keys + {req.key.value}
                  && |t.pins| == |r.sessions.pins| + (if req.key.value in r.sessions.pins then 0 else 1)
                  && (Live(t, req.now) <==> forall k :: k in r.sessions.pins && k != req.key.value
                                                        ==> r.sessions.pins[k].expiry > req.now))
  {
    var (r1, e) := Choose(r, es, s, req);
    if e.Some? && req.key.Some? {
      var pin := Pin(e.value, req.now + SESSION_TTL);
      assert r1.sessions == Put(r.sessions, req.key.value, pin);
      PutKeepsTable(r.sessions, req.key.value, pin);
      PutIsLive(r.sessions, req.key.value, pin, req.now);
    }
  }

  lemma PutIsLive(t: Table, key: string, pin: Pin, now: real)
    requires pin.expiry > now
    ensures Live(Put(t, key, pin), now) <==> forall k :: k in t.pins && k != key ==> t.pins[k].expiry > now
    ensures Put(t, key, pin).pins.Keys == t.pins.Keys + {key}
  {
    var u := Put(t, key, pin);
    if Live(u, now) {
      forall k | k in t.pins && k != key ensures t.pins[k].expiry > now {
        assert u.pins[k] == t.pins[k];
      }
    }
  }

  lemma PickKeepsTable(r: Router, es: seq<Slot>, s: Strategy, req: Request)
    requires TableOk(r.sessions)
    ensures TableOk(Pick(r, es, s, req).0.sessions)
  {
    ChooseKeepsTable(r, es, s, req);
    ExpireKeepsTable(Choose(r, es, s, req).0.sessions, req.now);
  }

  lemma ChooseFills(r: Router, es: seq<Slot>, s: Strategy, req: Request)
    requires TableOk(r.sessions) && |r.sessions.pins| <= 4096
    ensures var t := Choose(r, es, s, req).0.sessions;
            if Fills(r, es, req)
            then TableOk(t) && |t.pins| == 4097 && (Live(t, req.now) <==> Live(r.sessions, req.now))
            else |t.pins| <= 4096
  {
    ChooseKeepsTable(r, es, s, req);
  }

  /** The bound of 4096 sessions is kept by a pick if and only if the pick does not store a new session in a
      full table of live ones. */
  lemma TableBoundKept(r: Router, es: seq<Slot>, s: Strategy, req: Request)
    requires TableOk(r.sessions) && |r.sessions.pins| <= 4096
    ensures |Pick(r, es, s, req).0.sessions.pins| <= 4096 <==> !Overflows(r, es, req)
  {
    ChooseFills(r, es, s, req);
    if Fills(r, es, req) {
      ExpireMakesRoom(Choose(r, es, s, req).0.sessions, req.now);
    }
  }

  // Requests of different new sessions at one time.
  ghost predicate NewSessions(t: Table, reqs: seq<Request>, now: real) {
    && (forall i :: 0 <= i < |reqs| ==> reqs[i].now == now && reqs[i].key.Some? && reqs[i].key.value !in t.pins)
    && (forall i, j :: 0 <= i < j < |reqs| ==> reqs[i].key != reqs[j].key)
  }

  lemma StoredLive(r: Router, es: seq<Slot>, s: Strategy, req: Request)
    requires TableOk(r.sessions) && Live(r.sessions, req.now) && Candidates(es) != []
    requires req.key.Some? && req.key.value !in r.sessions.pins
    ensures var t := Pick(r, es, s, req).0.sessions;
            TableOk(t) && Live(t, req.now) && t.pins.Keys == r.sessions.pins.Keys + {req.key.value}
            && |t.pins| == |r.sessions.pins| + 1
  {
    ChooseKeepsTable(r, es, s, req);
    PickKeepsTable(r, es, s, req);
    ExpireDropsExpired(Choose(r, es, s, req).0.sessions, req.now);
  }

  lemma LaterSessions(t: Table, after: Table, reqs: seq<Request>, now: real)
    requires reqs != [] && NewSessions(t, reqs, now) && after.pins.Keys == t.pins.Keys + {reqs[0].key.value}
    ensures NewSessions(after, reqs[1..], now)
  {
  }

  lemma {:induction false} LiveSessionsStay(r: Router, es: seq<Slot>, s: Strategy, reqs: seq<Request>, now: real)
    requires TableOk(r.sessions) && Live(r.sessions, now) && Candidates(es) != [] && NewSessions(r.sessions, reqs, now)
    ensures |Run(r, es, s, reqs).0.sessions.pins| == |r.sessions.pins| + |reqs|
    decreases |reqs|
  {
    if reqs != [] {
      var (r1, e) := Pick(r, es, s, reqs[0]);
      StoredLive(r, es, s, reqs[0]);
      LaterSessions(r.sessions, r1.sessions, reqs, now);
      ServeKeepsCandidates(es, e);
      LiveSessionsStay(r1, Serve(es, e), s, reqs[1..], now);
    }
  }

  // n different keys, none of them empty.
  function Keys(n: nat): (r: seq<Request>)
    ensures |r| == n && forall i :: 0 <= i < n ==> r[i] == Request(Some(seq(i + 1, _ => 'k')), 0.0)
  {
    seq(n, i requires 0 <= i < n => Request(Some(seq(i + 1, _ => 'k')), 0.0))
  }

  /** So the table has no bound: n sessions within one TTL make it n entries long, for every n. */
  lemma TableHasNoBound(es: seq<Slot>, s: Strategy, n: nat)
    requires Candidates(es) != []
    ensures |Run(Router(0, EMPTY), es, s, Keys(n)).0.sessions.pins| == n
  {
    var reqs := Keys(n);
    forall i, j | 0 <= i < j < n ensures reqs[i].key != reqs[j].key {
      assert |reqs[i].key.value| == i + 1 && |reqs[j].key.value| == j + 1;
    }
    LiveSessionsStay(Router(0, EMPTY), es, s, reqs, 0.0);
  }

  // How many of the k numbers from `from` on leave remainder j modulo m.
  function Hits(from: nat, k: nat, m: nat, j: nat): nat
    requires m > 0
    decreases k
  {
    if k == 0 then 0 else (if from % m == j then 1 else 0) + Hits(from + 1, k - 1, m, j)
  }

  lemma ShiftedHit(x: nat, m: nat, j: nat)
    requires j < m
    ensures (x + (m - 1 - j) + 1) % m == 0 <==> x % m == j
  {
    var q, r := x / m, x % m;
    assert (q + 1) * m == q * m + m;
    if r >= j {
      DivModUnique(x + m - j, m, q + 1, r - j);
    } else {
      DivModUnique(x + m - j, m, q, r + m - j);
    }
  }

  // The same count as a difference of quotients.
  lemma {:induction false} HitsAre(from: nat, k: nat, m: nat, j: nat)
    requires j < m
    ensures Hits(from, k, m, j) == (from + k + (m - 1 - j)) / m - (from + (m - 1 - j)) / m
    decreases k
  {
    if k > 0 {
      HitsAre(from + 1, k - 1, m, j);
      DivStep(from + (m - 1 - j), m);
      ShiftedHit(from, m, j);
    }
  }

  ghost predicate NoSessions(reqs: seq<Request>) {
    forall i :: 0 <= i < |reqs| ==> reqs[i].key.None?
  }

  lemma HitsBound(from: nat, k: nat, m: nat, j: nat)
    requires j < m
    ensures k / m <= Hits(from, k, m, j) <= k / m + 1
  {
    HitsAre(from, k, m, j);
    DivGap(from + (m - 1 - j), k, m);
  }

  // The first of several picks, and what is left to do.
  lemma RoundRobinStep(r: Router, es: seq<Slot>, reqs: seq<Request>, c: seq<nat>, j: nat)
    returns (r1: Router, es1: seq<Slot>)
    requires reqs != [] && reqs[0].key.None? && c == Candidates(es) && j < |c|
    ensures Run(r, es, RoundRobin, reqs) == Run(r1, es1, RoundRobin, reqs[1..])
    ensures r1.rrIndex == r.rrIndex + 1 && |es1| == |es| && Candidates(es1) == c
    ensures es1[c[j]].load == es[c[j]].load + if r.rrIndex % |c| == j then 1 else 0
  {
    var k := r.rrIndex % |c|;
    var (r', e) := Pick(r, es, RoundRobin, reqs[0]);
    assert e == Some(c[k]);
    assert c[k] == c[j] <==> k == j;
    r1, es1 := r', Serve(es, e);
    ServeKeepsCandidates(es, e);
  }

  // Without sessions, round robin gives each available engine its share of consecutive numbers.
  lemma {:induction false} RoundRobinHits(r: Router, es: seq<Slot>, reqs: seq<Request>, c: seq<nat>, j: nat)
    requires NoSessions(reqs) && c == Candidates(es) && j < |c|
    ensures var fs := Run(r, es, RoundRobin, reqs).1;
            |fs| == |es| && fs[c[j]].load == es[c[j]].load + Hits(r.rrIndex, |reqs|, |c|, j)
    decreases |reqs|
  {
    if reqs != [] {
      var r1, es1 := RoundRobinStep(r, es, reqs, c, j);
      RoundRobinHits(r1, es1, reqs[1..], c, j);
    }
  }

  /** Under round_robin without sessions, whatever the starting counter, after any number of picks the
      picks of any two available engines differ by at most one. */
  lemma RoundRobinIsFair(r: Router, es: seq<Slot>, reqs: seq<Request>, i: nat, j: nat)
    requires NoSessions(reqs) && i < |es| && j < |es| && es[i].available && es[j].available
    ensures var fs := Run(r, es, RoundRobin, reqs).1;
            |fs| == |es| && (fs[i].load - es[i].load) - (fs[j].load - es[j].load) <= 1
  {
    var c := Candidates(es);
    var a := CandidateIndex(es, i);
    var b := CandidateIndex(es, j);
    RoundRobinHits(r, es, reqs, c, a);
    RoundRobinHits(r, es, reqs, c, b);
    HitsBound(r.rrIndex, |reqs|, |c|, a);
    HitsBound(r.rrIndex, |reqs|, |c|, b);
  }
}
