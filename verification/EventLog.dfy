/** The event log agrees with the state, and every subscriber sees a faithful part of it. */
module EventLog {
  import opened Lotus
  import opened Policy
  import opened EventBus
  import opened SchedulerModel

  ghost predicate IsSubsequence<T>(a: seq<T>, b: seq<T>) {
    a == [] || (b != [] && (IsSubsequence(a, b[..|b| - 1])
                            || (a[|a| - 1] == b[|b| - 1] && IsSubsequence(a[..|a| - 1], b[..|b| - 1]))))
  }

  lemma SubsequenceGrows<T>(a: seq<T>, b: seq<T>, x: T)
    requires IsSubsequence(a, b)
    ensures IsSubsequence(a, b + [x]) && IsSubsequence(a + [x], b + [x])
  {
    assert (b + [x])[..|b|] == b && (a + [x])[..|a|] == a;
  }

  // What the reader of a channel has seen or will see without anything more being sent.
  function Received(c: Channel): seq<YieldDecision> {
    c.taken + c.queue
  }

  ghost predicate ChannelOk(c: Channel, log: seq<YieldDecision>) {
    && |c.queue| <= BUFFER
    && c.joined <= |log|
    && |Received(c)| + c.lost == |log| - c.joined
    && IsSubsequence(Received(c), log[c.joined..])
    && (c.lost == 0 <==> Received(c) == log[c.joined..])
  }

  ghost predicate BusOk(b: Bus) {
    && (b.latest.Some? ==> b.latest.value.state == b.state)
    && (b.latest.None? ==> b.state == Unknown && b.log == [])
    && (b.log != [] ==> b.log[|b.log| - 1].state == b.state)
    && (forall i :: 0 < i < |b.log| ==> b.log[i - 1].state != b.log[i].state)
    && (forall id :: id in b.subs ==> id < b.nextSub && ChannelOk(b.subs[id], b.log))
  }

  lemma OfferKeepsChannelOk(c: Channel, log: seq<YieldDecision>, d: YieldDecision)
    requires ChannelOk(c, log)
    ensures ChannelOk(Offer(c, d), log + [d])
  {
    SubsequenceGrows(Received(c), log[c.joined..], d);
    assert (log + [d])[c.joined..] == log[c.joined..] + [d];
    if |c.queue| < BUFFER {
      assert Received(Offer(c, d)) == Received(c) + [d];
    }
  }

  lemma ApplyKeepsBusOk(b: Bus, d: YieldDecision)
    requires BusOk(b)
    ensures BusOk(Apply(b, d))
  {
    forall id | id in b.subs && b.state != d.state
      ensures ChannelOk(Offer(b.subs[id], d), b.log + [d])
    {
      OfferKeepsChannelOk(b.subs[id], b.log, d);
    }
  }

  lemma TakeKeepsChannelOk(c: Channel, log: seq<YieldDecision>)
    requires ChannelOk(c, log) && c.queue != []
    ensures ChannelOk(c.(queue := c.queue[1..], taken := c.taken + [c.queue[0]]), log)
  {
    assert c.taken + [c.queue[0]] + c.queue[1..] == c.taken + c.queue;
  }

  lemma TakeKeepsBusOk(b: Bus, id: nat)
    requires BusOk(b)
    ensures BusOk(Take(b, id))
  {
    if id in b.subs && b.subs[id].queue != [] {
      TakeKeepsChannelOk(b.subs[id], b.log);
    }
  }

  lemma SubscribeKeepsBusOk(b: Bus)
    requires BusOk(b)
    ensures BusOk(Subscribe(b))
  {
    assert b.log[|b.log|..] == [];
  }

  lemma NextKeepsBusOk(p: YieldPolicy, s: Sched, a: Act)
    requires BusOk(s.bus)
    ensures BusOk(Next(p, s, a).bus)
  {
    match a
    case Joins => SubscribeKeepsBusOk(s.bus);
    case Takes(id) => TakeKeepsBusOk(s.bus, id);
    case Win => ApplyKeepsBusOk(s.bus, WinDecision(p));
    case LotusFails => ApplyKeepsBusOk(s.bus, FAIL_SAFE);
    case TimerFires(_) => ApplyKeepsBusOk(s.bus, RESUME);
    case MonitorEnds(_, _) => ApplyKeepsBusOk(s.bus, RESUME);
    case Decides =>
      ApplyKeepsBusOk(s.bus, RESUME);
      if s.ctl.poll.Deciding? && s.ctl.poll.target.Some? {
        ApplyKeepsBusOk(s.bus, EvaluateWindowPost(p, s.ctl.poll.target.value));
      }
    case _ =>
  }

  /** Over every run: the latest decision, once set, carries the current state; neighbouring broadcasts
      differ and the last one is current; and each subscriber has received a subsequence of what was
      broadcast since it subscribed, at most 32 of it waiting, all of it unless it lost events. */
  lemma {:induction false} EventLogAgrees(p: YieldPolicy, acts: seq<Act>)
    ensures BusOk(Run(p, NewSched(), acts).bus)
  {
    if acts != [] {
      EventLogAgrees(p, acts[..|acts| - 1]);
      NextKeepsBusOk(p, Run(p, NewSched(), acts[..|acts| - 1]), acts[|acts| - 1]);
    }
  }

  /** What every step broadcasts: nothing if the state stays; and if it changes, the first time included, the
      decision that is the latest from then on, to everyone subscribed with room for it. */
  lemma EveryChangeIsBroadcast(p: YieldPolicy, s: Sched, a: Act)
    ensures var t := Next(p, s, a);
            if t.bus.state == s.bus.state then t.bus.log == s.bus.log
            else
              && t.bus.latest.Some? && t.bus.log == s.bus.log + [t.bus.latest.value]
              && forall id :: id in s.bus.subs && |s.bus.subs[id].queue| < 32 ==>
                   id in t.bus.subs && t.bus.subs[id].queue == s.bus.subs[id].queue + [t.bus.latest.value]
  {
  }

  /** A channel loses an event exactly at a broadcast that finds its buffer full. */
  lemma LossNeedsAFullBuffer(p: YieldPolicy, s: Sched, a: Act, id: nat)
    requires id in s.bus.subs && id in Next(p, s, a).bus.subs && id < s.bus.nextSub
    ensures Next(p, s, a).bus.subs[id].lost != s.bus.subs[id].lost
            <==> Next(p, s, a).bus.log != s.bus.log && |s.bus.subs[id].queue| >= BUFFER
  {
  }

  // The two buses differ at most in the channels of other subscribers.
  ghost predicate SameBus(b: Bus, c: Bus, id: nat) {
    && b.state == c.state && b.latest == c.latest && b.log == c.log && b.nextSub == c.nextSub
    && (id in b.subs <==> id in c.subs)
    && (id in b.subs ==> b.subs[id] == c.subs[id])
  }

  predicate SameRest(s: Sched, t: Sched) {
    s.ctl == t.ctl && s.completed == t.completed && s.detected == t.detected && s.cache == t.cache
  }

  ghost predicate SameFor(s: Sched, t: Sched, id: nat) {
    SameRest(s, t) && SameBus(s.bus, t.bus, id)
  }

  predicate OthersAct(a: Act, id: nat) {
    (a.Takes? || a.Leaves?) && a.id != id
  }

  // The run without the other readers' steps.
  function Alone(acts: seq<Act>, id: nat): seq<Act> {
    if acts == [] then []
    else
      var init, a := acts[..|acts| - 1], acts[|acts| - 1];
      if OthersAct(a, id) then Alone(init, id) else Alone(init, id) + [a]
  }

  lemma ApplyKeepsSame(b: Bus, c: Bus, d: YieldDecision, id: nat)
    requires SameBus(b, c, id)
    ensures SameBus(Apply(b, d), Apply(c, d), id)
    ensures SameBus(ApplyUnlessWinning(b, d), ApplyUnlessWinning(c, d), id)
  {
  }

  lemma ReaderKeepsSame(b: Bus, c: Bus, other: nat, id: nat)
    requires SameBus(b, c, id)
    ensures SameBus(Subscribe(b), Subscribe(c), id)
    ensures SameBus(Unsubscribe(b, other), Unsubscribe(c, other), id)
    ensures SameBus(Take(b, id), Take(c, id), id)
    ensures other != id ==> SameBus(Take(b, other), c, id) && SameBus(Unsubscribe(b, other), c, id)
  {
  }

  lemma NextKeepsSameRest(p: YieldPolicy, s: Sched, t: Sched, a: Act)
    requires SameRest(s, t) && s.bus.state == t.bus.state
    ensures SameRest(Next(p, s, a), Next(p, t, a))
  {
  }

  lemma NextKeepsSameBus(p: YieldPolicy, s: Sched, t: Sched, a: Act, id: nat)
    requires SameFor(s, t, id) && !OthersAct(a, id)
    ensures SameBus(Next(p, s, a).bus, Next(p, t, a).bus, id)
  {
    if !Enabled(s, a) { return; }
    match a
    case Win => ApplyKeepsSame(s.bus, t.bus, WinDecision(p), id);
    case LotusFails => ApplyKeepsSame(s.bus, t.bus, FAIL_SAFE, id);
    case TimerFires(_) => ApplyKeepsSame(s.bus, t.bus, RESUME, id);
    case MonitorEnds(_, _) => ApplyKeepsSame(s.bus, t.bus, RESUME, id);
    case Decides =>
      ApplyKeepsSame(s.bus, t.bus, RESUME, id);
      if s.ctl.poll.target.Some? {
        ApplyKeepsSame(s.bus, t.bus, EvaluateWindowPost(p, s.ctl.poll.target.value), id);
      }
    case Joins => ReaderKeepsSame(s.bus, t.bus, id, id);
    case Leaves(other) => ReaderKeepsSame(s.bus, t.bus, other, id);
    case Takes(_) => ReaderKeepsSame(s.bus, t.bus, id, id);
    case _ =>
  }

  /** What a subscriber receives, and everything the scheduler does, is the same whether the other
      subscribers drain their channels, let them fill up or leave. */
  lemma {:induction false} SubscribersAreIndependent(p: YieldPolicy, acts: seq<Act>, id: nat)
    ensures SameFor(Run(p, NewSched(), acts), Run(p, NewSched(), Alone(acts, id)), id)
  {
    if acts != [] {
      var init, a := acts[..|acts| - 1], acts[|acts| - 1];
      SubscribersAreIndependent(p, init, id);
      var s, t := Run(p, NewSched(), init), Run(p, NewSched(), Alone(init, id));
      if OthersAct(a, id) {
        ReaderKeepsSame(s.bus, t.bus, a.id, id);
      } else {
        NextKeepsSameRest(p, s, t, a);
        NextKeepsSameBus(p, s, t, a, id);
        assert Alone(acts, id)[..|Alone(acts, id)| - 1] == Alone(init, id);
      }
    }
  }

  // What a decision says goes with its state: no time is left exactly when a proof needs the GPU, and a win is
  // announced with the configured delay.
  predicate Announces(p: YieldPolicy, d: YieldDecision) {
    match d.state
    case Unknown => false
    case Available => d.urgency.Normal? && d.reason.Resume? && d.secondsUntilNextChange >= 0
    case Yielding => d.urgency.Normal? && d.reason.Approaching?
    case WindowPost =>
      && d.urgency.Immediate? && (d.reason.Approaching? || d.reason.Active? || d.reason.Disconnected?)
      && (d.reason.Disconnected? ==> d.secondsUntilNextChange == 0)
    case WinningPost =>
      d.urgency.Immediate? && d.reason.Winning? && d.secondsUntilNextChange == p.winningResumeDelaySec
  }

  ghost predicate AllAnnounce(p: YieldPolicy, b: Bus) {
    && (b.latest.Some? ==> Announces(p, b.latest.value))
    && (forall i :: 0 <= i < |b.log| ==> Announces(p, b.log[i]))
  }

  lemma ApplyAnnounces(p: YieldPolicy, b: Bus, d: YieldDecision)
    requires AllAnnounce(p, b) && Announces(p, d)
    ensures AllAnnounce(p, Apply(b, d)) && AllAnnounce(p, ApplyUnlessWinning(b, d))
  {
  }

  lemma PolicyAnnounces(p: YieldPolicy, d: DeadlineInfo)
    ensures Announces(p, EvaluateWindowPost(p, d))
  {
  }

  lemma NextAnnounces(p: YieldPolicy, s: Sched, a: Act)
    requires AllAnnounce(p, s.bus)
    ensures AllAnnounce(p, Next(p, s, a).bus)
  {
    if !Enabled(s, a) { return; }
    ApplyAnnounces(p, s.bus, RESUME);
    match a
    case Win => ApplyAnnounces(p, s.bus, WinDecision(p));
    case LotusFails => ApplyAnnounces(p, s.bus, FAIL_SAFE);
    case Decides =>
      if s.ctl.poll.target.Some? {
        PolicyAnnounces(p, s.ctl.poll.target.value);
        ApplyAnnounces(p, s.bus, EvaluateWindowPost(p, s.ctl.poll.target.value));
      }
    case _ =>
  }

  /** Over every run, the decision served and every event broadcast say what goes with their state: urgency,
      reason, and for a win the configured resume delay. */
  lemma {:induction false} EveryDecisionAnnounces(p: YieldPolicy, acts: seq<Act>)
    ensures AllAnnounce(p, Run(p, NewSched(), acts).bus)
  {
    if acts != [] {
      EveryDecisionAnnounces(p, acts[..|acts| - 1]);
      NextAnnounces(p, Run(p, NewSched(), acts[..|acts| - 1]), acts[|acts| - 1]);
    }
  }

  // A poll finds its deadline far enough away.
  predicate PolicyResumes(p: YieldPolicy, s: Sched, a: Act) {
    a.Decides? && s.ctl.poll.Deciding? && s.ctl.poll.target.Some?
    && EvaluateWindowPost(p, s.ctl.poll.target.value).state == Available
  }

  /** When the GPU becomes AVAILABLE for any other reason (a recorded proof, no deadline with sectors, a
      monitor's end, a win's timer), no next change is announced. */
  lemma OtherResumesNameNoChange(p: YieldPolicy, s: Sched, a: Act)
    requires s.bus.state != Available && Next(p, s, a).bus.state == Available && !PolicyResumes(p, s, a)
    ensures var latest := Next(p, s, a).bus.latest; latest.Some? && latest.value.secondsUntilNextChange == 0
  {
  }
}
