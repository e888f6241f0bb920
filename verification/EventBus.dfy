/** The GPU state, the latest decision, and the events broadcast to subscribers. */
module EventBus {
  import opened Wrappers
  import opened Policy

  const BUFFER := 32

  // A subscriber's channel: what waits in its buffer, what its reader has taken, how many events had
  // been broadcast when it subscribed, and how many were dropped since.
  datatype Channel = Channel(queue: seq<YieldDecision>, taken: seq<YieldDecision>, joined: nat, lost: nat)

  datatype Bus = Bus(
    state: GpuState,
    latest: Option<YieldDecision>,
    log: seq<YieldDecision>,          // every decision broadcast so far
    subs: map<nat, Channel>,
    nextSub: nat)

  function NewBus(): Bus {
    Bus(Unknown, None, [], map[], 0)
  }

  function Offer(c: Channel, d: YieldDecision): Channel {
    if |c.queue| < BUFFER then c.(queue := c.queue + [d]) else c.(lost := c.lost + 1)
  }

  function OfferAll(subs: map<nat, Channel>, d: YieldDecision): map<nat, Channel> {
    map id | id in subs :: Offer(subs[id], d)
  }

  function Broadcast(b: Bus, d: YieldDecision): Bus {
    b.(log := b.log + [d], subs := OfferAll(b.subs, d))
  }

  // applyDecision: unconditional.
  function Apply(b: Bus, d: YieldDecision): Bus {
    var b1 := b.(state := d.state, latest := Some(d));
    if b.state == d.state then b1 else Broadcast(b1, d)
  }

  // applyDecisionUnlessWinning: an active WINNING_POST and its decision stay.
  function ApplyUnlessWinning(b: Bus, d: YieldDecision): Bus {
    if b.state == WinningPost then b else Apply(b, d)
  }

  function Subscribe(b: Bus): Bus {
    b.(subs := b.subs[b.nextSub := Channel([], [], |b.log|, 0)], nextSub := b.nextSub + 1)
  }

  function Unsubscribe(b: Bus, id: nat): Bus {
    b.(subs := b.subs - {id})
  }

  // The reader of channel id takes the oldest event.
  function Take(b: Bus, id: nat): Bus {
    if id in b.subs && b.subs[id].queue != [] then
      var c := b.subs[id];
      b.(subs := b.subs[id := c.(queue := c.queue[1..], taken := c.taken + [c.queue[0]])])
    else b
  }
}
