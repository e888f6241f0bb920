/** The Scheduler struct and its state machine, changed in place.  Each method is one step of one
    goroutine, and leaves exactly the state that SchedulerModel.Next gives. */
module SchedulerObject {
  import opened Wrappers
  import opened Lotus
  import opened Policy
  import opened LookAhead
  import opened EventBus
  import opened SchedulerModel

  class StateMachine {
    var current: GpuState

    constructor ()
      ensures current == Unknown
    {
      current := Unknown;
    }

    method Transition(newState: GpuState) returns (changed: bool)
      modifies this
      ensures current == newState && changed == (old(current) != newState)
    {
      if current == newState {
        return false;
      }
      current := newState;
      return true;
    }

    method TransitionUnless(newState: GpuState, blocked: seq<GpuState>) returns (changed: bool)
      modifies this
      ensures changed == (old(current) !in blocked && old(current) != newState)
      ensures current == if old(current) in blocked then old(current) else newState
    {
      for i := 0 to |blocked|
        invariant current == old(current) && current !in blocked[..i]
      {
        if current == blocked[i] {
          return false;
        }
      }
      if current == newState {
        return false;
      }
      current := newState;
      return true;
    }
  }

  class Scheduler {
    const policy: YieldPolicy
    const sm: StateMachine

    var latestDecision: Option<YieldDecision>
    var subscribers: map<nat, seq<YieldDecision>>     // the buffered channels
    var nextSubId: nat
    var sectorCache: SectorCounts
    var sectorCacheEpoch: int
    var completedProofs: set<ProofKey>
    var proofMonitorActive: bool
    var winningGen: nat

    // The goroutines: live resume timers, outstanding proof monitors, and the poller.
    var timers: set<nat>
    var monitors: seq<ProofKey>
    var poll: PollPc

    // What was broadcast, every channel with what its reader took and lost, and what was detected.
    ghost var log: seq<YieldDecision>
    ghost var channels: map<nat, Channel>
    ghost var detectedProofs: set<ProofKey>

    ghost predicate Valid()
      reads this
    {
      && channels.Keys == subscribers.Keys
      && forall id :: id in subscribers ==> channels[id].queue == subscribers[id]
    }

    ghost function Model(): Sched
      reads this, sm
    {
      Sched(Bus(sm.current, latestDecision, log, channels, nextSubId),
            Control(winningGen, timers, proofMonitorActive, monitors, poll),
            completedProofs, detectedProofs, Cache(sectorCache, sectorCacheEpoch))
    }

    constructor (policy: YieldPolicy)
      ensures Valid() && fresh(sm) && this.policy == policy && Model() == NewSched()
    {
      this.policy := policy;
      sm := new StateMachine();
      latestDecision, subscribers, nextSubId := None, map[], 0;
      sectorCache, sectorCacheEpoch := map[], 0;
      completedProofs, proofMonitorActive, winningGen := {}, false, 0;
      timers, monitors, poll := {}, [], Idle;
      log, channels, detectedProofs := [], map[], {};
    }

    method BroadcastEvent(d: YieldDecision)
      requires Valid()
      modifies this`subscribers, this`log, this`channels
      ensures Valid()
      ensures log == old(log) + [d] && channels == OfferAll(old(channels), d)
    {
      var left := subscribers.Keys;
      while left != {}
        invariant Valid() && channels.Keys == old(channels.Keys) && left <= channels.Keys && log == old(log)
        invariant forall id :: id in channels ==>
                    channels[id] == if id in left then old(channels)[id] else Offer(old(channels)[id], d)
        decreases left
      {
        var id :| id in left;
        if |subscribers[id]| < BUFFER {
          subscribers := subscribers[id := subscribers[id] + [d]];
        }
        channels := channels[id := Offer(channels[id], d)];
        left := left - {id};
      }
      log := log + [d];
    }

    method ApplyDecision(d: YieldDecision)
      requires Valid()
      modifies sm, this`latestDecision, this`subscribers, this`log, this`channels
      ensures Valid() && Model() == old(Model()).(bus := Apply(old(Model()).bus, d))
    {
      var changed := sm.Transition(d.state);
      latestDecision := Some(d);
      if changed {
        BroadcastEvent(d);
      }
    }

    method ApplyDecisionUnlessWinning(d: YieldDecision)
      requires Valid()
      modifies sm, this`latestDecision, this`subscribers, this`log, this`channels
      ensures Valid() && Model() == old(Model()).(bus := ApplyUnlessWinning(old(Model()).bus, d))
    {
      var changed := sm.TransitionUnless(d.state, [WinningPost]);
      if !changed {
        if sm.current == WinningPost {
          return;
        }
        latestDecision := Some(d);
        return;
      }
      latestDecision := Some(d);
      BroadcastEvent(d);
    }

    method Subscribe() returns (id: nat)
      requires Valid()
      modifies this`subscribers, this`nextSubId, this`channels
      ensures Valid() && id == old(nextSubId) && id in subscribers
      ensures Model() == Next(policy, old(Model()), Joins)
    {
      id := nextSubId;
      nextSubId := nextSubId + 1;
      subscribers := subscribers[id := []];
      channels := channels[id := Channel([], [], |log|, 0)];
    }

    method Unsubscribe(id: nat)
      requires Valid()
      modifies this`subscribers, this`channels
      ensures Valid() && Model() == Next(policy, old(Model()), Leaves(id))
    {
      if id in subscribers {
        subscribers := subscribers - {id};
        channels := channels - {id};
      }
      assert channels == old(channels) - {id};
    }

    // The reader of channel id receives.
    method Receive(id: nat) returns (d: Option<YieldDecision>)
      requires Valid()
      modifies this`subscribers, this`channels
      ensures Valid() && Model() == Next(policy, old(Model()), Takes(id))
      ensures d.Some? <==> id in old(subscribers) && old(subscribers)[id] != []
      ensures d.Some? ==> d.value == old(subscribers)[id][0]
    {
      d := None;
      if id in subscribers && subscribers[id] != [] {
        d := Some(subscribers[id][0]);
        subscribers := subscribers[id := subscribers[id][1..]];
        channels := Take(Model().bus, id).subs;
      }
    }

    method MarkProofCompleted(key: ProofKey)
      modifies this`completedProofs
      ensures completedProofs == MarkCompleted(old(completedProofs), key)
    {
      if |completedProofs| > MAX_COMPLETED {
        completedProofs := {};
      }
      completedProofs := completedProofs + {key};
    }

    // The deadline counts as completed either way.
    method RecordMonitor(key: ProofKey, detected: bool)
      modifies this`completedProofs, this`detectedProofs
      ensures completedProofs == MarkCompleted(old(completedProofs), key)
      ensures detectedProofs == if detected then old(detectedProofs) + {key} else old(detectedProofs)
    {
      if detected {
        detectedProofs := detectedProofs + {key};
      }
      MarkProofCompleted(key);
    }

    // own is what Lotus answers if it is asked about the current deadline.
    method DeadlineHasNoSectors(d: DeadlineInfo, own: Option<nat>) returns (none: bool)
      modifies this`sectorCache, this`sectorCacheEpoch
      ensures (none, Cache(sectorCache, sectorCacheEpoch))
              == SchedulerModel.DeadlineHasNoSectors(policy, Cache(old(sectorCache), old(sectorCacheEpoch)), d, own)
    {
      var cached := d.index in sectorCache;
      var cachedSectors := if cached then sectorCache[d.index] else 0;
      if !cached || d.currentEpoch - sectorCacheEpoch > RefreshInterval(policy) {
        if own.None? {
          return false;
        }
        sectorCache := sectorCache[d.index := own.value];
        sectorCacheEpoch := d.currentEpoch;
        cachedSectors := own.value;
      }
      return cachedSectors == 0;
    }

    method RefreshFullSectorCache(d: DeadlineInfo, answers: map<nat, nat>)
      modifies this`sectorCache, this`sectorCacheEpoch
      ensures Cache(sectorCache, sectorCacheEpoch)
              == RefreshFull(policy, Cache(old(sectorCache), old(sectorCacheEpoch)), d, answers)
    {
      var n := NumDeadlines(d);
      var stale := d.currentEpoch - sectorCacheEpoch > RefreshInterval(policy);
      if !stale && |sectorCache| >= n {
        return;
      }
      for i := 0 to n
        invariant sectorCacheEpoch == old(sectorCacheEpoch)
        invariant FillFrom(sectorCache, n, stale, answers, i) == FillFrom(old(sectorCache), n, stale, answers, 0)
      {
        if (stale || i !in sectorCache) && i in answers {
          sectorCache := sectorCache[i := answers[i]];
        }
      }
      sectorCacheEpoch := d.currentEpoch;
    }

    method FindNextSectorDeadline(d: DeadlineInfo) returns (idx: nat, found: bool)
      ensures LookAhead.FindNextSectorDeadline(sectorCache, d) == if found then Some(idx) else None
    {
      var n := NumDeadlines(d);
      var i := 1;
      while i < n
        invariant i >= 1
        invariant Search(sectorCache, d, i) == Search(sectorCache, d, 1)
      {
        idx := (d.index + i) % n;
        if idx in sectorCache && sectorCache[idx] > 0 {
          return idx, true;
        }
        i := i + 1;
      }
      return 0, false;
    }

    // checkWindowPost up to the Lotus call.
    method BeginPoll()
      requires Valid() && poll.Idle?
      modifies this`poll
      ensures Valid() && Model() == Next(policy, old(Model()), PollBegins)
    {
      if proofMonitorActive {
        return;
      }
      if sm.current == WinningPost {
        return;
      }
      poll := Asking;
    }

    // The Lotus call fails.
    method LotusFailed()
      requires Valid() && poll.Asking?
      modifies sm, this`latestDecision, this`subscribers, this`log, this`channels, this`poll
      ensures Valid() && Model() == Next(policy, old(Model()), LotusFails)
    {
      if policy.failSafeOnDisconnect {
        ApplyDecision(FAIL_SAFE);
      }
      poll := Idle;
    }

    // The virtual deadline checkWindowPost decides about when the current one has no sectors.
    method LookAheadTarget(d: DeadlineInfo) returns (target: Option<DeadlineInfo>)
      ensures target == Target(sectorCache, d)
    {
      var nextIdx, found := FindNextSectorDeadline(d);
      if !found {
        return None;
      }
      var nextOpen := NextDeadlineOpenEpoch(d, nextIdx);
      var periodStart := d.periodStart;
      if nextIdx <= d.index {
        periodStart := d.periodStart + d.provingPeriod;
      }
      return Some(DeadlineInfo(d.currentEpoch, periodStart, nextIdx, nextOpen, nextOpen + d.challengeWindow,
                               d.periodDeadlines, d.provingPeriod, d.challengeWindow));
    }

    // The Lotus call succeeds; the sector queries behind it are answered by own and answers.
    method LotusReplied(d: DeadlineInfo, own: Option<nat>, answers: map<nat, nat>)
      requires Valid() && poll.Asking?
      modifies this`sectorCache, this`sectorCacheEpoch, this`poll
      ensures Valid() && Model() == Next(policy, old(Model()), LotusReplies(d, own, answers))
    {
      var none := DeadlineHasNoSectors(d, own);
      if !none {
        poll := Deciding(Some(d));
        return;
      }
      RefreshFullSectorCache(d, answers);
      var target := LookAheadTarget(d);
      poll := Deciding(target);
    }

    method EvaluateAndApply(d: DeadlineInfo)
      requires Valid()
      modifies sm, this`latestDecision, this`subscribers, this`log, this`channels
      modifies this`proofMonitorActive, this`monitors
      ensures Valid() && Model() == SchedulerModel.EvaluateAndApply(policy, old(Model()), d)
    {
      var decision := EvaluateWindowPost(policy, d);
      if (decision.state == WindowPost || decision.state == Yielding) && KeyOf(d) in completedProofs {
        ApplyDecisionUnlessWinning(RESUME);
        return;
      }
      var prevState := sm.current;
      ApplyDecisionUnlessWinning(decision);
      if decision.state == WindowPost && prevState != WindowPost && policy.proofDetection {
        proofMonitorActive := true;
        monitors := monitors + [KeyOf(d)];
      }
    }

    // The rest of checkWindowPost.
    method FinishPoll()
      requires Valid() && poll.Deciding?
      modifies sm, this
      ensures Valid() && Model() == Next(policy, old(Model()), Decides)
    {
      match poll.target {
        case None => ApplyDecisionUnlessWinning(RESUME);
        case Some(d) => EvaluateAndApply(d);
      }
      poll := Idle;
    }

    // waitForProofAndResume of monitors[i] after WaitForProofComplete.
    method FinishMonitor(i: nat, detected: bool)
      requires Valid() && i < |monitors|
      modifies sm, this
      ensures Valid() && Model() == Next(policy, old(Model()), MonitorEnds(i, detected))
    {
      RecordMonitor(monitors[i], detected);
      ApplyDecisionUnlessWinning(RESUME);
      proofMonitorActive := false;
      monitors := monitors[..i] + monitors[i + 1..];
    }

    method TriggerWinningYield() returns (gen: nat)
      requires Valid()
      modifies sm, this
      ensures Valid() && gen == winningGen && Model() == Next(policy, old(Model()), Win)
    {
      ApplyDecision(WinDecision(policy));
      winningGen := winningGen + 1;
      gen := winningGen;
      timers := timers + {gen};
    }

    // The resume timer of generation gen fires.
    method ResumeTimerFired(gen: nat)
      requires Valid() && gen in timers
      modifies sm, this
      ensures Valid() && Model() == Next(policy, old(Model()), TimerFires(gen))
    {
      if winningGen != gen {
        timers := timers - {gen};
        return;
      }
      if proofMonitorActive {
        return;
      }
      ApplyDecision(RESUME);
      timers := timers - {gen};
    }
  }
}
