/** What a whole poll guarantees: sector cache, look-ahead, policy and recorded proofs together. */
module YieldGuarantee {
  import opened Wrappers
  import opened Arith
  import opened Lotus
  import opened Policy
  import opened LookAhead
  import opened ProofKeys
  import opened SchedulerModel
  import opened SchedulerSafety

  /** When the look-ahead gets to refresh the full cache, the cache never counts as stale. */
  lemma RefreshIsNeverStale(p: YieldPolicy, c: Cache, d: DeadlineInfo, own: Option<nat>)
    requires DeadlineHasNoSectors(p, c, d, own).0
    ensures !IsStale(p, DeadlineHasNoSectors(p, c, d, own).1, d)
  {
  }

  lemma {:induction false} FillKeeps(c: SectorCounts, n: nat, answers: map<nat, nat>, from: nat, i: nat)
    requires i in c
    ensures i in FillFrom(c, n, false, answers, from) && FillFrom(c, n, false, answers, from)[i] == c[i]
    decreases n - from
  {
    if from < n {
      FillKeeps(if from in c || from !in answers then c else c[from := answers[from]], n, answers, from + 1, i);
    }
  }

  /** So a cached entry of any deadline but the current one is never queried again: it has no age bound. */
  lemma CachedEntriesStay(p: YieldPolicy, c: Cache, d: DeadlineInfo, own: Option<nat>, answers: map<nat, nat>, i: nat)
    requires i in c.sectors && i != d.index
    ensures var c' := Examine(p, c, d, own, answers).0; i in c'.sectors && c'.sectors[i] == c.sectors[i]
  {
    var (none, c1) := DeadlineHasNoSectors(p, c, d, own);
    if none {
      RefreshIsNeverStale(p, c, d, own);
      FillKeeps(c1.sectors, NumDeadlines(d), answers, 0, i);
    }
  }

  /** How old the cache counts as after a poll, and what that means for later ones: the current deadline of a
      later poll, if cached, is asked about again (the answer gets into the cache) if and only if more epochs
      than the interval, the configured one if there is one and else 2880, have passed since the last poll
      that was answered about its own deadline or filled up an incomplete cache. */
  lemma CacheAges(p: YieldPolicy, c: Cache, d: DeadlineInfo, own: Option<nat>, answers: map<nat, nat>,
                  later: DeadlineInfo, answer: nat)
    requires var c' := Examine(p, c, d, own, answers).0;
             later.index in c'.sectors && c'.sectors[later.index] != answer
    ensures var interval := if p.refreshEpochs > 0 then p.refreshEpochs else 2880;
            var asked := d.index !in c.sectors || d.currentEpoch - c.epoch > interval;
            var fills := DeadlineHasNoSectors(p, c, d, own).0 && |c.sectors| < NumDeadlines(d);
            var c' := Examine(p, c, d, own, answers).0;
            var since := if (asked && own.Some?) || fills then d.currentEpoch else c.epoch;
            DeadlineHasNoSectors(p, c', later, Some(answer)).1.sectors[later.index] == answer
            <==> later.currentEpoch - since > interval
  {
    RefreshEpoch(p, c, d, own, answers);
  }

  lemma RefreshEpoch(p: YieldPolicy, c: Cache, d: DeadlineInfo, own: Option<nat>, answers: map<nat, nat>)
    ensures var asked := d.index !in c.sectors || d.currentEpoch - c.epoch > RefreshInterval(p);
            var fills := DeadlineHasNoSectors(p, c, d, own).0 && |c.sectors| < NumDeadlines(d);
            Examine(p, c, d, own, answers).0.epoch
            == if (asked && own.Some?) || fills then d.currentEpoch else c.epoch
  {
  }

  // Two windows of 60 epochs a period; the reports at epoch 5 and at epoch 65.
  const FIRST_WINDOW := DeadlineInfo(5, 0, 0, 0, 60, 2, 120, 60)
  const SECOND_WINDOW := DeadlineInfo(65, 0, 1, 60, 120, 2, 120, 60)

  /** What that costs: a run of two polls.  At epoch 5 both deadlines are cached as empty.  Then deadline 1
      gets sectors, and the poll in its own window, although it would be told so, does not ask: the GPU is
      AVAILABLE in the open window of a deadline with sectors, and nothing is recorded for it. */
  lemma OldEntryHidesADeadline(p: YieldPolicy)
    requires RefreshInterval(p) >= 60
    ensures var first := LotusReplies(FIRST_WINDOW, Some(0), map[0 := 0, 1 := 0]);
            var second := LotusReplies(SECOND_WINDOW, Some(1), map[0 := 0, 1 := 1]);
            var s := Run(p, NewSched(), [PollBegins, first, Decides, PollBegins, second, Decides]);
            && s.bus.state == Available && s.completed == {}
            && IsOpen(SECOND_WINDOW) && WellFormed(SECOND_WINDOW)
  {
    var first := LotusReplies(FIRST_WINDOW, Some(0), map[0 := 0, 1 := 0]);
    var second := LotusReplies(SECOND_WINDOW, Some(1), map[0 := 0, 1 := 1]);
    var poll1, poll2 := [PollBegins, first, Decides], [PollBegins, second, Decides];
    var s1 := Run(p, NewSched(), poll1);
    RunThree(p, NewSched(), PollBegins, first, Decides);
    RunThree(p, s1, PollBegins, second, Decides);
    RunAppend(p, NewSched(), poll1, poll2);
    assert poll1 + poll2 == [PollBegins, first, Decides, PollBegins, second, Decides];
    BothEmpty(p, FIRST_WINDOW, Cache(map[], 0), Some(0), map[0 := 0, 1 := 0]);
    BothEmpty(p, SECOND_WINDOW, s1.cache, Some(1), map[0 := 0, 1 := 1]);
  }

  // A poll of two deadlines that the cache, once filled, gives no sectors.
  lemma BothEmpty(p: YieldPolicy, d: DeadlineInfo, c: Cache, own: Option<nat>, answers: map<nat, nat>)
    requires || (d == FIRST_WINDOW && c == Cache(map[], 0) && own == Some(0) && answers == map[0 := 0, 1 := 0])
             || (d == SECOND_WINDOW && c == Cache(map[0 := 0, 1 := 0], 5))
    requires RefreshInterval(p) >= 60
    ensures Examine(p, c, d, own, answers)
            == (Cache(map[0 := 0, 1 := 0], 5), None)
  {
    var c1 := DeadlineHasNoSectors(p, c, d, own).1;
    assert FillFrom(c1.sectors, 2, false, answers, 2) == c1.sectors;
    if d == FIRST_WINDOW {
      assert c1.sectors == map[0 := 0];
      assert FillFrom(map[0 := 0], 2, false, answers, 1) == map[0 := 0, 1 := 0];
    }
    var empty: SectorCounts := map[0 := 0, 1 := 0];
    assert Search(empty, d, 1) == None by { SearchIsLeast(empty, d, 1); }
  }

  // Every query is answered, truthfully, and so is every entry the cache already has.
  ghost predicate Truthful(c: SectorCounts, truth: map<nat, nat>, n: nat) {
    forall i :: i in c ==> i < n && i in truth && c[i] == truth[i]
  }

  ghost predicate Covers(m: map<nat, nat>, n: nat) {
    forall i :: 0 <= i < n ==> i in m
  }

  lemma {:induction false} FillCovers(c: SectorCounts, n: nat, stale: bool, truth: map<nat, nat>, from: nat)
    requires Truthful(c, truth, n) && Covers(truth, n)
    requires forall i :: 0 <= i < from && i < n ==> i in c
    ensures var r := FillFrom(c, n, stale, truth, from);
            Truthful(r, truth, n) && forall i :: 0 <= i < n ==> i in r
    decreases n - from
  {
    if from < n {
      FillCovers(if !stale && from in c then c else c[from := truth[from]], n, stale, truth, from + 1);
    }
  }

  function Below(n: nat): (r: set<nat>)
    ensures |r| == n && forall i: nat :: i in r <==> i < n
  {
    if n == 0 then {} else Below(n - 1) + {n - 1}
  }

  lemma SubsetCount(a: set<nat>, b: set<nat>)
    requires a <= b
    ensures |a| <= |b| && (|a| == |b| ==> a == b)
  {
    assert b == a + (b - a);
  }

  // n entries below n are all the entries there are.
  lemma FullCacheCovers(c: SectorCounts, truth: map<nat, nat>, n: nat)
    requires Truthful(c, truth, n) && |c| >= n
    ensures forall i :: 0 <= i < n ==> i in c
  {
    SubsetCount(c.Keys, Below(n));
    assert c.Keys == Below(n);
  }

  /** After a look-ahead poll whose queries are all answered the cache agrees with Lotus everywhere. */
  lemma ExamineAgrees(p: YieldPolicy, c: Cache, d: DeadlineInfo, own: Option<nat>, truth: map<nat, nat>)
    requires WellFormed(d) && Covers(truth, NumDeadlines(d)) && Truthful(c.sectors, truth, NumDeadlines(d))
    requires own.Some? ==> own.value == truth[d.index]
    requires DeadlineHasNoSectors(p, c, d, own).0
    ensures var r := Examine(p, c, d, own, truth).0.sectors;
            && (forall i :: 0 <= i < NumDeadlines(d) ==> i in r && r[i] == truth[i])
            && truth[d.index] == 0
            && Examine(p, c, d, own, truth).1 == Target(r, d)
  {
    var n := NumDeadlines(d);
    var c1 := DeadlineHasNoSectors(p, c, d, own).1;
    if |c1.sectors| >= n {
      FullCacheCovers(c1.sectors, truth, n);
    }
    FillCovers(c1.sectors, n, IsStale(p, c1, d), truth, 0);
  }

  /** Successive look-ahead polls, each with a cache of its own that agrees with Lotus and all queries
      answered, decide about the same deadline with the same opening epoch and proof key, until it opens. */
  lemma PollsKeepTheirTarget(p: YieldPolicy, c: Chain, e: int, e': int, first: Cache, second: Cache,
                             truth: map<nat, nat>, v: DeadlineInfo)
    requires ValidChain(c) && e <= e' < v.open
    requires Covers(truth, c.n) && Truthful(first.sectors, truth, c.n) && Truthful(second.sectors, truth, c.n)
    requires var d := DeadlineAt(c, e);
             d.index in truth && truth[d.index] == 0
             && Examine(p, first, d, Some(truth[d.index]), truth).1 == Some(v)
    ensures var d' := DeadlineAt(c, e');
            d'.index in truth && truth[d'.index] == 0
            && Examine(p, second, d', Some(truth[d'.index]), truth).1 == Some(v.(currentEpoch := e'))
  {
    var d, d' := DeadlineAt(c, e), DeadlineAt(c, e');
    DeadlineAtIsWellFormed(c, e);
    DeadlineAtIsWellFormed(c, e');
    TargetOfTruth(p, first, d, truth);
    var t := FindNextSectorDeadline(truth, d).value;
    LookAheadIsStable(c, truth, e, e', t);
    assert !HasSectors(truth, d'.index);
    TargetOfTruth(p, second, d', truth);
  }

  // An answered look-ahead poll looks at the true sector counts.
  lemma TargetOfTruth(p: YieldPolicy, c: Cache, d: DeadlineInfo, truth: map<nat, nat>)
    requires WellFormed(d) && Covers(truth, NumDeadlines(d)) && Truthful(c.sectors, truth, NumDeadlines(d))
    requires d.index in truth && truth[d.index] == 0
    ensures Examine(p, c, d, Some(truth[d.index]), truth).1 == Target(truth, d)
  {
    ExamineAgrees(p, c, d, Some(truth[d.index]), truth);
    SearchSame(Examine(p, c, d, Some(truth[d.index]), truth).0.sectors, truth, d, 1);
  }

  // No deadline with sectors opens within the graceful threshold of the poll's epoch.
  ghost predicate NothingNear(p: YieldPolicy, d: DeadlineInfo, truth: map<nat, nat>) {
    forall j: nat, e :: j in truth && j < NumDeadlines(d) && truth[j] > 0 && e >= d.close && OpensAt(d, j, e)
                        ==> (e - d.currentEpoch) * EPOCH_DURATION > p.gracefulSec
  }

  // The deadline with sectors that opens next is one of these.
  ghost predicate NearestIn(d: DeadlineInfo, truth: map<nat, nat>, keys: set<ProofKey>) {
    exists t: nat :: t in truth && NearestOpening(truth, d, t, NextDeadlineOpenEpoch(d, t))
                     && KeyOf(VirtualInfo(d, t)) in keys
  }

  lemma SearchSame(a: SectorCounts, b: SectorCounts, d: DeadlineInfo, from: nat)
    requires forall i :: 0 <= i < NumDeadlines(d) ==> (HasSectors(a, i) <==> HasSectors(b, i))
    ensures Search(a, d, from) == Search(b, d, from)
    decreases NumDeadlines(d) - from
  {
  }

  // The policy finds the nearest deadline far enough away: so is every other one.
  lemma FarMeansNothingNear(p: YieldPolicy, d: DeadlineInfo, truth: map<nat, nat>, t: nat)
    requires WellFormed(d) && IsOpen(d) && d.index in truth && truth[d.index] == 0
    requires NearestOpening(truth, d, t, NextDeadlineOpenEpoch(d, t))
    requires EvaluateWindowPost(p, VirtualInfo(d, t)).state == Available
    ensures NothingNear(p, d, truth)
  {
    forall j: nat, e | j in truth && j < NumDeadlines(d) && truth[j] > 0 && e >= d.close && OpensAt(d, j, e)
      ensures (e - d.currentEpoch) * EPOCH_DURATION > p.gracefulSec
    {
      assert HasSectors(truth, j) && NextDeadlineOpenEpoch(d, t) <= e;
    }
  }

  lemma {:induction false} FillStaysTruthful(c: SectorCounts, n: nat, stale: bool, answers: map<nat, nat>, from: nat,
                                             truth: map<nat, nat>)
    requires Truthful(c, truth, n) && TrueAnswers(answers, truth)
    ensures Truthful(FillFrom(c, n, stale, answers, from), truth, n)
    decreases n - from
  {
    if from < n {
      var c1 := if (!stale && from in c) || from !in answers then c else c[from := answers[from]];
      FillStaysTruthful(c1, n, stale, answers, from + 1, truth);
    }
  }

  // Some queries may fail, but what is answered is true.
  ghost predicate TrueAnswers(answers: map<nat, nat>, truth: map<nat, nat>) {
    forall i :: i in answers ==> i in truth && answers[i] == truth[i]
  }

  // The deadline with sectors that opens next, if there is one, has an entry.
  ghost predicate NearestCached(c: SectorCounts, d: DeadlineInfo, truth: map<nat, nat>) {
    var t := FindNextSectorDeadline(truth, d);
    t.Some? ==> t.value in c
  }

  // A look-ahead poll decides about the truly nearest deadline if its entry is there afterwards.
  lemma NearestIsTarget(p: YieldPolicy, c: Cache, d: DeadlineInfo, own: Option<nat>, answers: map<nat, nat>,
                        truth: map<nat, nat>)
    requires WellFormed(d) && d.index in truth && Truthful(c.sectors, truth, NumDeadlines(d))
    requires TrueAnswers(answers, truth) && (own.Some? ==> own.value == truth[d.index])
    requires DeadlineHasNoSectors(p, c, d, own).0
    requires NearestCached(Examine(p, c, d, own, answers).0.sectors, d, truth)
    ensures truth[d.index] == 0 && Examine(p, c, d, own, answers).1 == Target(truth, d)
  {
    var n, c1 := NumDeadlines(d), DeadlineHasNoSectors(p, c, d, own).1;
    FillStaysTruthful(c1.sectors, n, IsStale(p, c1, d), answers, 0, truth);
    var r := Examine(p, c, d, own, answers).0.sectors;
    assert Truthful(r, truth, n);
    match FindNextSectorDeadline(truth, d)
    case Some(t) => LookAheadNeedsTheEntry(r, truth, d, t);
    case None =>
      SearchIsLeast(truth, d, 1);
      SearchIsLeast(r, d, 1);
  }

  /** The yield guarantee: if a poll finds the current deadline without sectors, what Lotus answers is true,
      the truly nearest deadline with sectors has an entry in the cache after the poll (other queries may
      fail), and the poll's decision, whenever it is applied and whatever ran in between, leaves the GPU
      AVAILABLE, then that deadline is recorded, or none opens within the graceful threshold; and its proof
      was detected if every record so far is a detected one. */
  lemma AvailableMeansSafe(p: YieldPolicy, c: Cache, d: DeadlineInfo, own: Option<nat>, answers: map<nat, nat>,
                           truth: map<nat, nat>, s: Sched)
    requires WellFormed(d) && IsOpen(d) && d.index in truth && Truthful(c.sectors, truth, NumDeadlines(d))
    requires TrueAnswers(answers, truth) && (own.Some? ==> own.value == truth[d.index])
    requires DeadlineHasNoSectors(p, c, d, own).0
    requires NearestCached(Examine(p, c, d, own, answers).0.sectors, d, truth)
    requires s.ctl.poll == Deciding(Examine(p, c, d, own, answers).1)
    requires Next(p, s, Decides).bus.state == Available
    ensures NearestIn(d, truth, s.completed) || NothingNear(p, d, truth)
    ensures RecordsAreProofs(s) ==> NearestIn(d, truth, s.detected) || NothingNear(p, d, truth)
  {
    NearestIsTarget(p, c, d, own, answers, truth);
    LookAheadIsOptimal(truth, d);
    match FindNextSectorDeadline(truth, d)
    case None =>
      assert forall j: nat :: j in truth && j < NumDeadlines(d) && truth[j] > 0 ==> HasSectors(truth, j);
    case Some(t) =>
      if KeyOf(VirtualInfo(d, t)) in s.completed {
        assert NearestIn(d, truth, s.completed);
      } else {
        FarMeansNothingNear(p, d, truth, t);
      }
  }

  // Two deadlines cannot open at the same epoch.
  lemma NearestIsUnique(d: DeadlineInfo, truth: map<nat, nat>, t: nat, u: nat)
    requires WellFormed(d)
    requires NearestOpening(truth, d, t, NextDeadlineOpenEpoch(d, t))
    requires NearestOpening(truth, d, u, NextDeadlineOpenEpoch(d, u))
    ensures t == u
  {
    OpenEpochByDistance(d, t);
    OpenEpochByDistance(d, u);
    Scale(Distance(d, t), Distance(d, u), d.challengeWindow);
    Scale(Distance(d, u), Distance(d, t), d.challengeWindow);
  }

  /** And no more is yielded than that: with a hard stop that is not above the graceful threshold such a poll does
      leave the GPU AVAILABLE, unless a win owns it, if the nearest deadline is recorded or none opens within
      the graceful threshold. */
  lemma SafeMeansAvailable(p: YieldPolicy, c: Cache, d: DeadlineInfo, own: Option<nat>, answers: map<nat, nat>,
                           truth: map<nat, nat>, s: Sched)
    requires WellFormed(d) && IsOpen(d) && d.index in truth && Truthful(c.sectors, truth, NumDeadlines(d))
    requires TrueAnswers(answers, truth) && (own.Some? ==> own.value == truth[d.index])
    requires DeadlineHasNoSectors(p, c, d, own).0
    requires NearestCached(Examine(p, c, d, own, answers).0.sectors, d, truth)
    requires s.ctl.poll == Deciding(Examine(p, c, d, own, answers).1)
    ensures s.bus.state != WinningPost && p.hardStopSec <= p.gracefulSec
            && (NearestIn(d, truth, s.completed) || NothingNear(p, d, truth))
            ==> Next(p, s, Decides).bus.state == Available
  {
    NearestIsTarget(p, c, d, own, answers, truth);
    LookAheadIsOptimal(truth, d);
    match FindNextSectorDeadline(truth, d)
    case None =>
    case Some(t) =>
      if s.bus.state == WinningPost || p.hardStopSec > p.gracefulSec {
      } else if NearestIn(d, truth, s.completed) {
        var u: nat :| u in truth && NearestOpening(truth, d, u, NextDeadlineOpenEpoch(d, u))
                      && KeyOf(VirtualInfo(d, u)) in s.completed;
        NearestIsUnique(d, truth, t, u);
      } else if NothingNear(p, d, truth) {
        assert OpensAt(d, t, NextDeadlineOpenEpoch(d, t));
      }
  }

  /** When every query is answered the nearest deadline always has its entry. */
  lemma AnsweredMeansCached(p: YieldPolicy, c: Cache, d: DeadlineInfo, own: Option<nat>, truth: map<nat, nat>)
    requires WellFormed(d) && Covers(truth, NumDeadlines(d)) && Truthful(c.sectors, truth, NumDeadlines(d))
    requires own.Some? ==> own.value == truth[d.index]
    requires DeadlineHasNoSectors(p, c, d, own).0
    ensures NearestCached(Examine(p, c, d, own, truth).0.sectors, d, truth)
  {
    ExamineAgrees(p, c, d, own, truth);
    SearchIsLeast(truth, d, 1);
  }

  // What a later poll about the same deadline, at epoch e and with these records, makes of the GPU.
  function AppliedAt(p: YieldPolicy, done: set<ProofKey>, d: DeadlineInfo, e: int): GpuState {
    var state := StateAt(p, d, e);
    if (state == WindowPost || state == Yielding) && KeyOf(d) in done then Available else state
  }

  // The served countdown names the first epoch at which a later poll changes the state.
  ghost predicate ServedCountdownExact(p: YieldPolicy, s: Sched, d: DeadlineInfo) {
    s.bus.latest.Some?
    && forall e :: d.currentEpoch <= e ==>
         (AppliedAt(p, s.completed, d, e) == s.bus.state
          <==> (e - d.currentEpoch) * EPOCH_DURATION < s.bus.latest.value.secondsUntilNextChange)
  }

  /** The countdown served with AVAILABLE or YIELDING after a poll about a deadline, with thresholds in order
      and also when the poll changed nothing, is exact if and only if the deadline is not recorded; for a
      recorded one the state does not change with the deadline, and the countdown says it does. */
  lemma ServedCountdownIsExact(p: YieldPolicy, s: Sched, d: DeadlineInfo)
    requires ThresholdsInOrder(p) && d.open < d.close && s.ctl.poll == Deciding(Some(d))
    ensures var t := Next(p, s, Decides);
            t.bus.state == Available || t.bus.state == Yielding ==>
              (ServedCountdownExact(p, t, d) <==> KeyOf(d) !in s.completed)
  {
    var t := Next(p, s, Decides);
    if t.bus.state == Available || t.bus.state == Yielding {
      if KeyOf(d) in s.completed {
        var n := t.bus.latest.value.secondsUntilNextChange;
        var e := d.currentEpoch + if n > 0 then n else 0;
        assert AppliedAt(p, t.completed, d, e) == Available;
      } else {
        forall e | d.currentEpoch <= e
          ensures AppliedAt(p, t.completed, d, e) == t.bus.state
                  <==> (e - d.currentEpoch) * EPOCH_DURATION < t.bus.latest.value.secondsUntilNextChange
        {
          InOrderIsExact(p, d, e);
        }
      }
    }
  }

  // The step forgets everything recorded: a monitor ends when the set is over its bound.
  predicate ForgetsRecords(s: Sched, a: Act) {
    a.MonitorEnds? && a.i < |s.ctl.monitors| && |s.completed| > 128
  }

  // A record survives a step exactly unless the step forgets all records, and is not the end of its own
  // monitor.
  lemma RecordKept(p: YieldPolicy, s: Sched, a: Act, key: ProofKey)
    requires key in s.completed
    ensures key in Next(p, s, a).completed <==> !ForgetsRecords(s, a) || s.ctl.monitors[a.i] == key
  {
  }

  ghost predicate NothingForgotten(p: YieldPolicy, s: Sched, acts: seq<Act>) {
    forall k :: 0 <= k < |acts| ==> !ForgetsRecords(Run(p, s, acts[..k]), acts[k])
  }

  lemma {:induction false} RecordKeptByRun(p: YieldPolicy, s: Sched, acts: seq<Act>, key: ProofKey)
    requires key in s.completed && NothingForgotten(p, s, acts)
    ensures key in Run(p, s, acts).completed
  {
    if acts != [] {
      var n := |acts| - 1;
      var init := acts[..n];
      forall k | 0 <= k < n
        ensures !ForgetsRecords(Run(p, s, init[..k]), init[k])
      {
        assert init[..k] == acts[..k];
      }
      RecordKeptByRun(p, s, init, key);
      RecordKept(p, Run(p, s, init), acts[n], key);
    }
  }

  /** A deadline seen ahead whose monitor has ended is recognised by the polls in its own window: after any
      run in which the records are not forgotten such a poll leaves the GPU AVAILABLE, unless a win owns it. */
  lemma RecordedProofIsRecognised(p: YieldPolicy, c: Chain, e: int, target: nat, e': int, s: Sched, end: Act,
                                  acts: seq<Act>)
    requires ValidChain(c) && target < c.n && target != DeadlineAt(c, e).index
    requires var v := VirtualInfo(DeadlineAt(c, e), target);
             && v.open <= e' < v.close
             && end.MonitorEnds? && end.i < |s.ctl.monitors| && s.ctl.monitors[end.i] == KeyOf(v)
    ensures var t := Run(p, Next(p, s, end), acts);
            NothingForgotten(p, Next(p, s, end), acts) && t.ctl.poll == Deciding(Some(DeadlineAt(c, e'))) ==>
              Next(p, t, Decides).bus.state == if t.bus.state == WinningPost then WinningPost else Available
  {
    VirtualKeyIsChainKey(c, e, target, e');
    DeadlineAtIsWellFormed(c, e');
    if NothingForgotten(p, Next(p, s, end), acts) {
      RecordKeptByRun(p, Next(p, s, end), acts, KeyOf(DeadlineAt(c, e')));
    }
  }

  // Two reports have one proof key exactly if they are about one window.
  lemma KeysTellWindowsApart(c: Chain, e: int, e': int)
    requires ValidChain(c)
    ensures KeyOf(DeadlineAt(c, e)) == KeyOf(DeadlineAt(c, e')) <==> DeadlineAt(c, e).open == DeadlineAt(c, e').open
  {
    DeadlineAtIsWellFormed(c, e);
    DeadlineAtIsWellFormed(c, e');
    if DeadlineAt(c, e).open == DeadlineAt(c, e').open {
      if e <= e' {
        SameWindow(c, e, e');
      } else {
        SameWindow(c, e', e);
      }
    }
  }

  /** A record counts for one window only: where the one recorded proof is that of the deadline open at epoch e,
      a poll at epoch e' about its own open deadline leaves the GPU AVAILABLE if and only if it is in that very
      window; the same deadline of another proving period is yielded for again. */
  lemma RecordIsForOneWindow(p: YieldPolicy, c: Chain, e: int, e': int, s: Sched)
    requires ValidChain(c) && s.completed == {KeyOf(DeadlineAt(c, e))} && s.bus.state != WinningPost
    requires s.ctl.poll == Deciding(Some(DeadlineAt(c, e')))
    ensures Next(p, s, Decides).bus.state == Available <==> DeadlineAt(c, e').open == DeadlineAt(c, e).open
  {
    DeadlineAtIsWellFormed(c, e');
    KeysTellWindowsApart(c, e, e');
    DirectPollNeedsTheRecord(p, s, DeadlineAt(c, e'));
  }

  /** Wins, timers, monitors and readers do not touch what the poll is about to decide. */
  lemma PollTargetStays(p: YieldPolicy, s: Sched, a: Act)
    requires s.ctl.poll.Deciding? && !a.Decides?
    ensures Next(p, s, a).ctl.poll == s.ctl.poll && Next(p, s, a).cache == s.cache
  {
  }

  /** A poll that decides about the open deadline itself leaves the GPU AVAILABLE if and only if that
      deadline is recorded and no win owns the GPU. */
  lemma DirectPollNeedsTheRecord(p: YieldPolicy, s: Sched, d: DeadlineInfo)
    requires IsOpen(d) && s.ctl.poll == Deciding(Some(d))
    ensures Next(p, s, Decides).bus.state == Available <==> KeyOf(d) in s.completed && s.bus.state != WinningPost
  {
  }

  /** A whole poll in the open window of a deadline with sectors: if what Lotus answers is true, and also if it
      does not answer, the poll leaves the GPU AVAILABLE if and only if the deadline's proof is recorded and no
      win owns the GPU. */
  lemma OpenDeadlineIsYielded(p: YieldPolicy, s: Sched, d: DeadlineInfo, own: Option<nat>, answers: map<nat, nat>,
                              sectors: nat)
    requires s.ctl.poll.Asking? && IsOpen(d) && sectors > 0
    requires own.Some? ==> own.value == sectors
    requires d.index in s.cache.sectors ==> s.cache.sectors[d.index] == sectors
    ensures Next(p, Next(p, s, LotusReplies(d, own, answers)), Decides).bus.state == Available
            <==> KeyOf(d) in s.completed && s.bus.state != WinningPost
  {
    DirectPollNeedsTheRecord(p, Next(p, s, LotusReplies(d, own, answers)), d);
  }

  // The yield guarantee of a direct poll that leaves AVAILABLE, whichever other deadlines have sectors.
  ghost predicate DirectPollIsSafe(p: YieldPolicy, d: DeadlineInfo, done: set<ProofKey>) {
    forall truth: map<nat, nat> :: d.index in truth && truth[d.index] > 0 ==>
      NearestIn(d, truth, done) || NothingNear(p, d, truth)
  }

  // The deadline k windows ahead is the next one not recorded; k == n is the current one, a period later.
  predicate NextUnrecorded(d: DeadlineInfo, done: set<ProofKey>, k: nat) {
    && 1 <= k <= NumDeadlines(d)
    && (forall i :: 1 <= i < k ==> KeyOf(VirtualInfo(d, Ahead(d, i))) in done)
    && (k < NumDeadlines(d) ==> KeyOf(VirtualInfo(d, Ahead(d, k))) !in done)
  }

  // No deadline with sectors opens within k windows, if the nearer ones are recorded and the nearest is not.
  lemma UnrecordedIsFar(d: DeadlineInfo, done: set<ProofKey>, k: nat, truth: map<nat, nat>, j: nat, e: int)
    requires WellFormed(d) && NextUnrecorded(d, done, k) && j in truth && j < NumDeadlines(d) && truth[j] > 0
    ensures !NearestIn(d, truth, done) && e >= d.close && OpensAt(d, j, e) ==> d.open + k * d.challengeWindow <= e
  {
    if !NearestIn(d, truth, done) && e >= d.close && OpensAt(d, j, e) {
      if j == d.index {
        OpeningIsNoSooner(d, j, e);
        Scale(k, NumDeadlines(d), d.challengeWindow);
      } else {
        LookAheadIsOptimal(truth, d);
        assert HasSectors(truth, j);
        var t := FindNextSectorDeadline(truth, d).value;
        AheadOfDistance(d, t);
        OpenEpochByDistance(d, t);
        assert KeyOf(VirtualInfo(d, t)) !in done;
        Scale(k, Distance(d, t), d.challengeWindow);
      }
    }
  }

  // The worst case: only the current deadline and the next unrecorded one have sectors.
  lemma WorstCase(d: DeadlineInfo, done: set<ProofKey>, k: nat) returns (truth: map<nat, nat>, j: nat)
    requires WellFormed(d) && NextUnrecorded(d, done, k)
    ensures d.index in truth && truth[d.index] > 0 && !NearestIn(d, truth, done)
    ensures j in truth && truth[j] > 0 && j < NumDeadlines(d) && OpensAt(d, j, d.open + k * d.challengeWindow)
  {
    if k < NumDeadlines(d) {
      j := Ahead(d, k);
      DistanceIs(d, k);
    } else {
      j := d.index;
    }
    truth := map[d.index := 1, j := 1];
    OpenEpochByDistance(d, j);
    OpensAtNext(d, j);
  }

  /** The exact condition for a direct poll: it keeps the yield guarantee, whatever the other deadlines
      hold, if and only if the next deadline not recorded opens after the graceful threshold. */
  lemma DirectPollSafeIff(p: YieldPolicy, d: DeadlineInfo, done: set<ProofKey>, k: nat)
    requires WellFormed(d) && IsOpen(d) && NextUnrecorded(d, done, k)
    ensures DirectPollIsSafe(p, d, done)
            <==> (d.open + k * d.challengeWindow - d.currentEpoch) * EPOCH_DURATION > p.gracefulSec
  {
    var opening := d.open + k * d.challengeWindow;
    if (opening - d.currentEpoch) * EPOCH_DURATION > p.gracefulSec {
      forall truth: map<nat, nat> | d.index in truth && truth[d.index] > 0
        ensures NearestIn(d, truth, done) || NothingNear(p, d, truth)
      {
        if !NearestIn(d, truth, done) {
          forall j: nat, e | j in truth && j < NumDeadlines(d) && truth[j] > 0 && e >= d.close && OpensAt(d, j, e)
            ensures (e - d.currentEpoch) * EPOCH_DURATION > p.gracefulSec
          {
            UnrecordedIsFar(d, done, k, truth, j, e);
          }
        }
      }
    } else {
      var truth, j := WorstCase(d, done, k);
      Scale(1, k, d.challengeWindow);
      assert opening >= d.close;
      assert !NothingNear(p, d, truth);
    }
  }

  /** In particular, while the next deadline is not recorded: if and only if the current window closes after
      the graceful threshold. */
  lemma DirectPollSafeUntilClose(p: YieldPolicy, d: DeadlineInfo, done: set<ProofKey>)
    requires WellFormed(d) && IsOpen(d) && NumDeadlines(d) >= 2
    requires KeyOf(VirtualInfo(d, Ahead(d, 1))) !in done
    ensures DirectPollIsSafe(p, d, done) <==> (d.close - d.currentEpoch) * EPOCH_DURATION > p.gracefulSec
  {
    DirectPollSafeIff(p, d, done, 1);
  }

  // Two windows of 60 epochs a period, sectors in both; deadline 0 is current and 5 epochs from its end.
  const TWO_DEADLINES := DeadlineInfo(55, 0, 0, 0, 60, 2, 120, 60)

  /** A run in which it fails: the current deadline is polled and proved, and is polled again 150 s before the
      next one opens; the GPU becomes AVAILABLE with nothing recorded for the next one, and it is inside the
      graceful threshold exactly if that is 150 s or more. */
  lemma NoLookAheadPastASectorDeadline(p: YieldPolicy)
    requires p.proofDetection
    ensures var d := TWO_DEADLINES;
            var truth: map<nat, nat> := map[0 := 1, 1 := 1];
            var reply := LotusReplies(d, Some(1), truth);
            var s := Run(p, NewSched(), [PollBegins, reply, Decides, MonitorEnds(0, true), PollBegins, reply, Decides]);
            && s.bus.state == Available && s.completed == s.detected == {KeyOf(d)}
            && !NearestIn(d, truth, s.completed) && (NothingNear(p, d, truth) <==> p.gracefulSec < 150)
  {
    var d := TWO_DEADLINES;
    assert 60 == d.periodStart + 0 * d.provingPeriod + 1 * d.challengeWindow;
    assert OpensAt(d, 1, 60);
    ProvedAndPolledAgain(p, d);
  }

  lemma ProvedAndPolledAgain(p: YieldPolicy, d: DeadlineInfo)
    requires p.proofDetection && IsOpen(d)
    ensures var reply := LotusReplies(d, Some(1), map[0 := 1, 1 := 1]);
            var s := Run(p, NewSched(), [PollBegins, reply, Decides, MonitorEnds(0, true), PollBegins, reply, Decides]);
            s.bus.state == Available && s.completed == s.detected == {KeyOf(d)}
  {
    var reply := LotusReplies(d, Some(1), map[0 := 1, 1 := 1]);
    var poll, end := [PollBegins, reply, Decides], MonitorEnds(0, true);
    var s3 := Run(p, NewSched(), poll);
    var s4 := Run(p, NewSched(), poll + [end]);
    RunThree(p, NewSched(), PollBegins, reply, Decides);
    assert (poll + [end])[..3] == poll;
    assert s4 == Next(p, s3, end);
    RunAppend(p, NewSched(), poll + [end], poll);
    RunThree(p, s4, PollBegins, reply, Decides);
    assert poll + [end] + poll == [PollBegins, reply, Decides, end, PollBegins, reply, Decides];
  }
}
