/** The proof key the look-ahead builds for a coming deadline, and the one the chain reports later. */
module ProofKeys {
  import opened Wrappers
  import opened Arith
  import opened Lotus
  import opened LookAhead

  // A miner's proving schedule: periods of n windows, one of them starting at epoch base.
  datatype Chain = Chain(base: int, n: nat, window: int)

  predicate ValidChain(c: Chain) {
    c.n > 0 && c.window > 0
  }

  // The deadline Lotus reports at epoch e.
  function DeadlineAt(c: Chain, e: int): DeadlineInfo
    requires ValidChain(c)
  {
    var period := c.n * c.window;
    assert period > 0;
    var start := c.base + (e - c.base) / period * period;
    var index := (e - start) / c.window;
    assert index >= 0 by { DivFacts(e - c.base, period); DivFacts(e - start, c.window); }
    var open := start + index * c.window;
    DeadlineInfo(e, start, index, open, open + c.window, c.n, period, c.window)
  }

  lemma DeadlineAtIsWellFormed(c: Chain, e: int)
    requires ValidChain(c)
    ensures var d := DeadlineAt(c, e); WellFormed(d) && IsOpen(d) && NumDeadlines(d) == c.n
  {
    var period := c.n * c.window;
    assert period > 0;
    DivFacts(e - c.base, period);
    var d := DeadlineAt(c, e);
    DivFacts(e - d.periodStart, c.window);
    if d.index >= c.n {
      ScaleUp(c.n, d.index, c.window);
    }
  }

  // The report at e is the only one of the right shape that is open at e and on the chain's grid.
  lemma DeadlineAtIsUnique(c: Chain, e: int, d: DeadlineInfo, m: int)
    requires ValidChain(c) && WellFormed(d) && IsOpen(d) && d.currentEpoch == e
    requires d.periodDeadlines == c.n && d.challengeWindow == c.window
    requires d.periodStart == c.base + m * d.provingPeriod
    ensures d == DeadlineAt(c, e)
  {
    var w, period := c.window, c.n * c.window;
    assert period > 0;
    assert (d.index + 1) * w == d.index * w + w;
    ScaleUp(0, d.index, w);
    ScaleUp(d.index + 1, c.n, w);
    DivUnique(e - c.base, period, m);
    DivUnique(e - d.periodStart, w, d.index);
  }

  /** The (PeriodStart, Index) the look-ahead builds for a coming deadline is exactly what the chain
      reports all through that deadline's window, also across the wrap into the next period. */
  lemma VirtualKeyIsChainKey(c: Chain, e: int, target: nat, e': int)
    requires ValidChain(c)
    requires var d := DeadlineAt(c, e); target < c.n && target != d.index
    requires var v := VirtualInfo(DeadlineAt(c, e), target); v.open <= e' < v.close
    ensures DeadlineAt(c, e') == VirtualInfo(DeadlineAt(c, e), target).(currentEpoch := e')
  {
    var d := DeadlineAt(c, e);
    var v := VirtualInfo(d, target).(currentEpoch := e');
    DeadlineAtIsWellFormed(c, e);
    var m := (e - c.base) / (c.n * c.window);
    assert (m + 1) * d.provingPeriod == m * d.provingPeriod + d.provingPeriod;
    DeadlineAtIsUnique(c, e', v, if target <= d.index then m + 1 else m);
  }

  // Later in the same window the chain reports the same deadline.
  lemma SameWindow(c: Chain, e: int, e': int)
    requires ValidChain(c) && e <= e' < DeadlineAt(c, e).close
    ensures DeadlineAt(c, e') == DeadlineAt(c, e).(currentEpoch := e')
  {
    DeadlineAtIsWellFormed(c, e);
    DeadlineAtIsUnique(c, e', DeadlineAt(c, e).(currentEpoch := e'), (e - c.base) / (c.n * c.window));
  }

  // k windows later it reports the deadline k ahead.
  lemma LaterWindow(c: Chain, e: int, e': int, k: nat)
    requires ValidChain(c) && 1 <= k < c.n
    requires var d := DeadlineAt(c, e); d.open + k * c.window <= e' < d.open + k * c.window + c.window
    ensures var d, d' := DeadlineAt(c, e), DeadlineAt(c, e');
            d'.open == d.open + k * c.window && d'.index == Ahead(d, k)
  {
    var d := DeadlineAt(c, e);
    DeadlineAtIsWellFormed(c, e);
    DistanceIs(d, k);
    OpenEpochByDistance(d, Ahead(d, k));
    VirtualKeyIsChainKey(c, e, Ahead(d, k), e');
  }

  // Between two polls the chain has moved k windows on, not yet to the target i windows ahead.
  lemma WindowsOn(c: Chain, e: int, e': int, i: nat) returns (k: nat)
    requires ValidChain(c) && e <= e' && 1 <= i < c.n
    requires e' < DeadlineAt(c, e).open + i * c.window
    ensures k < i
    ensures var d, d' := DeadlineAt(c, e), DeadlineAt(c, e');
            && WellFormed(d) && WellFormed(d') && NumDeadlines(d) == NumDeadlines(d') == c.n
            && d'.open == d.open + k * c.window && d'.index == Ahead(d, k)
  {
    var d := DeadlineAt(c, e);
    DeadlineAtIsWellFormed(c, e);
    DeadlineAtIsWellFormed(c, e');
    k := (e' - d.open) / c.window;
    DivFacts(e' - d.open, c.window);
    if k >= i { ScaleUp(i, k, c.window); }
    if k == 0 {
      AheadIs(d, 0);
      SameWindow(c, e, e');
    } else {
      LaterWindow(c, e, e', k);
    }
  }

  lemma AheadOfAhead(d: DeadlineInfo, d': DeadlineInfo, k: nat, j: nat)
    requires WellFormed(d) && WellFormed(d') && NumDeadlines(d) == NumDeadlines(d')
    requires k + j < NumDeadlines(d) && d'.index == Ahead(d, k)
    ensures Ahead(d', j) == Ahead(d, k + j)
  {
    AheadIs(d, k);
    AheadIs(d', j);
    AheadIs(d, k + j);
  }

  // k windows further on, a search that stopped i windows ahead stops at the same deadline.
  lemma SearchFromLater(cache: SectorCounts, d: DeadlineInfo, d': DeadlineInfo, i: nat, k: nat)
    requires WellFormed(d) && WellFormed(d') && NumDeadlines(d) == NumDeadlines(d')
    requires k < i < NumDeadlines(d) && d'.index == Ahead(d, k)
    requires HasSectors(cache, Ahead(d, i)) && forall j :: 0 <= j < i ==> !HasSectors(cache, Ahead(d, j))
    ensures Ahead(d', i - k) == Ahead(d, i)
    ensures !HasSectors(cache, d'.index) && FindNextSectorDeadline(cache, d') == Some(Ahead(d, i))
  {
    forall j | 1 <= j <= i - k
      ensures Ahead(d', j) == Ahead(d, k + j)
    {
      AheadOfAhead(d, d', k, j);
    }
    FoundAt(cache, d', i - k);
  }

  /** Until the target opens, every later poll with the same cache finds the current deadline without
      sectors, and looks ahead to the same target, opening epoch and proof key. */
  lemma LookAheadIsStable(c: Chain, cache: SectorCounts, e: int, e': int, target: nat)
    requires ValidChain(c) && e <= e'
    requires var d := DeadlineAt(c, e);
             && !HasSectors(cache, d.index) && FindNextSectorDeadline(cache, d) == Some(target)
             && e' < NextDeadlineOpenEpoch(d, target)
    ensures var d' := DeadlineAt(c, e');
            && !HasSectors(cache, d'.index)
            && FindNextSectorDeadline(cache, d') == Some(target)
            && VirtualInfo(d', target) == VirtualInfo(DeadlineAt(c, e), target).(currentEpoch := e')
  {
    var d, d' := DeadlineAt(c, e), DeadlineAt(c, e');
    DeadlineAtIsWellFormed(c, e);
    SearchIsLeast(cache, d, 1);
    var i :| 1 <= i < NumDeadlines(d) && target == Ahead(d, i) && HasSectors(cache, target)
             && forall k :: 1 <= k < i ==> !HasSectors(cache, Ahead(d, k));
    DistanceIs(d, i);
    OpenEpochByDistance(d, target);
    var k := WindowsOn(c, e, e', i);
    AheadIs(d, 0);
    SearchFromLater(cache, d, d', i, k);
    DistanceIs(d', i - k);
    OpenEpochByDistance(d', target);
    ScaleDiff(i, k, c.window);
  }
}
