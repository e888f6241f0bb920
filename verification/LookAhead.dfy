/** The look-ahead: which deadline with sectors comes next, and when it opens. */
module LookAhead {
  import opened Wrappers
  import opened Arith
  import opened Lotus

  type SectorCounts = map<nat, int>

  const DEFAULT_DEADLINES := 48

  function NumDeadlines(d: DeadlineInfo): (n: nat)
    ensures n > 0
  {
    if d.periodDeadlines == 0 then DEFAULT_DEADLINES else d.periodDeadlines
  }

  predicate HasSectors(c: SectorCounts, idx: nat) {
    idx in c && c[idx] > 0
  }

  // The deadline i places after the current one, around the period.
  function Ahead(d: DeadlineInfo, i: nat): nat {
    (d.index + i) % NumDeadlines(d)
  }

  // The search loop, from the i-th deadline ahead.
  function Search(c: SectorCounts, d: DeadlineInfo, i: nat): Option<nat>
    decreases NumDeadlines(d) - i
  {
    if i >= NumDeadlines(d) then None
    else if HasSectors(c, Ahead(d, i)) then Some(Ahead(d, i))
    else Search(c, d, i + 1)
  }

  function FindNextSectorDeadline(c: SectorCounts, d: DeadlineInfo): Option<nat> {
    Search(c, d, 1)
  }

  function NextDeadlineOpenEpoch(d: DeadlineInfo, target: nat): int {
    if target > d.index then d.periodStart + target * d.challengeWindow
    else d.periodStart + d.provingPeriod + target * d.challengeWindow
  }

  // The DeadlineInfo the policy is asked about when the current deadline has no sectors.
  function VirtualInfo(d: DeadlineInfo, target: nat): DeadlineInfo {
    var open := NextDeadlineOpenEpoch(d, target);
    d.(periodStart := if target <= d.index then d.periodStart + d.provingPeriod else d.periodStart,
       index := target, open := open, close := open + d.challengeWindow)
  }

  // The shape of what Lotus reports: equal windows that fill the proving period.
  predicate WellFormed(d: DeadlineInfo) {
    && d.challengeWindow > 0
    && d.index < NumDeadlines(d)
    && d.provingPeriod == NumDeadlines(d) * d.challengeWindow
    && d.open == d.periodStart + d.index * d.challengeWindow
    && d.close == d.open + d.challengeWindow
  }

  // Deadline j of some proving period, m periods from the reported one, opens at epoch e.
  ghost predicate OpensAt(d: DeadlineInfo, j: nat, e: int) {
    exists m: int :: e == d.periodStart + m * d.provingPeriod + j * d.challengeWindow
  }

  /** The search result: the least distance ahead at which a deadline has sectors, or none. */
  lemma {:induction false} SearchIsLeast(c: SectorCounts, d: DeadlineInfo, from: nat)
    ensures var r := Search(c, d, from);
            && (r.None? <==> forall i :: from <= i < NumDeadlines(d) ==> !HasSectors(c, Ahead(d, i)))
            && (r.Some? ==> exists i :: from <= i < NumDeadlines(d) && r.value == Ahead(d, i)
                              && HasSectors(c, r.value)
                              && forall k :: from <= k < i ==> !HasSectors(c, Ahead(d, k)))
    decreases NumDeadlines(d) - from
  {
    if from < NumDeadlines(d) && !HasSectors(c, Ahead(d, from)) {
      SearchIsLeast(c, d, from + 1);
      if Search(c, d, from + 1).Some? {
        var i :| from + 1 <= i < NumDeadlines(d) && Search(c, d, from + 1).value == Ahead(d, i)
                 && HasSectors(c, Ahead(d, i))
                 && forall k :: from + 1 <= k < i ==> !HasSectors(c, Ahead(d, k));
        assert forall k :: from <= k < i ==> !HasSectors(c, Ahead(d, k));
      }
    }
  }

  lemma AheadIs(d: DeadlineInfo, i: nat)
    requires WellFormed(d) && i < NumDeadlines(d)
    ensures Ahead(d, i) == if d.index + i < NumDeadlines(d) then d.index + i else d.index + i - NumDeadlines(d)
  {
    var n, k := NumDeadlines(d), d.index + i;
    ModOfSum(if k < n then k else k - n, n);
  }

  // How many windows ahead of the current one deadline j is.
  function Distance(d: DeadlineInfo, j: nat): int {
    if j > d.index then j - d.index else j + NumDeadlines(d) - d.index
  }

  lemma DistanceIs(d: DeadlineInfo, i: nat)
    requires WellFormed(d) && 1 <= i < NumDeadlines(d)
    ensures Ahead(d, i) != d.index && Ahead(d, i) < NumDeadlines(d) && Distance(d, Ahead(d, i)) == i
  {
    AheadIs(d, i);
  }

  lemma AheadOfDistance(d: DeadlineInfo, j: nat)
    requires WellFormed(d) && j < NumDeadlines(d) && j != d.index
    ensures 1 <= Distance(d, j) < NumDeadlines(d) && Ahead(d, Distance(d, j)) == j
  {
    AheadIs(d, Distance(d, j));
  }

  /** The wrap formula: a deadline i windows ahead opens i windows after the current one. */
  lemma OpenEpochByDistance(d: DeadlineInfo, j: nat)
    requires WellFormed(d) && j < NumDeadlines(d)
    ensures NextDeadlineOpenEpoch(d, j) == d.open + Distance(d, j) * d.challengeWindow
  {
    var n, w := NumDeadlines(d), d.challengeWindow;
    assert (j - d.index) * w == j * w - d.index * w;
    assert (j + n - d.index) * w == j * w + n * w - d.index * w;
  }

  lemma WindowsFrom(m: int, n: int, j: int, from: int, w: int)
    ensures m * (n * w) + j * w == (m * n + j - from) * w + from * w
  {
    assert m * (n * w) == (m * n) * w;
    assert (m * n + j - from) * w == (m * n) * w + j * w - from * w;
  }

  // m periods on, deadline j is past the current one only if it is as many windows ahead.
  lemma PeriodsAhead(m: int, n: int, j: int, from: int)
    requires 0 <= j < n && 0 <= from < n && m * n + j - from >= 1
    ensures m * n + j - from >= if j > from then j - from else j + n - from
  {
    if m < 0 {
      Scale(m, -1, n);
    } else if m > 0 {
      Scale(1, m, n);
    }
  }

  // Any opening of deadline j after the current window is at least Distance windows away.
  lemma OpeningIsNoSooner(d: DeadlineInfo, j: nat, e: int)
    requires WellFormed(d) && j < NumDeadlines(d) && OpensAt(d, j, e) && e >= d.close
    ensures d.open + Distance(d, j) * d.challengeWindow <= e
  {
    var n, w := NumDeadlines(d), d.challengeWindow;
    var m: int :| e == d.periodStart + m * d.provingPeriod + j * d.challengeWindow;
    WindowsFrom(m, n, j, d.index, w);
    var k := m * n + j - d.index;
    assert e == d.open + k * w;
    Scale(1, k, w);
    PeriodsAhead(m, n, j, d.index);
    Scale(Distance(d, j), k, w);
  }

  lemma OpensAtNext(d: DeadlineInfo, j: nat)
    requires WellFormed(d) && j < NumDeadlines(d)
    ensures OpensAt(d, j, NextDeadlineOpenEpoch(d, j))
  {
    var m := if j > d.index then 0 else 1;
    assert NextDeadlineOpenEpoch(d, j) == d.periodStart + m * d.provingPeriod + j * d.challengeWindow;
  }

  // Epoch e is the first at which a deadline other than the current one, with sectors, opens.
  ghost predicate NearestOpening(c: SectorCounts, d: DeadlineInfo, target: nat, e: int) {
    && target < NumDeadlines(d) && target != d.index && HasSectors(c, target)
    && e >= d.close && OpensAt(d, target, e)
    && forall j: nat, e' :: j < NumDeadlines(d) && j != d.index && HasSectors(c, j)
                            && e' >= d.close && OpensAt(d, j, e')
                            ==> e <= e'
  }

  /** The search and the wrap formula together find the nearest opening after the current window, over
      all proving periods and all other deadlines cached with sectors; and they find nothing exactly
      when there is no such deadline. */
  lemma LookAheadIsOptimal(c: SectorCounts, d: DeadlineInfo)
    requires WellFormed(d)
    ensures match FindNextSectorDeadline(c, d)
            case Some(t) => NearestOpening(c, d, t, NextDeadlineOpenEpoch(d, t))
            case None => forall j: nat :: j < NumDeadlines(d) && j != d.index ==> !HasSectors(c, j)
  {
    SearchIsLeast(c, d, 1);
    match FindNextSectorDeadline(c, d)
    case None =>
      forall j: nat | j < NumDeadlines(d) && j != d.index ensures !HasSectors(c, j) {
        AheadOfDistance(d, j);
      }
    case Some(t) =>
      var i :| 1 <= i < NumDeadlines(d) && t == Ahead(d, i) && HasSectors(c, t)
               && forall k :: 1 <= k < i ==> !HasSectors(c, Ahead(d, k));
      DistanceIs(d, i);
      OpenEpochByDistance(d, t);
      OpensAtNext(d, t);
      Scale(1, i, d.challengeWindow);
      forall j: nat, e' | j < NumDeadlines(d) && j != d.index && HasSectors(c, j) && e' >= d.close && OpensAt(d, j, e')
        ensures NextDeadlineOpenEpoch(d, t) <= e'
      {
        AheadOfDistance(d, j);
        OpeningIsNoSooner(d, j, e');
        Scale(i, Distance(d, j), d.challengeWindow);
      }
  }

  // The least distance ahead at which a deadline has sectors is where the search stops.
  lemma FoundAt(cache: SectorCounts, d: DeadlineInfo, i: nat)
    requires 1 <= i < NumDeadlines(d) && HasSectors(cache, Ahead(d, i))
    requires forall k :: 1 <= k < i ==> !HasSectors(cache, Ahead(d, k))
    ensures FindNextSectorDeadline(cache, d) == Some(Ahead(d, i))
  {
    SearchIsLeast(cache, d, 1);
  }

  /** Whatever the cache holds, right or wrong, complete or not: the look-ahead finds deadline t exactly when
      the cache gives t sectors and gives none to any deadline nearer than t. */
  lemma LookAheadFinds(c: SectorCounts, d: DeadlineInfo, t: nat)
    requires WellFormed(d) && t < NumDeadlines(d) && t != d.index
    ensures FindNextSectorDeadline(c, d) == Some(t)
            <==> HasSectors(c, t)
                 && forall j: nat :: j < NumDeadlines(d) && j != d.index && HasSectors(c, j)
                                     ==> Distance(d, t) <= Distance(d, j)
  {
    SearchIsLeast(c, d, 1);
    AheadOfDistance(d, t);
    if FindNextSectorDeadline(c, d) == Some(t) {
      var i :| 1 <= i < NumDeadlines(d) && t == Ahead(d, i) && HasSectors(c, t)
               && forall k :: 1 <= k < i ==> !HasSectors(c, Ahead(d, k));
      DistanceIs(d, i);
      forall j: nat | j < NumDeadlines(d) && j != d.index && HasSectors(c, j)
        ensures Distance(d, t) <= Distance(d, j)
      {
        AheadOfDistance(d, j);
      }
    } else if HasSectors(c, t) {
      if forall k :: 1 <= k < Distance(d, t) ==> !HasSectors(c, Ahead(d, k)) {
        FoundAt(c, d, Distance(d, t));
        assert false;
      } else {
        var k :| 1 <= k < Distance(d, t) && HasSectors(c, Ahead(d, k));
        DistanceIs(d, k);
      }
    }
  }

  // The cache entries that exist are what Lotus would answer.
  ghost predicate Sound(c: SectorCounts, truth: SectorCounts) {
    forall i :: i in c ==> i in truth && c[i] == truth[i]
  }

  lemma SearchAgrees(c: SectorCounts, truth: SectorCounts, d: DeadlineInfo, from: nat, t: nat)
    requires Sound(c, truth) && Search(truth, d, from) == Some(t) && t in c
    ensures Search(c, d, from) == Some(t)
    decreases NumDeadlines(d) - from
  {
    if !HasSectors(truth, Ahead(d, from)) {
      SearchAgrees(c, truth, d, from + 1, t);
    }
  }

  /** With a cache whose entries are right but that may miss some (a query failed), the look-ahead finds
      the truly nearest deadline exactly when that deadline's entry is there. */
  lemma LookAheadNeedsTheEntry(c: SectorCounts, truth: SectorCounts, d: DeadlineInfo, t: nat)
    requires Sound(c, truth) && FindNextSectorDeadline(truth, d) == Some(t)
    ensures FindNextSectorDeadline(c, d) == Some(t) <==> t in c
  {
    SearchIsLeast(c, d, 1);
    if t in c {
      SearchAgrees(c, truth, d, 1, t);
    }
  }

  /** How far the search looks: it finds any other deadline of the proving period, if that alone has sectors,
      and nothing else; a period is taken to have 48 deadlines when the report does not say. */
  lemma SearchReach(d: DeadlineInfo, k: nat)
    requires WellFormed(d)
    ensures FindNextSectorDeadline(map[k := 1], d) == Some(k)
            <==> k != d.index && k < if d.periodDeadlines == 0 then 48 else d.periodDeadlines
  {
    SearchIsLeast(map[k := 1], d, 1);
    if k < NumDeadlines(d) && k != d.index {
      LookAheadFinds(map[k := 1], d, k);
    } else if FindNextSectorDeadline(map[k := 1], d) == Some(k) {
      var i :| 1 <= i < NumDeadlines(d) && k == Ahead(d, i);
      DistanceIs(d, i);
    }
  }
}
