/** What the listener's fields say about the commands it has given. */
module ListenerHistory {
  import opened Wrappers
  import opened ListenerModel

  // The last command that took effect: a resume that was sent or a pause that succeeded.
  function LastCommand(h: seq<Effect>): Option<Effect> {
    if h == [] then None
    else
      var e := h[|h| - 1];
      if e.ResumeSent? || (e.PauseTried? && e.ok) then Some(e) else LastCommand(h[..|h| - 1])
  }

  ghost predicate HistoryOk(l: Listener, h: seq<Effect>) {
    && (YieldLast(l) ==> LastCommand(h) == Some(PauseTried(l.lastState.value, true)))
    && (l.lastState == Some(GPU_STATE_AVAILABLE) ==> LastCommand(h) == Some(ResumeSent))
    && (l.failsafeTriggered ==> !l.connected && l.lastState == Some(GPU_STATE_WINDOW_POST))
    && (l.lastState.Some? ==> l.lastState == Some(GPU_STATE_AVAILABLE) || YieldLast(l))
    && (l.connected <==> l.disconnectSince.None?)
  }

  /** Over every run: a yield state is remembered only while the last command that took effect is the
      pause for it (so no resume was sent since); AVAILABLE only while it is a resume; the
      fail-safe flag only after a successful pause, as WINDOW_POST; and an outage has a beginning exactly
      while the connection is lost. */
  lemma {:induction false} CommandHistory(acts: seq<PollAct>)
    ensures HistoryOk(Run(NewListener(), acts), History(NewListener(), acts))
  {
    if acts != [] {
      CommandHistory(acts[..|acts| - 1]);
      var h := History(NewListener(), acts);
      assert h[..|h| - 1] == History(NewListener(), acts[..|acts| - 1]);
    }
  }

  // The scheduler answers every poll with some yield state; it may escalate or relax.
  ghost predicate AllYield(acts: seq<PollAct>) {
    forall j :: 0 <= j < |acts| ==> acts[j].i.reply.Some? && 2 <= acts[j].i.reply.value <= 4
  }

  // What the last pause that succeeded within the first k polls was for; before any, lastState, which the
  // end of an outage that triggered the fail-safe clears.
  function PausedFor(l: Listener, acts: seq<PollAct>, k: nat): Option<int>
    requires k <= |acts|
  {
    if k == 0 then (if l.failsafeTriggered then None else l.lastState)
    else if acts[k - 1].ok then acts[k - 1].i.reply
    else PausedFor(l, acts, k - 1)
  }

  lemma {:induction false} PausedForPrefix(l: Listener, acts: seq<PollAct>, n: nat, k: nat)
    requires k <= n <= |acts|
    ensures PausedFor(l, acts[..n], k) == PausedFor(l, acts, k)
  {
    if k > 0 {
      PausedForPrefix(l, acts, n, k - 1);
    }
  }

  // The effect that is due at poll j.
  function Due(l: Listener, acts: seq<PollAct>, j: nat): Effect
    requires j < |acts| && acts[j].i.reply.Some?
  {
    var state := acts[j].i.reply.value;
    if PausedFor(l, acts, j) == Some(state) then NoEffect else PauseTried(state, acts[j].ok)
  }

  // What the listener remembers is what it last paused for; a failed resume makes it forget AVAILABLE.
  predicate Remembers(l: Listener, paused: Option<int>) {
    if l.failsafeTriggered then !l.connected && paused.None?
    else l.lastState == paused || (l.lastState.None? && paused == Some(GPU_STATE_AVAILABLE))
  }

  lemma YieldPoll(l: Listener, a: PollAct, paused: Option<int>)
    requires Remembers(l, paused) && a.i.reply.Some? && 2 <= a.i.reply.value <= 4
    ensures Poll(l, a.i, a.ok).1
            == if paused == a.i.reply then NoEffect else PauseTried(a.i.reply.value, a.ok)
    ensures Remembers(Poll(l, a.i, a.ok).0, if a.ok then a.i.reply else paused)
  {
  }

  /** While the scheduler keeps answering yield states, the same or escalating ones, every poll tries the
      pause for its answer until one succeeds: nothing is sent exactly when the last pause that succeeded
      was for this very answer.  In every run the fail-safe flag implies a lost connection (CommandHistory),
      so this covers every listener that can be reached. */
  lemma {:induction false} FailedPauseIsRetried(l: Listener, acts: seq<PollAct>)
    requires AllYield(acts) && (l.failsafeTriggered ==> !l.connected)
    ensures forall j :: 0 <= j < |acts| ==> History(l, acts)[j] == Due(l, acts, j)
    ensures Remembers(Run(l, acts), PausedFor(l, acts, |acts|))
  {
    if acts != [] {
      var n := |acts| - 1;
      FailedPauseIsRetried(l, acts[..n]);
      forall j | 0 <= j < n
        ensures History(l, acts)[j] == Due(l, acts, j)
      {
        PausedForPrefix(l, acts, n, j);
      }
      PausedForPrefix(l, acts, n, n);
      YieldPoll(Run(l, acts[..n]), acts[n], PausedFor(l, acts, n));
    }
  }

  // The scheduler answers every poll with AVAILABLE.
  predicate AllAvailable(acts: seq<PollAct>) {
    forall j :: 0 <= j < |acts| ==> acts[j].i.reply == Some(1)
  }

  // Before poll k a resume is in the background: the last one sent, as long as no poll has seen it end.
  predicate Outstanding(l: Listener, acts: seq<PollAct>, k: nat)
    requires k <= |acts|
  {
    if k == 0 then l.resumePending
    else History(l, acts)[k - 1].ResumeSent? || (Outstanding(l, acts, k - 1) && !acts[k - 1].i.resumeDone)
  }

  lemma HistoryPrefix(l: Listener, acts: seq<PollAct>, n: nat, k: nat)
    requires k < n <= |acts|
    ensures History(l, acts[..n])[k] == History(l, acts)[k]
    decreases |acts|
  {
    if n < |acts| {
      assert acts[..|acts| - 1][..n] == acts[..n];
      HistoryPrefix(l, acts[..|acts| - 1], n, k);
    } else {
      assert acts[..n] == acts;
    }
  }

  lemma {:induction false} OutstandingPrefix(l: Listener, acts: seq<PollAct>, n: nat, k: nat)
    requires k <= n <= |acts|
    ensures Outstanding(l, acts[..n], k) == Outstanding(l, acts, k)
  {
    if k > 0 {
      HistoryPrefix(l, acts, n, k - 1);
      OutstandingPrefix(l, acts, n, k - 1);
    }
  }

  // AVAILABLE is already remembered when the run begins; an outage with a fail-safe makes it forgotten.
  predicate KnowsAvailable(l: Listener) {
    l.lastState == Some(1) && !l.failsafeTriggered
  }

  // The resume that is due at poll j: the first answer that is news, and after each resume that failed.
  function ResumeDue(l: Listener, acts: seq<PollAct>, j: nat): Effect
    requires j < |acts|
  {
    if (j == 0 && !KnowsAvailable(l)) || (Outstanding(l, acts, j) && acts[j].i.resumeDone && acts[j].i.resumeFailed)
    then ResumeSent else NoEffect
  }

  lemma AvailablePoll(l: Listener, a: PollAct)
    requires a.i.reply == Some(1) && (l.failsafeTriggered ==> !l.connected)
    ensures var (l', e) := Poll(l, a.i, a.ok);
            && e == (if KnowsAvailable(l) && !(l.resumePending && a.i.resumeDone && a.i.resumeFailed)
                     then NoEffect else ResumeSent)
            && KnowsAvailable(l')
            && (l'.resumePending <==> e.ResumeSent? || (l.resumePending && !a.i.resumeDone))
  {
  }

  /** While the scheduler keeps answering AVAILABLE, one resume is sent, unless AVAILABLE was remembered; and
      then one more after each resume that ended with an error, and none besides. */
  lemma {:induction false} FailedResumeIsRetried(l: Listener, acts: seq<PollAct>)
    requires AllAvailable(acts) && (l.failsafeTriggered ==> !l.connected)
    ensures forall j :: 0 <= j < |acts| ==> History(l, acts)[j] == ResumeDue(l, acts, j)
    ensures var l' := Run(l, acts);
            && (l'.resumePending <==> Outstanding(l, acts, |acts|))
            && (if acts == [] then l' == l else KnowsAvailable(l'))
  {
    if acts != [] {
      var n := |acts| - 1;
      FailedResumeIsRetried(l, acts[..n]);
      forall j | 0 <= j < n
        ensures History(l, acts)[j] == ResumeDue(l, acts, j)
      {
        HistoryPrefix(l, acts, n, j);
        OutstandingPrefix(l, acts, n, j);
      }
      OutstandingPrefix(l, acts, n, n);
      AvailablePoll(Run(l, acts[..n]), acts[n]);
    }
  }

  /** An answer that is none of the four states commands nothing and is not remembered. */
  lemma UnknownAnswerIsIgnored(l: Listener, i: Input, ok: bool)
    requires i.reply.Some? && !(1 <= i.reply.value <= 4)
    ensures var (l', e) := Poll(l, i, ok); e == NoEffect && (l'.lastState == l.lastState || l'.lastState.None?)
  {
  }

  // No poll is answered.
  predicate AllFail(acts: seq<PollAct>) {
    forall j :: 0 <= j < |acts| ==> acts[j].i.reply.None?
  }

  // The outage that began at `since` has lasted long enough at poll j.
  predicate LongEnough(acts: seq<PollAct>, since: real, j: nat)
    requires j < |acts|
  {
    acts[j].i.now - since >= 60.0
  }

  // The fail-safe pause of some poll before k succeeded.
  predicate Safe(acts: seq<PollAct>, since: real, k: nat)
    requires k <= |acts|
  {
    exists j :: 0 <= j < k && LongEnough(acts, since, j) && acts[j].ok
  }

  lemma SafePrefix(acts: seq<PollAct>, since: real, n: nat, k: nat)
    requires k <= n <= |acts|
    ensures Safe(acts[..n], since, k) == Safe(acts, since, k)
  {
    if Safe(acts, since, k) {
      var j :| 0 <= j < k && LongEnough(acts, since, j) && acts[j].ok;
      assert LongEnough(acts[..n], since, j);
    }
    if Safe(acts[..n], since, k) {
      var j :| 0 <= j < k && LongEnough(acts[..n], since, j) && acts[..n][j].ok;
      assert LongEnough(acts, since, j);
    }
  }

  lemma SafeGrows(acts: seq<PollAct>, since: real, k: nat)
    requires k < |acts|
    ensures Safe(acts, since, k + 1) <==> Safe(acts, since, k) || (LongEnough(acts, since, k) && acts[k].ok)
  {
  }

  // The fail-safe that is due at poll j.
  ghost function FailSafeDue(acts: seq<PollAct>, since: real, j: nat): Effect
    requires j < |acts|
  {
    if LongEnough(acts, since, j) && !Safe(acts, since, j) then PauseTried(3, acts[j].ok) else NoEffect
  }

  lemma {:induction false} OutageHistory(l: Listener, acts: seq<PollAct>, since: real)
    requires !l.failsafeTriggered && AllFail(acts)
    requires if l.disconnectSince.Some? then l.disconnectSince.value == since
             else acts != [] ==> since == acts[0].i.now
    ensures forall j :: 0 <= j < |acts| ==> History(l, acts)[j] == FailSafeDue(acts, since, j)
    ensures Run(l, acts).failsafeTriggered <==> Safe(acts, since, |acts|)
    ensures acts != [] ==> Run(l, acts).disconnectSince == Some(since)
  {
    if acts != [] {
      var n := |acts| - 1;
      OutageHistory(l, acts[..n], since);
      forall j | 0 <= j < n
        ensures History(l, acts)[j] == FailSafeDue(acts, since, j)
      {
        HistoryPrefix(l, acts, n, j);
        SafePrefix(acts, since, n, j);
        assert LongEnough(acts, since, j) == LongEnough(acts[..n], since, j);
      }
      SafePrefix(acts, since, n, n);
      SafeGrows(acts, since, n);
    }
  }

  /** Every outage of every run: counted from its first failed poll, a poll sends the fail-safe pause if and
      only if 60 seconds have passed and no such pause has succeeded in this outage; so none is sent before,
      each one that failed is tried again at the next poll, and none follows one that succeeded. */
  lemma FailSafeIsRetried(before: seq<PollAct>, outage: seq<PollAct>)
    requires AllFail(outage) && outage != []
    requires before == [] || before[|before| - 1].i.reply.Some?
    ensures var h := History(Run(NewListener(), before), outage);
            forall j :: 0 <= j < |outage| ==> h[j] == FailSafeDue(outage, outage[0].i.now, j)
  {
    CommandHistory(before);
    var l := Run(NewListener(), before);
    assert l.connected;
    OutageHistory(l, outage, outage[0].i.now);
  }
}
