/** From the poll that sends a pause to what the pause does on an engine: which urgency it carries, and what
    holds until it has started. */
module SentPauses {
  import opened Wrappers
  import opened Sidecar
  import opened EngineModel
  import opened PoolModel
  import opened PoolSafety
  import opened PoolOverlap
  import opened ListenerModel
  import opened Composition

  lemma NextKeepsSysPauses(s: System, a: SysAct)
    requires PausesOk(s.pool)
    ensures PausesOk(Composition.Next(s, a).pool)
  {
    NextKeepsPausesOk(s.pool, RequestPause);
    NextKeepsPausesOk(s.pool, PoolAct.EndPause);
    if s.cmds != [] {
      NextKeepsPausesOk(s.pool, ToPool(s.cmds[0]));
    }
    if a.Internal? {
      NextKeepsPausesOk(s.pool, a.a);
    }
  }

  lemma {:induction false} RunKeepsSysPauses(s: System, acts: seq<SysAct>)
    requires PausesOk(s.pool)
    ensures PausesOk(Composition.Run(s, acts).pool)
    decreases |acts|
  {
    if acts != [] {
      NextKeepsSysPauses(s, acts[0]);
      RunKeepsSysPauses(Composition.Next(s, acts[0]), acts[1..]);
    }
  }

  // How many pauses are among the commands.
  function Pauses(cmds: seq<Cmd>): nat {
    if cmds == [] then 0 else (if cmds[0].DoPause? then 1 else 0) + Pauses(cmds[1..])
  }

  // The pause n has the urgency u on the engine, as long as it has not had the lock.
  ghost predicate HasUrgency(e: Engine, n: nat, u: Urgency) {
    PauseOp(n) in e.t.ops ==>
      match e.t.ops[PauseOp(n)]
      case PauseCall(v) => v == u
      case PauseEntry(v) => v == u
      case _ => true
  }

  // The pause n is the j-th command waiting to be started; it has this urgency.
  ghost predicate Queued(s: System, n: nat, u: Urgency, j: nat) {
    j < |s.cmds| && s.cmds[j] == DoPause(u) && n == s.pool.nextPause + Pauses(s.cmds[..j])
  }

  ghost predicate Begun(s: System, n: nat, u: Urgency) {
    n < s.pool.nextPause && forall i :: 0 <= i < |s.pool.engines| ==> HasUrgency(s.pool.engines[i], n, u)
  }

  // The pause n was sent with this urgency.
  ghost predicate Carries(s: System, n: nat, u: Urgency) {
    Begun(s, n, u) || exists j :: Queued(s, n, u, j)
  }

  lemma StepKeepsUrgency(e: Engine, n: nat, u: Urgency, a: Act)
    requires HasUrgency(e, n, u) && (a.CallPause? ==> a.id != PauseOp(n))
    ensures HasUrgency(EngineModel.Next(e, a), n, u)
  {
  }

  lemma PoolKeepsBegun(p: Pool, n: nat, u: Urgency, a: PoolAct)
    requires n < p.nextPause && forall i :: 0 <= i < |p.engines| ==> HasUrgency(p.engines[i], n, u)
    ensures var p' := PoolModel.Next(p, a);
            n < p'.nextPause && forall i :: 0 <= i < |p'.engines| ==> HasUrgency(p'.engines[i], n, u)
  {
    var p' := PoolModel.Next(p, a);
    forall i | 0 <= i < |p'.engines| ensures HasUrgency(p'.engines[i], n, u) {
      if p.engines != [] {
        var _ := NextOnEngine(p, a, 0);
      }
      var ea := NextOnEngine(p, a, i);
      if ea.Some? {
        StepKeepsUrgency(p.engines[i], n, u, ea.value);
      }
    }
  }

  lemma NextKeepsBegun(s: System, n: nat, u: Urgency, a: SysAct)
    requires Begun(s, n, u)
    ensures Begun(Composition.Next(s, a), n, u)
  {
    PoolKeepsBegun(s.pool, n, u, RequestPause);
    PoolKeepsBegun(s.pool, n, u, PoolAct.EndPause);
    if s.cmds != [] {
      PoolKeepsBegun(s.pool, n, u, ToPool(s.cmds[0]));
    }
    if a.Internal? {
      PoolKeepsBegun(s.pool, n, u, a.a);
    }
  }

  // The pause itself starts.
  lemma StartBegins(s: System, n: nat, u: Urgency)
    requires PausesOk(s.pool) && Queued(s, n, u, 0)
    ensures Begun(Composition.Next(s, Start), n, u)
  {
    assert s.cmds[..0] == [];
    var p' := Composition.Next(s, Start).pool;
    forall i | 0 <= i < |p'.engines| ensures HasUrgency(p'.engines[i], n, u) {
      assert PauseOp(n) !in s.pool.engines[i].t.ops;
    }
  }

  // A command in front of it starts.
  lemma StartAdvances(s: System, n: nat, u: Urgency, j: nat)
    requires Queued(s, n, u, j) && j > 0
    ensures Queued(Composition.Next(s, Start), n, u, j - 1)
  {
    assert s.cmds[..j][1..] == s.cmds[1..][..j - 1];
  }

  lemma OtherKeepsQueued(s: System, n: nat, u: Urgency, j: nat, a: SysAct)
    requires Queued(s, n, u, j) && !a.Start?
    ensures Queued(Composition.Next(s, a), n, u, j)
  {
    assert s.cmds <= Composition.Next(s, a).cmds;
    assert Composition.Next(s, a).cmds[..j] == s.cmds[..j];
  }

  lemma NextKeepsCarries(s: System, n: nat, u: Urgency, a: SysAct)
    requires PausesOk(s.pool) && Carries(s, n, u)
    ensures Carries(Composition.Next(s, a), n, u)
  {
    if Begun(s, n, u) {
      NextKeepsBegun(s, n, u, a);
    } else {
      var j :| Queued(s, n, u, j);
      if !a.Start? {
        OtherKeepsQueued(s, n, u, j, a);
      } else if j > 0 {
        StartAdvances(s, n, u, j);
      } else {
        StartBegins(s, n, u);
      }
    }
  }

  lemma {:induction false} RunKeepsCarries(s: System, n: nat, u: Urgency, acts: seq<SysAct>)
    requires PausesOk(s.pool) && Carries(s, n, u)
    ensures Carries(Composition.Run(s, acts), n, u) && PausesOk(Composition.Run(s, acts).pool)
    decreases |acts|
  {
    if acts != [] {
      NextKeepsSysPauses(s, acts[0]);
      NextKeepsCarries(s, n, u, acts[0]);
      RunKeepsCarries(Composition.Next(s, acts[0]), n, u, acts[1..]);
    }
  }

  // A poll that sends a pause had one of four answers, and the pause is the last command.
  lemma PollSends(s: System, i: Input)
    requires s.waiting.None? && Composition.Next(s, PollBegins(i)).waiting.Some?
    ensures i.reply == None || i.reply == Some(2) || i.reply == Some(3) || i.reply == Some(4)
    ensures Queued(Composition.Next(s, PollBegins(i)), s.pool.nextPause + Pauses(s.cmds),
                   if i.reply == Some(2) then Normal else Immediate, |s.cmds|)
  {
    var s1 := Composition.Next(s, PollBegins(i));
    assert s1.cmds[..|s.cmds|] == s.cmds;
  }

  // What the pause does once it has the lock of a RUNNING engine: an unload at once, or a drain with everything
  // in flight going on and no new request let in.
  predicate DoesAs(e: Engine, pause: OpId, unloads: bool, drains: bool) {
    HasLock(e.t, pause) && e.t.ops[pause].PauseEntry? && e.f.state.Running? ==>
      var f := EngineModel.Next(e, Enter(pause)).f;
      && (f.state.Unloading? <==> unloads)
      && (f.state.Running? && !f.accepting && f.inflight == e.f.inflight <==> drains)
  }

  lemma UrgencyTells(e: Engine, n: nat, u: Urgency)
    requires HasUrgency(e, n, u)
    ensures DoesAs(e, PauseOp(n), u.Immediate?, u.Normal?)
  {
  }

  lemma CarriedTells(s: System, n: nat, u: Urgency)
    requires PausesOk(s.pool) && Carries(s, n, u)
    ensures forall k :: 0 <= k < |s.pool.engines| ==> DoesAs(s.pool.engines[k], PauseOp(n), u.Immediate?, u.Normal?)
  {
    forall k | 0 <= k < |s.pool.engines| && PauseOp(n) in s.pool.engines[k].t.ops
      ensures DoesAs(s.pool.engines[k], PauseOp(n), u.Immediate?, u.Normal?)
    {
      assert n < s.pool.nextPause;
      assert Begun(s, n, u);
      UrgencyTells(s.pool.engines[k], n, u);
    }
  }

  /** Which urgency reaches the engines: in any run, when a poll sends a pause, and later that very pause gets
      the lock of a RUNNING engine, then the engine is UNLOADING by the end of that section if and only if the
      answer was WINDOW_POST or WINNING_POST or the pause is the fail-safe's; and it still runs what it has
      in flight, closed to new requests, if and only if the answer was YIELDING. */
  lemma PauseCarriesUrgency(start: System, before: seq<SysAct>, i: Input, after: seq<SysAct>)
    requires Composition.Init(start)
    requires var s := Composition.Run(start, before);
             s.waiting.None? && Composition.Next(s, PollBegins(i)).waiting.Some?
    ensures var s := Composition.Run(start, before);
            var engines := Composition.Run(Composition.Next(s, PollBegins(i)), after).pool.engines;
            var pause := PauseOp(s.pool.nextPause + Pauses(s.cmds));
            forall k :: 0 <= k < |engines| ==>
              DoesAs(engines[k], pause, i.reply == None || i.reply == Some(3) || i.reply == Some(4), i.reply == Some(2))
  {
    InitIsSound(start.pool);
    RunKeepsSysPauses(start, before);
    var s := Composition.Run(start, before);
    var n := s.pool.nextPause + Pauses(s.cmds);
    var u := if i.reply == Some(2) then Normal else Immediate;
    PollSends(s, i);
    var s1 := Composition.Next(s, PollBegins(i));
    NextKeepsSysPauses(s, PollBegins(i));
    RunKeepsCarries(s1, n, u, after);
    CarriedTells(Composition.Run(s1, after), n, u);
  }

  // The main loop starts no resume along the run.
  predicate StartsNoResume(s: System, acts: seq<SysAct>)
    decreases |acts|
  {
    acts == [] || (!(acts[0].Start? && s.cmds != [] && s.cmds[0].DoResume?)
                   && StartsNoResume(Composition.Next(s, acts[0]), acts[1..]))
  }

  lemma SysKeepsHalted(p0: Pool, s: System, a: SysAct)
    requires Halted(p0, s.pool) && !(a.Start? && s.cmds != [] && s.cmds[0].DoResume?)
    ensures Halted(p0, Composition.Next(s, a).pool)
  {
    NextKeepsHalted(p0, s.pool, RequestPause);
    NextKeepsHalted(p0, s.pool, PoolAct.EndPause);
    if s.cmds != [] && s.cmds[0].DoPause? {
      NextKeepsHalted(p0, s.pool, ToPool(s.cmds[0]));
    }
    if a.Internal? && IsInternal(a.a) {
      NextKeepsHalted(p0, s.pool, a.a);
    }
  }

  lemma {:induction false} SysRunKeepsHalted(p0: Pool, s: System, acts: seq<SysAct>)
    requires Halted(p0, s.pool) && StartsNoResume(s, acts)
    ensures Halted(p0, Composition.Run(s, acts).pool)
    decreases |acts|
  {
    if acts != [] {
      SysKeepsHalted(p0, s, acts[0]);
      SysRunKeepsHalted(p0, Composition.Next(s, acts[0]), acts[1..]);
    }
  }

  /** From the poll that sends a pause on, whether or not the main loop has started the pause, and until it
      starts a resume: no engine gets a new resume() coroutine, and every resume loop ends at its next
      iteration with the engines as they are. */
  lemma SentPauseStopsLoops(s: System, i: Input, acts: seq<SysAct>)
    requires s.waiting.None? && Composition.Next(s, PollBegins(i)).waiting.Some?
    requires StartsNoResume(Composition.Next(s, PollBegins(i)), acts)
    ensures var p' := Composition.Run(Composition.Next(s, PollBegins(i)), acts).pool;
            Halted(s.pool, p') && LoopsEnd(p')
  {
    SysRunKeepsHalted(s.pool, Composition.Next(s, PollBegins(i)), acts);
  }
}
