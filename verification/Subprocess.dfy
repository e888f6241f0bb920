/** The core subprocesses of N engines that share one parent process: who spawned them, and who kills.

    Pids are never reused, and only engine creation spawns children of the parent.  The class-wide lock
    lets one creation at a time run; destructions and exits interleave with it freely. */
module Subprocess {
  import opened Wrappers

  datatype Procs = Procs(
    childPids: set<nat>,     // _child_pids
    doomed: set<nat>,        // child_pids, the copy a running _destroy_engine works on
    spawned: set<nat>)       // every pid this engine ever spawned

  // The holder of the creation lock and its snapshot of active_children().
  datatype Creation = Creation(engine: nat, preExisting: set<nat>)

  datatype World = World(
    engines: seq<Procs>,
    active: set<nat>,        // multiprocessing.active_children()
    used: set<nat>,          // pids given out so far
    creating: Option<Creation>)

  datatype Act =
    | BeginCreate(i: nat)
    | Spawn(pids: set<nat>)
    | CreateOk
    | CreateFail
    | Exit(pid: nat)
    | BeginDestroy(i: nat)
    | Kill(i: nat, pid: nat)
    | EndDestroy(i: nat)

  predicate Enabled(w: World, a: Act) {
    match a
    case BeginCreate(i) => w.creating.None? && i < |w.engines|
    case Spawn(pids) => w.creating.Some? && w.creating.value.engine < |w.engines| && pids !! w.used
    case CreateOk => w.creating.Some? && w.creating.value.engine < |w.engines|
    case CreateFail => w.creating.Some?
    case Exit(_) => true
    case BeginDestroy(i) => i < |w.engines|
    case Kill(i, pid) => i < |w.engines| && pid in w.engines[i].doomed
    case EndDestroy(i) => i < |w.engines|
  }

  function Step(w: World, a: Act): World
    requires Enabled(w, a)
  {
    match a
    case BeginCreate(i) => w.(creating := Some(Creation(i, w.active)))
    case Spawn(pids) =>
      var i := w.creating.value.engine;
      w.(active := w.active + pids, used := w.used + pids,
         engines := w.engines[i := w.engines[i].(spawned := w.engines[i].spawned + pids)])
    case CreateOk =>
      var Creation(i, pre) := w.creating.value;
      w.(engines := w.engines[i := w.engines[i].(childPids := w.active - pre)], creating := None)
    case CreateFail => w.(creating := None)
    case Exit(pid) => w.(active := w.active - {pid})
    case BeginDestroy(i) => w.(engines := w.engines[i := w.engines[i].(doomed := w.engines[i].childPids)])
    case Kill(_, pid) => w.(active := w.active - {pid})
    case EndDestroy(i) => w.(engines := w.engines[i := w.engines[i].(doomed := {}, childPids := {})])
  }

  function Next(w: World, a: Act): World {
    if Enabled(w, a) then Step(w, a) else w
  }

  function Run(w: World, acts: seq<Act>): World
    decreases |acts|
  {
    if acts == [] then w else Run(Next(w, acts[0]), acts[1..])
  }

  // The kill loop of _destroy_engine has no await: all its kills are one step of the event loop.
  function KillAll(w: World, i: nat): World
    requires i < |w.engines|
  {
    w.(active := w.active - w.engines[i].doomed)
  }

  function Kills(i: nat, pids: seq<nat>): (acts: seq<Act>)
    ensures |acts| == |pids| && forall k :: 0 <= k < |pids| ==> acts[k] == Kill(i, pids[k])
  {
    seq(|pids|, k requires 0 <= k < |pids| => Kill(i, pids[k]))
  }

  lemma {:induction false} KillsRun(w: World, i: nat, pids: seq<nat>)
    requires i < |w.engines| && forall k :: 0 <= k < |pids| ==> pids[k] in w.engines[i].doomed
    ensures Run(w, Kills(i, pids)) == w.(active := w.active - set k | 0 <= k < |pids| :: pids[k])
    decreases |pids|
  {
    var gone := set k | 0 <= k < |pids| :: pids[k];
    if pids == [] {
      assert w.active - gone == w.active;
    } else {
      var w1 := Next(w, Kill(i, pids[0]));
      assert Kills(i, pids)[1..] == Kills(i, pids[1..]);
      KillsRun(w1, i, pids[1..]);
      var rest := set k | 0 <= k < |pids[1..]| :: pids[1..][k];
      assert gone == {pids[0]} + rest by {
        forall x | x in gone ensures x in {pids[0]} + rest {
          var k :| 0 <= k < |pids| && pids[k] == x;
          assert k > 0 ==> pids[1..][k - 1] == x;
        }
      }
      assert w1.active - rest == w.active - gone;
    }
  }

  // Every pid an engine records is one it spawned itself, and no two engines spawned the same pid.
  ghost predicate Isolated(w: World) {
    && (forall i :: 0 <= i < |w.engines| ==>
          w.engines[i].childPids <= w.engines[i].spawned && w.engines[i].doomed <= w.engines[i].spawned)
    && (forall i, j :: 0 <= i < j < |w.engines| ==> w.engines[i].spawned !! w.engines[j].spawned)
  }

  ghost predicate Inv(w: World) {
    && Isolated(w)
    && w.active <= w.used
    && (forall i :: 0 <= i < |w.engines| ==> w.engines[i].spawned <= w.used)
    && (w.creating.Some? ==>
          && w.creating.value.engine < |w.engines|
          && w.active - w.creating.value.preExisting <= w.engines[w.creating.value.engine].spawned)
  }

  lemma NextKeepsInv(w: World, a: Act)
    requires Inv(w)
    ensures Inv(Next(w, a)) && |Next(w, a).engines| == |w.engines|
  {
  }

  // N engines that never spawned anything; active children of other origin may exist.
  ghost predicate Init(w: World) {
    && (forall i :: 0 <= i < |w.engines| ==> w.engines[i] == Procs({}, {}, {}))
    && w.active <= w.used && w.creating.None?
  }

  lemma {:induction false} RunKeepsInv(w: World, acts: seq<Act>)
    requires Inv(w)
    ensures Inv(Run(w, acts)) && |Run(w, acts).engines| == |w.engines|
    decreases |acts|
  {
    if acts != [] {
      NextKeepsInv(w, acts[0]);
      RunKeepsInv(Next(w, acts[0]), acts[1..]);
    }
  }

  /** Over every interleaving of creations, failed creations, exits and destructions: the engines'
      recorded children stay pairwise disjoint and of their own spawning, so what an engine kills is never
      another engine's core. */
  lemma KillsOnlyItsOwn(w: World, acts: seq<Act>, i: nat, j: nat, pid: nat)
    requires Init(w) && i < |w.engines| && j < |w.engines| && i != j
    ensures var w' := Run(w, acts);
            && |w'.engines| == |w.engines|
            && w'.engines[i].childPids !! w'.engines[j].childPids
            && w'.engines[i].childPids <= w'.engines[i].spawned
            && (Enabled(w', Kill(i, pid)) ==>
                  pid in w'.engines[i].spawned && pid !in w'.engines[j].spawned && pid !in w'.engines[j].childPids)
  {
    RunKeepsInv(w, acts);
    var w' := Run(w, acts);
    assert w'.engines[if i < j then i else j].spawned !! w'.engines[if i < j then j else i].spawned;
  }

  // During a creation of engine i that began in w0: what it has spawned is fresh, and its living children are
  // what is active now and was not then.
  ghost predicate CreatingSince(w0: World, w: World, i: nat) {
    && |w.engines| == |w0.engines| && i < |w.engines| && w.creating == Some(Creation(i, w0.active))
    && w0.engines[i].spawned <= w.engines[i].spawned && w0.used <= w.used && w.active <= w.used
    && SpawnedSince(w0, w, i) !! w0.used
    && w.active - w0.active == SpawnedSince(w0, w, i) * w.active
  }

  ghost function SpawnedSince(w0: World, w: World, i: nat): set<nat>
    requires i < |w0.engines| && i < |w.engines|
  {
    w.engines[i].spawned - w0.engines[i].spawned
  }

  // No creation ends.
  predicate StillCreating(acts: seq<Act>) {
    forall k :: 0 <= k < |acts| ==> !acts[k].CreateOk? && !acts[k].CreateFail?
  }

  lemma SpawnKeepsCreating(w0: World, w: World, i: nat, pids: set<nat>)
    requires Inv(w0) && CreatingSince(w0, w, i) && pids !! w.used && w.engines[i].spawned <= w.used
    ensures CreatingSince(w0, Step(w, Spawn(pids)), i)
  {
    var w' := Step(w, Spawn(pids));
    var since := SpawnedSince(w0, w, i);
    assert pids !! w0.active;
    assert SpawnedSince(w0, w', i) == since + pids;
    assert w'.active - w0.active == (w.active - w0.active) + pids;
    assert (since + pids) * (w.active + pids) == since * w.active + pids;
  }

  // A child ends.
  lemma EndKeepsCreating(w0: World, w: World, i: nat, pid: nat)
    requires CreatingSince(w0, w, i)
    ensures CreatingSince(w0, w.(active := w.active - {pid}), i)
  {
    var since, active := SpawnedSince(w0, w, i), w.active - {pid};
    assert SpawnedSince(w0, w.(active := active), i) == since;
    assert active - w0.active == (w.active - w0.active) - {pid};
    assert since * active == since * w.active - {pid};
  }

  // An engine's records change.
  lemma RecordKeepsCreating(w0: World, w: World, i: nat, j: nat, r: Procs)
    requires CreatingSince(w0, w, i) && j < |w.engines| && r.spawned == w.engines[j].spawned
    ensures CreatingSince(w0, w.(engines := w.engines[j := r]), i)
  {
    assert SpawnedSince(w0, w.(engines := w.engines[j := r]), i) == SpawnedSince(w0, w, i);
  }

  lemma NextKeepsCreating(w0: World, w: World, i: nat, a: Act)
    requires Inv(w0) && Inv(w) && CreatingSince(w0, w, i) && !a.CreateOk? && !a.CreateFail?
    ensures CreatingSince(w0, Next(w, a), i)
  {
    if !Enabled(w, a) { return; }
    match a
    case Spawn(pids) => SpawnKeepsCreating(w0, w, i, pids);
    case Exit(pid) => EndKeepsCreating(w0, w, i, pid);
    case Kill(_, pid) => EndKeepsCreating(w0, w, i, pid);
    case BeginDestroy(j) => RecordKeepsCreating(w0, w, i, j, w.engines[j].(doomed := w.engines[j].childPids));
    case EndDestroy(j) => RecordKeepsCreating(w0, w, i, j, w.engines[j].(doomed := {}, childPids := {}));
  }

  lemma {:induction false} RunKeepsCreating(w0: World, w: World, i: nat, acts: seq<Act>)
    requires Inv(w0) && Inv(w) && CreatingSince(w0, w, i) && StillCreating(acts)
    ensures Inv(Run(w, acts)) && CreatingSince(w0, Run(w, acts), i)
    decreases |acts|
  {
    if acts != [] {
      NextKeepsInv(w, acts[0]);
      NextKeepsCreating(w0, w, i, acts[0]);
      RunKeepsCreating(w0, Next(w, acts[0]), i, acts[1..]);
    }
  }

  /** A successful creation records exactly the living children it spawned, whatever the other engines did
      meanwhile and whatever it left behind in creations that failed. */
  lemma CreationRecordsItsChildren(w0: World, i: nat, acts: seq<Act>)
    requires Inv(w0) && Enabled(w0, BeginCreate(i)) && StillCreating(acts)
    ensures var w := Run(Next(w0, BeginCreate(i)), acts);
            && |w.engines| == |w0.engines| && Enabled(w, CreateOk)
            && Next(w, CreateOk).engines[i].childPids == SpawnedSince(w0, w, i) * w.active
  {
    NextKeepsInv(w0, BeginCreate(i));
    RunKeepsCreating(w0, Next(w0, BeginCreate(i)), i, acts);
  }

  // A creation of engine i succeeds.
  predicate Creates(w: World, a: Act, i: nat) {
    a.CreateOk? && w.creating.Some? && w.creating.value.engine == i
  }

  // Along the run engine i is not destroyed, and no creation of it succeeds; some may fail.
  predicate LeavesAlone(w: World, acts: seq<Act>, i: nat)
    decreases |acts|
  {
    acts == [] || (acts[0] != EndDestroy(i) && !Creates(w, acts[0], i) && LeavesAlone(Next(w, acts[0]), acts[1..], i))
  }

  // Of these pids the living ones are recorded.
  ghost predicate Recorded(w: World, i: nat, pids: set<nat>) {
    Inv(w) && i < |w.engines| && pids <= w.used
    && pids * w.active <= w.engines[i].childPids
  }

  lemma {:induction false} RunKeepsRecorded(w: World, i: nat, pids: set<nat>, acts: seq<Act>)
    requires Recorded(w, i, pids) && LeavesAlone(w, acts, i)
    ensures Recorded(Run(w, acts), i, pids)
    decreases |acts|
  {
    if acts != [] {
      NextKeepsInv(w, acts[0]);
      RunKeepsRecorded(Next(w, acts[0]), i, pids, acts[1..]);
    }
  }

  /** So the next destruction of the engine leaves no child of that creation alive, whenever it comes. */
  lemma DestroyKillsItsChildren(w0: World, i: nat, acts: seq<Act>, later: seq<Act>)
    requires Inv(w0) && Enabled(w0, BeginCreate(i)) && StillCreating(acts)
    requires LeavesAlone(Next(Run(Next(w0, BeginCreate(i)), acts), CreateOk), later, i)
    ensures var w := Run(Next(w0, BeginCreate(i)), acts);
            var w' := Run(Next(w, CreateOk), later);
            && |w.engines| == |w0.engines| == |w'.engines|
            && KillAll(Next(w', BeginDestroy(i)), i).active !! SpawnedSince(w0, w, i)
  {
    CreationRecordsItsChildren(w0, i, acts);
    NextKeepsInv(w0, BeginCreate(i));
    var w := Run(Next(w0, BeginCreate(i)), acts);
    RunKeepsInv(Next(w0, BeginCreate(i)), acts);
    NextKeepsInv(w, CreateOk);
    RunKeepsInv(Next(w, CreateOk), later);
    RunKeepsRecorded(Next(w, CreateOk), i, SpawnedSince(w0, w, i), later);
  }

  // Nothing is recorded for engine i and nothing is left for it to kill.
  predicate Cleared(w: World, i: nat) {
    i < |w.engines| && w.engines[i].childPids == {} && w.engines[i].doomed == {}
  }

  predicate NeverCreates(w: World, acts: seq<Act>, i: nat)
    decreases |acts|
  {
    acts == [] || (!Creates(w, acts[0], i) && NeverCreates(Next(w, acts[0]), acts[1..], i))
  }

  /** A destroyed engine kills nobody, however often it is destroyed again, until a creation of it succeeds. */
  lemma {:induction false} DestroyedKillsNothing(w: World, acts: seq<Act>, i: nat, pid: nat)
    requires Cleared(w, i) && NeverCreates(w, acts, i)
    ensures Cleared(Run(w, acts), i) && !Enabled(Run(w, acts), Kill(i, pid))
    decreases |acts|
  {
    if acts != [] {
      DestroyedKillsNothing(Next(w, acts[0]), acts[1..], i, pid);
    }
  }

  lemma DestructionClears(w: World, acts: seq<Act>, i: nat, pid: nat)
    requires i < |w.engines| && NeverCreates(Next(w, EndDestroy(i)), acts, i)
    ensures !Enabled(Run(Next(w, EndDestroy(i)), acts), Kill(i, pid))
  {
    DestroyedKillsNothing(Next(w, EndDestroy(i)), acts, i, pid);
  }
}
