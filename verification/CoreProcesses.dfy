/** The engines' records of their core subprocesses, and the table of children they share, changed in
    place. */
module CoreProcessesObject {
  import opened Wrappers
  import opened Subprocess

  // What a VLLMEngine knows of its subprocesses.
  class Core {
    var childPids: set<nat>
    var doomed: set<nat>             // the local child_pids of a running _destroy_engine
    ghost var spawned: set<nat>

    ghost function Model(): Procs
      reads this
    {
      Procs(childPids, doomed, spawned)
    }

    constructor ()
      ensures Model() == Procs({}, {}, {})
    {
      childPids, doomed, spawned := {}, {}, {};
    }
  }

  // The parent process: its children, and who holds the class-wide creation lock.
  class Parent {
    const cores: seq<Core>
    var active: set<nat>
    ghost var used: set<nat>
    var creating: Option<Creation>

    ghost predicate Valid() {
      forall i, j :: 0 <= i < j < |cores| ==> cores[i] != cores[j]
    }

    ghost function Model(): World
      reads this, cores
    {
      World(seq(|cores|, i requires 0 <= i < |cores| reads cores => cores[i].Model()), active, used, creating)
    }

    constructor (cores: seq<Core>, active: set<nat>)
      requires forall i, j :: 0 <= i < j < |cores| ==> cores[i] != cores[j]
      requires forall i :: 0 <= i < |cores| ==> cores[i].Model() == Procs({}, {}, {})
      ensures Valid() && this.cores == cores && this.active == active && Init(Model())
    {
      this.cores, this.active, used, creating := cores, active, active, None;
    }

    // _create_engine has the lock and takes its snapshot.
    method BeginCreate(i: nat)
      requires creating.None? && i < |cores|
      modifies this`creating
      ensures Model() == Next(old(Model()), Act.BeginCreate(i))
    {
      creating := Some(Creation(i, active));
    }

    // The construction spawns children.
    method Spawn(pids: set<nat>)
      requires Valid() && creating.Some? && creating.value.engine < |cores| && pids !! used
      modifies this`active, this`used, cores[creating.value.engine]
      ensures Model() == Next(old(Model()), Act.Spawn(pids))
    {
      var core := cores[creating.value.engine];
      core.spawned := core.spawned + pids;
      active, used := active + pids, used + pids;
    }

    // The construction returned: the new children are this engine's.
    method CreateSucceeded()
      requires Valid() && creating.Some? && creating.value.engine < |cores|
      modifies this`creating, cores[creating.value.engine]
      ensures Model() == Next(old(Model()), CreateOk)
    {
      var Creation(i, preExisting) := creating.value;
      cores[i].childPids := active - preExisting;
      creating := None;
    }

    // The construction raised: the lock is released, the record stays.
    method CreateRaised()
      requires creating.Some?
      modifies this`creating
      ensures Model() == Next(old(Model()), CreateFail)
    {
      creating := None;
    }

    // _destroy_engine copies the record.
    method BeginDestroy(i: nat)
      requires Valid() && i < |cores|
      modifies cores[i]
      ensures Model() == Next(old(Model()), Act.BeginDestroy(i))
    {
      cores[i].doomed := cores[i].childPids;
    }

    // It kills every straggler of the copy.
    method KillStragglers(i: nat)
      requires i < |cores|
      modifies this`active
      ensures Model() == KillAll(old(Model()), i)
    {
      var left := cores[i].doomed;
      while left != {}
        invariant left <= cores[i].doomed && active == old(active) - (cores[i].doomed - left)
        decreases left
      {
        var pid :| pid in left;
        if pid in active {
          active := active - {pid};
        }
        left := left - {pid};
      }
    }

    // And clears the record.
    method EndDestroy(i: nat)
      requires Valid() && i < |cores|
      modifies cores[i]
      ensures Model() == Next(old(Model()), Act.EndDestroy(i))
    {
      cores[i].doomed, cores[i].childPids := {}, {};
    }
  }
}
