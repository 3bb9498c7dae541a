/** The queue as the service holds it: mutable `Simulation` objects in a table, with one method
    for what each of its functions does under the lock (public_api/simulate.py:468-704). Every
    method is proved to be the step of that name in SimQueue and to keep its invariant. */
module SimService {
  import opened Common
  import opened SimQueue

  class Simulation {
    const id: Id
    const createdAt: int
    var status: Status
    var startedAt: Option<int>
    var finishedAt: Option<int>
    var process: bool
    var runId: Option<string>

    constructor (id: Id, v: Sim)
      ensures this.id == id && Value() == v
    {
      this.id, createdAt, status := id, v.createdAt, v.status;
      startedAt, finishedAt, process, runId := v.startedAt, v.finishedAt, v.holdsProcess, v.runId;
    }

    /** Running, with its process if there is one, and else failed. */
    method Start(now: int, spawned: bool)
      modifies this
      ensures Value() == old(Value()).(startedAt := Some(now),
        status := if spawned then Running else Failed,
        holdsProcess := if spawned then true else old(process),
        finishedAt := if spawned then old(finishedAt) else Some(now))
    {
      status, startedAt := Running, Some(now);
      if spawned {
        process := true;
      } else {
        status, finishedAt := Failed, Some(now);
      }
    }

    function Value(): Sim
      reads this
    {
      Sim(status, createdAt, startedAt, finishedAt, process, runId)
    }
  }

  function Ids(workers: seq<Option<Simulation>>): (ids: seq<Option<Id>>)
    ensures |ids| == |workers|
    ensures forall w :: 0 <= w < |workers| ==>
      ids[w] == if workers[w].Some? then Some(workers[w].value.id) else None
  {
    seq(|workers|, w requires 0 <= w < |workers| => if workers[w].Some? then Some(workers[w].value.id) else None)
  }

  ghost function Values(all: map<Id, Simulation>): map<Id, Sim>
    reads all.Values
  {
    map id | id in all :: all[id].Value()
  }

  /** One object changed: its entry, and no other, has a new value. */
  lemma OneChanged(before: map<Id, Sim>, all: map<Id, Simulation>, sim: Simulation)
    requires before.Keys == all.Keys && sim.id in all && all[sim.id] == sim
    requires forall x :: x in all && x != sim.id ==> all[x].Value() == before[x]
    ensures Values(all) == before[sim.id := sim.Value()]
  {
  }

  lemma ValueFacts(all: map<Id, Simulation>)
    ensures Values(all).Keys == all.Keys && forall x :: x in all ==> Values(all)[x] == all[x].Value()
  {
  }

  lemma SameGrown(all: map<Id, Simulation>)
    ensures Grown(all, all)
  {
  }

  lemma GrownByOne(all: map<Id, Simulation>, sim: Simulation)
    requires sim.id !in all
    ensures Grown(all, all[sim.id := sim])
  {
  }

  lemma OneMore(before: map<Id, Sim>, all: map<Id, Simulation>, sim: Simulation)
    requires before == Values(all) && sim.id !in all
    ensures Values(all[sim.id := sim]) == before[sim.id := sim.Value()]
  {
  }

  lemma IdsAfter(workers: seq<Option<Simulation>>, w: nat, holds: Option<Simulation>)
    requires w < |workers|
    ensures Ids(workers[w := holds]) == Ids(workers)[w := if holds.Some? then Some(holds.value.id) else None]
  {
  }

  /** Every table entry and every worker's run is the object known by its id. */
  ghost predicate Linked(all: map<Id, Simulation>, sims: map<Id, Simulation>, workers: seq<Option<Simulation>>) {
    && (forall id :: id in sims ==> id in all && all[id] == sims[id])
    && (forall id :: id in all ==> all[id].id == id)
    && (forall w :: 0 <= w < |workers| && workers[w].Some? ==>
         workers[w].value.id in all && all[workers[w].value.id] == workers[w].value)
  }

  lemma LinkedLess(all: map<Id, Simulation>, sims: map<Id, Simulation>, workers: seq<Option<Simulation>>, gone: set<Id>)
    requires Linked(all, sims, workers)
    ensures Linked(all, sims - gone, workers)
  {
  }

  lemma LinkedWorker(all: map<Id, Simulation>, sims: map<Id, Simulation>, workers: seq<Option<Simulation>>,
      w: nat, holds: Option<Simulation>)
    requires Linked(all, sims, workers) && w < |workers|
    requires holds.Some? ==> holds.value.id in all && all[holds.value.id] == holds.value
    ensures Linked(all, sims, workers[w := holds])
  {
  }

  lemma LinkedMore(all: map<Id, Simulation>, sims: map<Id, Simulation>, workers: seq<Option<Simulation>>,
      sim: Simulation)
    requires Linked(all, sims, workers) && sim.id !in all
    ensures Linked(all[sim.id := sim], sims[sim.id := sim], workers)
  {
  }

  lemma LinkedFacts(all: map<Id, Simulation>, sims: map<Id, Simulation>, workers: seq<Option<Simulation>>)
    requires Linked(all, sims, workers)
    ensures sims.Keys <= all.Keys
    ensures forall id :: id in all ==> all[id].id == id
    ensures forall id :: id in sims ==> id in all && all[id] == sims[id]
    ensures forall w :: 0 <= w < |workers| && workers[w].Some? ==>
      workers[w].value.id in all && all[workers[w].value.id] == workers[w].value
  {
  }

  /** `_load` over the record files, each read at its own moment; one without a readable record
      is skipped. */
  ghost function LoadedAll(c: Core, ids: seq<Id>, nows: seq<int>): Core
    requires |ids| == |nows|
  {
    if ids == [] then c
    else
      var before := LoadedAll(c, ids[..|ids|-1], nows[..|ids|-1]);
      var id := ids[|ids|-1];
      if HasRecord(before.disk, id) then Loaded(before, id, nows[|ids|-1]) else before
  }

  ghost predicate Grown(was: map<Id, Simulation>, all: map<Id, Simulation>) {
    forall id :: id in was ==> id in all && all[id] == was[id]
  }

  /** How `submit` ends: it raises when the queue is full, and from `save` when the run's
      directory is gone. */
  datatype Submission = Accepted | QueueFull | NoDirectory

  /** A popped or unknown id, and where a queued run stands. */
  datatype Answer = Unknown | Found(status: Status, position: Option<nat>)

  class Simulations {
    const limits: Limits
    var sims: map<Id, Simulation>
    var queue: seq<Id>
    var workers: seq<Option<Simulation>>
    var disk: map<Id, Dir>
    ghost var all: map<Id, Simulation>   // with the objects that have left the table

    ghost function Core(): Core
      reads this, all.Values
    {
      SimQueue.Core(Values(all), sims.Keys, queue, Ids(workers), disk)
    }

    ghost predicate Valid()
      reads this, all.Values
    {
      Linked(all, sims, workers) && CoreInv(limits, Core())
    }

    /** The service comes up over the directories it finds. */
    constructor (limits: Limits, disk: map<Id, Dir>, ids: seq<Id>, nows: seq<int>, now: int, aged: set<Id>)
      requires |ids| == |nows| && Distinct(ids)
      ensures Valid() && fresh(all.Values) && this.limits == limits
      ensures var empty := SimQueue.Core(map[], {}, [], seq(limits.maxRunning, _ => None), disk);
        Core() == Swept(limits, LoadedAll(empty, ids, nows), now, aged)
    {
      hide LoadedAll, Swept;
      this.limits, this.disk := limits, disk;
      sims, queue, all := map[], [], map[];
      workers := seq(limits.maxRunning, _ => None);
      new;
      assert Core() == SimQueue.Core(map[], {}, [], seq(limits.maxRunning, _ => None), disk);
      assert Valid();
      hide CoreInv, Linked, Values, Ids;
      Load(ids, nows);
      Prune(now, aged);
    }

    /** `submit`: a prune first, then the queue, under the lock. */
    method Submit(id: Id, now: int, prunedAt: int, aged: set<Id>) returns (outcome: Submission)
      requires Valid() && id !in all
      modifies this
      ensures Valid() && Grown(old(all), all) && (forall x :: x in all && x !in old(all) ==> fresh(all[x]))
      ensures var swept := Swept(limits, old(Core()), prunedAt, aged);
        && (outcome == QueueFull <==> IsFull(limits, swept))
        && (outcome == NoDirectory <==> !IsFull(limits, swept) && id !in swept.disk)
        && Core() == if outcome == Accepted then Submitted(limits, swept, id, now) else swept
    {
      hide Swept, Values, Ids, Linked, Grown, CoreInv, QueueInv, WorkersInv, StatusInv, DiskInv;
      SameGrown(all);
      Prune(prunedAt, aged);
      if |queue| >= limits.maxQueued {
        return QueueFull;
      }
      if id !in disk {
        return NoDirectory;
      }
      Enqueue(id, now);
      return Accepted;
    }

    /** `submit` once it has the lock and room. */
    method Enqueue(id: Id, now: int)
      requires Valid() && id !in all && id in disk && |queue| < limits.maxQueued
      modifies this
      ensures Valid() && Grown(old(all), all) && (forall x :: x in all && x !in old(all) ==> fresh(all[x]))
      ensures Core() == Submitted(limits, old(Core()), id, now)
    {
      hide Values, Ids, Linked, Grown, CoreInv, QueueInv, WorkersInv, StatusInv, DiskInv;
      LinkedFacts(all, sims, workers);
      ValueFacts(all);
      ghost var before := Core();
      SubmittedKeeps(limits, before, id, now);
      var sim := new Simulation(id, NewSim(now));
      disk := Saved(disk, id, sim.Value());
      LinkedMore(all, sims, workers, sim);
      OneMore(before.sims, all, sim);
      GrownByOne(all, sim);
      sims, all := sims[id := sim], all[id := sim];
      queue := queue + [id];
      assert sims.Keys == before.table + {id};
      assert Core() == Submitted(limits, before, id, now);
    }

    /** `get`, undisturbed: what it reads under the lock, then what the Analyzer answers, saved
        when it names a run. What others may move meanwhile is in `SimRuns.AnswerAgreesExactlyWhen`. */
    method Get(id: Id, found: Option<string>) returns (answer: Answer)
      requires Valid()
      modifies this`disk, all.Values
      ensures Valid() && all == old(all)
      ensures answer.Unknown? <==> id !in old(sims)
      ensures answer.Found? ==>
        && answer.status == old(Core()).sims[id].status
        && (answer.position.Some? <==> answer.status == Queued)
        && (answer.position.Some? ==> answer.position.value < |queue| && queue[answer.position.value] == id)
      ensures Core() ==
        if !(answer.Found? && answer.status == Done && old(Core()).sims[id].runId.None?) then old(Core())
        else if Truthy(found) then RunIdSaved(old(Core()), id, found.value)
        else RunIdSet(old(Core()), id, found)
    {
      hide Values, Ids, Linked, CoreInv, QueueInv, WorkersInv, StatusInv, DiskInv;
      LinkedFacts(all, sims, workers);
      ValueFacts(all);
      ghost var before := Core();
      if id !in sims {
        return Unknown;
      }
      var sim := sims[id];
      assert before.sims[id] == sim.Value();
      var status := sim.status;
      var position := None;
      LookupsSucceed(limits, before);
      if status == Queued {
        var at := IndexOf(queue, id);
        position := Some(at);
      }
      if status == Done && sim.runId.None? {
        sim.runId := found;
        if Truthy(found) {
          RunIdSavedKeeps(limits, before, id, found.value);
          disk := Saved(disk, id, sim.Value());
        } else {
          RunIdSetKeeps(limits, before, id, found);
        }
        OneChanged(before.sims, all, sim);
      } else {
        assert Core() == before;
      }
      return Found(status, position);
    }

    /** `delete` under the lock; what it returns is the process to kill, if any. */
    method Delete(id: Id) returns (removed: Option<bool>)
      requires Valid()
      modifies this, all.Values
      ensures Valid() && all == old(all)
      ensures removed.None? <==> id !in old(sims)
      ensures removed.Some? ==>
        Core() == Deleted(old(Core()), id) && removed.value == old(Core()).sims[id].holdsProcess
      ensures removed.None? ==> Core() == old(Core())
    {
      hide Values, Ids, Linked, CoreInv, QueueInv, WorkersInv, StatusInv, DiskInv;
      LinkedFacts(all, sims, workers);
      ValueFacts(all);
      ghost var before := Core();
      if id !in sims {
        return None;
      }
      DeletedKeeps(limits, before, id);
      var sim := sims[id];
      assert before.sims[id] == sim.Value();
      LinkedLess(all, sims, workers, {id});
      sims := sims - {id};
      if id in queue {
        queue := Without(queue, id);
      } else {
        WithoutAbsent(queue, id);
      }
      var process := sim.process;
      if sim.status == Queued || sim.status == Running {
        sim.status := Cancelled;
      }
      OneChanged(before.sims, all, sim);
      assert Values(all) == Deleted(before, id).sims;
      assert sims.Keys == before.table - {id};
      return Some(process);
    }

    /** `_work` under the lock: the head of the queue starts, or fails to. */
    method StartNext(w: nat, now: int, spawned: bool)
      requires Valid() && queue != [] && w < |workers| && workers[w] == None
      modifies this, all.Values
      ensures Valid() && all == old(all)
      ensures Core() == Begun(old(Core()), w, now, spawned)
    {
      hide Values, Ids, Linked, CoreInv, QueueInv, WorkersInv, StatusInv, DiskInv;
      LinkedFacts(all, sims, workers);
      ValueFacts(all);
      ghost var before := Core();
      BegunKeeps(limits, before, w, now, spawned);
      LookupsSucceed(limits, before);
      var sim := sims[queue[0]];
      ghost var id := sim.id;
      assert before.sims[id] == sim.Value();
      queue := queue[1..];
      sim.Start(now, spawned);
      if spawned {
        LinkedWorker(all, sims, workers, w, Some(sim));
        IdsAfter(workers, w, Some(sim));
        workers := workers[w := Some(sim)];
      }
      disk := Saved(disk, sim.id, sim.Value());
      assert sim.Value() == Begun(before, w, now, spawned).sims[id];
      OneChanged(before.sims, all, sim);
    }

    /** `_finish` under the lock. */
    method Finish(w: nat, now: int, timedOut: bool, code: Option<int>)
      requires Valid() && w < |workers| && workers[w].Some?
      modifies this, all.Values
      ensures Valid() && all == old(all)
      ensures Core() == Finished(old(Core()), w, now, timedOut, code)
    {
      hide Values, Ids, Linked, CoreInv, QueueInv, WorkersInv, StatusInv, DiskInv;
      LinkedFacts(all, sims, workers);
      ValueFacts(all);
      ghost var before := Core();
      FinishedKeeps(limits, before, w, now, timedOut, code);
      var sim := workers[w].value;
      assert before.sims[sim.id] == sim.Value();
      LinkedWorker(all, sims, workers, w, None);
      IdsAfter(workers, w, None);
      workers := workers[w := None];
      sim.process := false;
      if sim.status == Running {
        sim.finishedAt := Some(now);
        if timedOut {
          sim.status := TimedOut;
        } else if code == Some(0) && sim.id in disk && disk[sim.id].summary {
          sim.status := Done;
        } else {
          sim.status := Failed;
        }
        if sim.id in disk {
          disk := Saved(disk, sim.id, sim.Value());
        }
      }
      OneChanged(before.sims, all, sim);
      assert Values(all) == Finished(before, w, now, timedOut, code).sims;
    }

    /** `prune`: the expired runs leave the table, under the lock; then their directories are
        removed, and those that no run has and that are older than the cutoff. */
    method Prune(now: int, aged: set<Id>)
      requires Valid()
      modifies this`sims, this`disk
      ensures Valid() && Core() == Swept(limits, old(Core()), now, aged)
    {
      hide Values, Ids, Linked, CoreInv, QueueInv, WorkersInv, StatusInv, DiskInv;
      LinkedFacts(all, sims, workers);
      ValueFacts(all);
      ghost var before := Core();
      SweptKeeps(limits, before, now, aged);
      var cutoff := now - limits.keep;
      var expired := set id | id in sims && sims[id].createdAt < cutoff
                              && sims[id].status != Queued && sims[id].status != Running;
      assert expired == ExpiredIds(limits, before, now) by {
        assert forall id :: id in sims ==> before.sims[id] == sims[id].Value();
      }
      LinkedLess(all, sims, workers, expired);
      sims := sims - expired;
      assert sims.Keys == before.table - expired;
      disk := disk - expired;
      disk := disk - (aged - sims.Keys);
      ValueFacts(all);
      assert Values(all) == before.sims;
      assert Core() == Swept(limits, before, now, aged);
    }

    /** One record file of `_load`: an unfinished run failed with the service that ran it. */
    method LoadRecord(id: Id, now: int)
      requires Valid() && id !in all && HasRecord(disk, id)
      modifies this`sims, this`disk, this`all
      ensures Valid() && all.Keys == old(all.Keys) + {id} && Grown(old(all), all) && fresh(all[id])
      ensures Core() == Loaded(old(Core()), id, now)
    {
      hide Saved, RecordOf, Tells, OnDisk, Values, Ids, Linked, Grown, CoreInv, QueueInv, WorkersInv, StatusInv, DiskInv;
      LinkedFacts(all, sims, workers);
      ValueFacts(all);
      ghost var before := Core();
      LoadedKeeps(limits, before, id, now);
      var r := disk[id].record.contents;
      var sim := new Simulation(id, Sim(r.status, r.createdAt, r.startedAt, r.finishedAt, false, r.runId));
      if sim.status == Queued || sim.status == Running {
        sim.status, sim.finishedAt := Failed, Some(now);
        disk := Saved(disk, id, sim.Value());
      }
      assert sim.Value() == Recovered(r, now);
      ghost var loaded := Loaded(before, id, now);
      assert loaded == before.(sims := before.sims[id := sim.Value()], table := before.table + {id}, disk := disk);
      hide Loaded, Recovered;
      LinkedMore(all, sims, workers, sim);
      OneMore(before.sims, all, sim);
      GrownByOne(all, sim);
      sims, all := sims[id := sim], all[id := sim];
      assert sims.Keys == before.table + {id};
      assert Core() == loaded;
    }

    /** `_load`: the runs an earlier service left, in whatever order their files are listed. */
    method Load(ids: seq<Id>, nows: seq<int>)
      requires Valid() && |ids| == |nows| && Distinct(ids)
      requires forall id :: id in ids ==> id !in all
      modifies this`sims, this`disk, this`all
      ensures Valid() && Grown(old(all), all) && (forall x :: x in all && x !in old(all) ==> fresh(all[x]))
      ensures Core() == LoadedAll(old(Core()), ids, nows)
    {
      hide Linked, CoreInv, Values, Ids, Loaded;
      ghost var before := Core();
      for i := 0 to |ids|
        invariant Valid() && Grown(old(all), all) && (forall x :: x in all && x !in old(all) ==> fresh(all[x]))
        invariant forall j :: i <= j < |ids| ==> ids[j] !in all
        invariant Core() == LoadedAll(before, ids[..i], nows[..i])
      {
        ghost var c := Core();
        assert ids[..i + 1][..i] == ids[..i] && nows[..i + 1][..i] == nows[..i];
        if HasRecord(disk, ids[i]) {
          LoadRecord(ids[i], nows[i]);
        }
      }
      assert ids[..|ids|] == ids && nows[..|ids|] == nows;
    }
  }

  method IndexOf(queue: seq<Id>, id: Id) returns (at: nat)
    requires id in queue
    ensures at < |queue| && queue[at] == id && id !in queue[..at]
  {
    at := 0;
    while queue[at] != id
      invariant at < |queue| && id !in queue[..at]
      decreases |queue| - at
    {
      assert queue[..at + 1] == queue[..at] + [queue[at]];
      at := at + 1;
    }
  }
}
