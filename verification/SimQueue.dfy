/** The simulation queue as a transition system: one step per critical section, per step
    outside the lock, and per move of the processes and the disk
    (public_api/simulate.py:468-704). */
module SimQueue {
  import opened Common

  type Id = string

  datatype Status = Queued | Running | Done | Failed | TimedOut | Cancelled

  predicate Terminal(s: Status) {
    s != Queued && s != Running
  }

  /** A `Simulation` object. */
  datatype Sim = Sim(
    status: Status,
    createdAt: int,
    startedAt: Option<int>,
    finishedAt: Option<int>,
    holdsProcess: bool,
    runId: Option<string>)

  /** What `save` writes. */
  datatype Record = Record(
    status: Status,
    createdAt: int,
    startedAt: Option<int>,
    finishedAt: Option<int>,
    runId: Option<string>)

  /** A file that is not there, that cannot be read back, or that holds a record. */
  datatype File = Absent | Torn | Whole(contents: Record)

  /** A run's record, the `.tmp` file `save` writes before it replaces the record, and whether
      the summary is there. */
  datatype Dir = Dir(record: File, tmp: File, summary: bool)

  datatype Proc = Alive | Exited(code: int)

  datatype Limits = Limits(maxRunning: nat, maxQueued: nat, keep: int)

  /** What the critical sections read and write: every object some thread still reaches, the
      table, the queue, what each worker holds, and the run directories. */
  datatype Core = Core(
    sims: map<Id, Sim>,
    table: set<Id>,
    queue: seq<Id>,
    workers: seq<Option<Id>>,
    disk: map<Id, Dir>)

  function RecordOf(sim: Sim): Record {
    Record(sim.status, sim.createdAt, sim.startedAt, sim.finishedAt, sim.runId)
  }

  predicate HasRecord(disk: map<Id, Dir>, id: Id) {
    id in disk && disk[id].record.Whole?
  }

  /** A `save` nobody else's `save` of the same run disturbs, as under the lock: nothing to write
      into once the directory is gone. */
  function Saved(disk: map<Id, Dir>, id: Id, sim: Sim): map<Id, Dir> {
    if id in disk then disk[id := disk[id].(record := Whole(RecordOf(sim)), tmp := Absent)] else disk
  }

  function Without(queue: seq<Id>, id: Id): seq<Id> {
    if queue == [] then []
    else if queue[0] == id then queue[1..]
    else [queue[0]] + Without(queue[1..], id)
  }

  // ---- critical sections on the core ----------------------------------------------

  predicate IsFull(p: Limits, c: Core) {
    |c.queue| >= p.maxQueued
  }

  function NewSim(now: int): Sim {
    Sim(Queued, now, None, None, false, None)
  }

  function Submitted(p: Limits, c: Core, id: Id, now: int): Core {
    if IsFull(p, c) then c
    else
      var sim := NewSim(now);
      c.(sims := c.sims[id := sim], table := c.table + {id}, queue := c.queue + [id],
         disk := Saved(c.disk, id, sim))
  }

  function Deleted(c: Core, id: Id): Core
    requires id in c.table && id in c.sims
  {
    var sim := c.sims[id];
    c.(table := c.table - {id}, queue := Without(c.queue, id),
       sims := if Terminal(sim.status) then c.sims else c.sims[id := sim.(status := Cancelled)])
  }

  function Begun(c: Core, w: nat, now: int, spawned: bool): Core
    requires w < |c.workers| && c.queue != [] && c.queue[0] in c.sims
  {
    var id := c.queue[0];
    var sim := c.sims[id].(status := if spawned then Running else Failed, startedAt := Some(now),
      finishedAt := if spawned then c.sims[id].finishedAt else Some(now), holdsProcess := spawned);
    c.(queue := c.queue[1..], sims := c.sims[id := sim], disk := Saved(c.disk, id, sim),
       workers := if spawned then c.workers[w := Some(id)] else c.workers)
  }

  function Verdict(c: Core, id: Id, timedOut: bool, code: Option<int>): Status {
    if timedOut then TimedOut
    else if code == Some(0) && id in c.disk && c.disk[id].summary then Done
    else Failed
  }

  function Finished(c: Core, w: nat, now: int, timedOut: bool, code: Option<int>): Core
    requires w < |c.workers| && c.workers[w].Some? && c.workers[w].value in c.sims
  {
    var id := c.workers[w].value;
    var sim := c.sims[id].(holdsProcess := false);
    var freed := c.(workers := c.workers[w := None], sims := c.sims[id := sim]);
    if sim.status != Running then freed
    else
      var ended := sim.(status := Verdict(c, id, timedOut, code), finishedAt := Some(now));
      freed.(sims := c.sims[id := ended], disk := Saved(c.disk, id, ended))
  }

  predicate Expired(p: Limits, sim: Sim, now: int) {
    sim.createdAt < now - p.keep && Terminal(sim.status)
  }

  function ExpiredIds(p: Limits, c: Core, now: int): set<Id> {
    set id | id in c.table && id in c.sims && Expired(p, c.sims[id], now)
  }

  function Pruned(p: Limits, c: Core, now: int): Core {
    c.(table := c.table - ExpiredIds(p, c, now))
  }

  /** A whole `prune`, undisturbed: the expired runs' directories go, and of the others those
      that no run of the table has and that are `aged`, older than the cutoff. */
  function Swept(p: Limits, c: Core, now: int, aged: set<Id>): Core {
    var t := Pruned(p, c, now);
    t.(disk := t.disk - ExpiredIds(p, c, now) - (aged - t.table))
  }

  /** `get` takes what the Analyzer answers, also that it knows no such run, outside the lock. */
  function RunIdSet(c: Core, id: Id, runId: Option<string>): Core
    requires id in c.sims
  {
    c.(sims := c.sims[id := c.sims[id].(runId := runId)])
  }

  /** Only such an answer is saved. */
  predicate Truthy(runId: Option<string>) {
    runId.Some? && runId.value != ""
  }

  /** `get` finds it and saves it, undisturbed. */
  function RunIdSaved(c: Core, id: Id, runId: string): Core
    requires id in c.sims
  {
    var sim := c.sims[id].(runId := Some(runId));
    c.(sims := c.sims[id := sim], disk := Saved(c.disk, id, sim))
  }

  /** A record read back: an unfinished run failed with the service. */
  function Recovered(r: Record, now: int): Sim {
    if Terminal(r.status) then Sim(r.status, r.createdAt, r.startedAt, r.finishedAt, false, r.runId)
    else Sim(Failed, r.createdAt, r.startedAt, Some(now), false, r.runId)
  }

  function Loaded(c: Core, id: Id, now: int): Core
    requires HasRecord(c.disk, id)
  {
    var r := c.disk[id].record.contents;
    var sim := Recovered(r, now);
    c.(sims := c.sims[id := sim], table := c.table + {id},
       disk := if Terminal(r.status) then c.disk else Saved(c.disk, id, sim))
  }

  // ---- what every critical section keeps ---------------------------------------------

  /** Queued ids are distinct and are exactly the queued runs of the table. */
  ghost predicate QueueInv(p: Limits, c: Core) {
    && Distinct(c.queue)
    && |c.queue| <= p.maxQueued
    && c.table <= c.sims.Keys
    && (forall id :: id in c.queue ==> id in c.table && c.sims[id].status == Queued)
    && (forall id :: id in c.table && c.sims[id].status == Queued ==> id in c.queue)
  }

  /** Each process is held by exactly one worker; only running and cancelled runs hold one. */
  ghost predicate WorkersInv(p: Limits, c: Core) {
    && |c.workers| == p.maxRunning
    && (forall w :: 0 <= w < |c.workers| && c.workers[w].Some? ==>
         c.workers[w].value in c.sims && c.sims[c.workers[w].value].holdsProcess)
    && (forall v, w :: 0 <= v < w < |c.workers| && c.workers[v].Some? ==> c.workers[v] != c.workers[w])
    && (forall id :: id in c.sims && c.sims[id].holdsProcess ==> Some(id) in c.workers)
  }

  /** Unfinished runs are in the table; a running one holds its process, and one that was
      cancelled may still hold it once it has left the table. */
  ghost predicate StatusInv(c: Core) {
    && (forall id :: id in c.sims && !Terminal(c.sims[id].status) ==> id in c.table)
    && (forall id :: id in c.sims && c.sims[id].status == Running ==> c.sims[id].holdsProcess)
    && (forall id :: id in c.sims && c.sims[id].holdsProcess ==>
         c.sims[id].status == Running || (c.sims[id].status == Cancelled && id !in c.table))
  }

  /** A record says of a run what memory does, but perhaps for the Analyzer's run id. */
  predicate Tells(r: Record, sim: Sim) {
    r.(runId := sim.runId) == RecordOf(sim)
  }

  /** A run of the table is on disk as it is in memory; only of a done run may the record lack
      the run id, or be unreadable. */
  predicate OnDisk(file: File, sim: Sim) {
    if sim.status == Done then file.Torn? || (file.Whole? && Tells(file.contents, sim))
    else file == Whole(RecordOf(sim))
  }

  /** The table is on disk; any other object's record, if still there, has its status unless it
      was cancelled. */
  ghost predicate DiskInv(c: Core) {
    && (forall id :: id in c.table && id in c.sims ==> id in c.disk && OnDisk(c.disk[id].record, c.sims[id]))
    && (forall id :: id in c.sims && HasRecord(c.disk, id) ==>
         c.disk[id].record.contents.status == c.sims[id].status || c.sims[id].status == Cancelled)
  }

  ghost predicate CoreInv(p: Limits, c: Core) {
    QueueInv(p, c) && WorkersInv(p, c) && StatusInv(c) && DiskInv(c)
  }

  lemma {:induction false} WithoutFacts(q: seq<Id>, id: Id)
    requires Distinct(q)
    ensures Distinct(Without(q, id)) && |Without(q, id)| <= |q|
    ensures forall x :: x in Without(q, id) <==> x in q && x != id
  {
    if q != [] && q[0] != id {
      WithoutFacts(q[1..], id);
      assert q == [q[0]] + q[1..];
      assert q[0] !in q[1..];
      assert q[0] !in Without(q[1..], id);
    }
  }

  lemma {:induction false} WithoutAbsent(q: seq<Id>, id: Id)
    requires id !in q
    ensures Without(q, id) == q
  {
    if q != [] {
      WithoutAbsent(q[1..], id);
    }
  }

  lemma SubmittedKeeps(p: Limits, c: Core, id: Id, now: int)
    requires CoreInv(p, c) && id !in c.sims && id in c.disk
    ensures CoreInv(p, Submitted(p, c, id, now))
  {
    var c' := Submitted(p, c, id, now);
    assert id !in c.queue;
    assert QueueInv(p, c');
    assert WorkersInv(p, c');
    assert StatusInv(c');
    assert DiskInv(c');
  }

  lemma DeletedKeeps(p: Limits, c: Core, id: Id)
    requires CoreInv(p, c) && id in c.table
    ensures CoreInv(p, Deleted(c, id))
  {
    var c' := Deleted(c, id);
    WithoutFacts(c.queue, id);
    assert QueueInv(p, c');
    assert WorkersInv(p, c');
    assert StatusInv(c');
    assert DiskInv(c');
  }

  lemma BegunKeepsHolders(p: Limits, c: Core, w: nat, now: int, spawned: bool)
    requires CoreInv(p, c) && c.queue != [] && w < |c.workers| && c.workers[w] == None
    ensures QueueInv(p, Begun(c, w, now, spawned)) && WorkersInv(p, Begun(c, w, now, spawned))
  {
    hide DiskInv;
    var c', id := Begun(c, w, now, spawned), c.queue[0];
    assert id in c.queue;
    assert QueueInv(p, c') by {
      assert forall x :: x in c'.queue ==> x in c.queue && x != id;
      assert forall x :: x in c.queue && x != id ==> x in c'.queue;
    }
    assert !c.sims[id].holdsProcess;
    assert WorkersInv(p, c') by {
      assert forall x :: Some(x) in c.workers ==> Some(x) in c'.workers by {
        forall x | Some(x) in c.workers ensures Some(x) in c'.workers {
          var v :| 0 <= v < |c.workers| && c.workers[v] == Some(x);
          assert c'.workers[v] == Some(x);
        }
      }
      assert spawned ==> c'.workers[w] == Some(id);
    }
  }

  lemma BegunKeepsRecords(p: Limits, c: Core, w: nat, now: int, spawned: bool)
    requires CoreInv(p, c) && c.queue != [] && w < |c.workers| && c.workers[w] == None
    ensures StatusInv(Begun(c, w, now, spawned)) && DiskInv(Begun(c, w, now, spawned))
  {
    hide WorkersInv;
    assert c.queue[0] in c.queue;
  }

  lemma BegunKeeps(p: Limits, c: Core, w: nat, now: int, spawned: bool)
    requires CoreInv(p, c) && c.queue != [] && w < |c.workers| && c.workers[w] == None
    ensures CoreInv(p, Begun(c, w, now, spawned))
  {
    hide QueueInv, WorkersInv, StatusInv, DiskInv, Begun;
    BegunKeepsHolders(p, c, w, now, spawned);
    BegunKeepsRecords(p, c, w, now, spawned);
  }

  lemma FinishedKeepsHolders(p: Limits, c: Core, w: nat, now: int, timedOut: bool, code: Option<int>)
    requires CoreInv(p, c) && w < |c.workers| && c.workers[w].Some?
    ensures QueueInv(p, Finished(c, w, now, timedOut, code)) && WorkersInv(p, Finished(c, w, now, timedOut, code))
  {
    hide DiskInv;
    var c', id := Finished(c, w, now, timedOut, code), c.workers[w].value;
    assert QueueInv(p, c');
    assert WorkersInv(p, c') by {
      forall x | x in c'.sims && c'.sims[x].holdsProcess ensures Some(x) in c'.workers {
        assert x != id && Some(x) in c.workers;
        var v :| 0 <= v < |c.workers| && c.workers[v] == Some(x);
        assert c'.workers[v] == Some(x);
      }
    }
  }

  lemma FinishedKeepsRecords(p: Limits, c: Core, w: nat, now: int, timedOut: bool, code: Option<int>)
    requires CoreInv(p, c) && w < |c.workers| && c.workers[w].Some?
    ensures StatusInv(Finished(c, w, now, timedOut, code)) && DiskInv(Finished(c, w, now, timedOut, code))
  {
    hide QueueInv;
    assert StatusInv(Finished(c, w, now, timedOut, code));
  }

  lemma FinishedKeeps(p: Limits, c: Core, w: nat, now: int, timedOut: bool, code: Option<int>)
    requires CoreInv(p, c) && w < |c.workers| && c.workers[w].Some?
    ensures CoreInv(p, Finished(c, w, now, timedOut, code))
  {
    assert c.workers[w].value in c.sims;
    hide QueueInv, WorkersInv, StatusInv, DiskInv, Finished;
    FinishedKeepsHolders(p, c, w, now, timedOut, code);
    FinishedKeepsRecords(p, c, w, now, timedOut, code);
  }

  lemma PrunedKeeps(p: Limits, c: Core, now: int)
    requires CoreInv(p, c)
    ensures CoreInv(p, Pruned(p, c, now))
  {
  }

  /** A disk move that spares the records of the table, and adds none, breaks nothing. */
  lemma DiskMoves(p: Limits, c: Core, disk: map<Id, Dir>)
    requires CoreInv(p, c)
    requires forall id :: id in c.table ==> id in disk && disk[id].record == c.disk[id].record
    requires forall id :: HasRecord(disk, id) ==> id in c.disk && disk[id].record == c.disk[id].record
    ensures CoreInv(p, c.(disk := disk))
  {
    var c' := c.(disk := disk);
    assert QueueInv(p, c') && WorkersInv(p, c') && StatusInv(c');
    assert DiskInv(c');
  }

  lemma SweptKeeps(p: Limits, c: Core, now: int, aged: set<Id>)
    requires CoreInv(p, c)
    ensures CoreInv(p, Swept(p, c, now, aged))
  {
    PrunedKeeps(p, c, now);
    hide WorkersInv, StatusInv;
    DiskMoves(p, Pruned(p, c, now), Swept(p, c, now, aged).disk);
  }

  lemma RunIdSavedKeeps(p: Limits, c: Core, id: Id, runId: string)
    requires CoreInv(p, c) && id in c.sims && c.sims[id].status == Done
    ensures CoreInv(p, RunIdSaved(c, id, runId))
  {
    var c' := RunIdSaved(c, id, runId);
    assert QueueInv(p, c');
    assert WorkersInv(p, c');
    assert StatusInv(c');
    assert DiskInv(c');
  }

  lemma RunIdSetKeeps(p: Limits, c: Core, id: Id, runId: Option<string>)
    requires CoreInv(p, c) && id in c.sims && c.sims[id].status == Done
    ensures CoreInv(p, RunIdSet(c, id, runId))
  {
    var c' := RunIdSet(c, id, runId);
    assert QueueInv(p, c');
    assert WorkersInv(p, c');
    assert StatusInv(c');
    assert DiskInv(c');
  }

  /** A done run's record may be rewritten, to tell of it or not to be read again. */
  lemma RecordMoves(p: Limits, c: Core, id: Id, d: Dir)
    requires CoreInv(p, c) && id in c.sims && id in c.disk && c.sims[id].status == Done && OnDisk(d.record, c.sims[id])
    ensures CoreInv(p, c.(disk := c.disk[id := d]))
  {
    var c' := c.(disk := c.disk[id := d]);
    assert QueueInv(p, c') && WorkersInv(p, c') && StatusInv(c');
    assert DiskInv(c');
  }

  lemma LoadedKeepsDisk(c: Core, id: Id, now: int)
    requires DiskInv(c) && id !in c.sims && HasRecord(c.disk, id)
    ensures DiskInv(Loaded(c, id, now))
  {
  }

  lemma LoadedKeeps(p: Limits, c: Core, id: Id, now: int)
    requires CoreInv(p, c) && id !in c.sims && HasRecord(c.disk, id)
    ensures CoreInv(p, Loaded(c, id, now))
  {
    hide DiskInv;
    LoadedKeepsDisk(c, id, now);
    var c' := Loaded(c, id, now);
    assert QueueInv(p, c');
    assert WorkersInv(p, c');
    assert StatusInv(c');
  }

  /** The lookups of `get` and `_work` cannot fail; at most `max_running` runs hold a process. */
  lemma LookupsSucceed(p: Limits, c: Core)
    requires CoreInv(p, c)
    ensures c.queue != [] ==> c.queue[0] in c.table && c.queue[0] in c.sims && c.sims[c.queue[0]].status == Queued
    ensures forall id :: id in c.table && c.sims[id].status == Queued ==> id in c.queue
    ensures forall id :: id in c.table ==> (c.sims[id].status == Running <==> c.sims[id].holdsProcess)
    ensures |set id | id in c.sims && c.sims[id].holdsProcess| <= p.maxRunning
  {
    if c.queue != [] {
      assert c.queue[0] in c.queue;
    }
    var holders := set id | id in c.sims && c.sims[id].holdsProcess;
    HoldersFit(holders, c.workers);
  }

  lemma {:induction false} HoldersFit(holders: set<Id>, workers: seq<Option<Id>>)
    requires forall id :: id in holders ==> Some(id) in workers
    ensures |holders| <= |workers|
    decreases |workers|
  {
    if workers != [] {
      var rest := workers[1..];
      var others := if workers[0].Some? then holders - {workers[0].value} else holders;
      forall id | id in others ensures Some(id) in rest {
        var v :| 0 <= v < |workers| && workers[v] == Some(id);
        assert rest[v - 1] == Some(id);
      }
      HoldersFit(others, rest);
    } else {
      assert holders == {};
    }
  }
}
