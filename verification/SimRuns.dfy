/** Whole runs of the queue: any interleaving of requests, workers, deletes, prunes, process
    and disk events, crashes and restarts (public_api/simulate.py:531-704). */
module SimRuns {
  import opened Common
  import opened SimQueue

  /** What has happened in the current life of the service. */
  datatype History = History(
    submitted: seq<Id>,
    started: seq<Id>,
    cancelled: set<Id>,    // deleted while still queued
    deleted: set<Id>)

  /** Where a file opened for writing leads: a rename moves it with its file, and a file that is
      unlinked, or replaced, is out of reach. */
  datatype Handle = OnTmp | OnRecord | Nowhere

  /** A `get` of a done run, from the lock to the end of its `save`. */
  datatype Stage =
    | Asked                                       // waits for the Analyzer
    | Found                                       // has set a run id, to be saved
    | Opened(handle: Handle, contents: Record)    // has truncated the `.tmp`, what it will write
    | Written                                     // will replace the record

  datatype Getter = Getter(id: Id, stage: Stage)

  datatype State = State(
    core: Core,
    serving: bool,
    todo: set<Id>,              // while loading: the records not read yet
    removing: map<Id, bool>,    // directories being removed: true once their files are gone
    getters: map<nat, Getter>,
    late: set<Id>,              // runs out of the table whose record a `get` wrote after its files had gone
    procs: map<Id, Proc>,
    used: set<Id>,              // ids ever handed out
    composed: set<Id>,          // directories made in this life whose run is not submitted yet
    summaries: set<Id>,         // runs that ever wrote a summary
    history: History)

  datatype Step =
    | NewDirectory(id: Id)
    | Submit(id: Id, now: int)
    | DeleteRun(id: Id)
    | Begin(worker: nat, now: int, spawned: bool)
    | Finish(worker: nat, now: int, timedOut: bool)
    | GetDone(g: nat, id: Id)
    | SetRunId(g: nat, runId: Option<string>)
    | OpenTmp(g: nat)
    | WriteTmp(g: nat)
    | ReplaceRecord(g: nat)
    | GetterGone(g: nat)
    | Prune(now: int)
    | RemoveFiles(id: Id)
    | RemoveDir(id: Id)
    | RemoveStray(id: Id)
    | ProcessExits(id: Id, code: int)
    | WriteSummary(id: Id)
    | Crash
    | CrashWhileStarting(worker: nat)
    | LoadOne(id: Id, now: int)
    | LoadDone(now: int)

  const NO_HISTORY := History([], [], {}, {})

  function Idle(n: nat): seq<Option<Id>> {
    seq(n, _ => None)
  }

  /** A fresh service over an empty directory. */
  function Initial(p: Limits): State {
    State(Core(map[], {}, [], Idle(p.maxRunning), map[]), true, {}, map[], map[], {}, map[], {}, {}, {}, NO_HISTORY)
  }

  function ExitCode(s: State, id: Id): Option<int> {
    if id in s.procs && s.procs[id].Exited? then Some(s.procs[id].code) else None
  }

  predicate CanBegin(s: State, w: nat) {
    var c := s.core;
    s.serving && w < |c.workers| && c.workers[w] == None && c.queue != [] && c.queue[0] in c.sims
  }

  predicate Getting(s: State, g: nat) {
    s.serving && g in s.getters && s.getters[g].id in s.core.sims
  }

  ghost predicate Enabled(p: Limits, s: State, step: Step) {
    var c := s.core;
    match step
    case NewDirectory(id) => s.serving && id !in s.used && id !in c.disk
    case Submit(id, _) => s.serving && id in s.composed && id in c.disk
    case DeleteRun(id) => s.serving && id in c.table && id in c.sims
    case Begin(w, _, _) => CanBegin(s, w)
    case Finish(w, _, timedOut) =>
      && s.serving && w < |c.workers| && c.workers[w].Some? && c.workers[w].value in c.sims
      && (timedOut || ExitCode(s, c.workers[w].value).Some?)
    case GetDone(g, id) =>
      s.serving && g !in s.getters && id in c.table && id in c.sims && c.sims[id].status == Done && c.sims[id].runId == None
    case SetRunId(g, _) => Getting(s, g) && s.getters[g].stage.Asked?
    case OpenTmp(g) => Getting(s, g) && s.getters[g].stage.Found? && s.getters[g].id in c.disk
    case WriteTmp(g) => Getting(s, g) && s.getters[g].stage.Opened?
    case ReplaceRecord(g) =>
      Getting(s, g) && s.getters[g].stage.Written? && s.getters[g].id in c.disk && c.disk[s.getters[g].id].tmp != Absent
    case GetterGone(g) => g in s.getters
    case Prune(_) => s.serving
    case RemoveFiles(id) => id in s.removing && !s.removing[id]
    case RemoveDir(id) => id in s.removing && s.removing[id]
    case RemoveStray(id) => s.serving && id in c.disk && id !in c.table
    case ProcessExits(id, _) => id in s.procs && s.procs[id] == Alive
    case WriteSummary(id) => id in s.procs && s.procs[id] == Alive && id in c.disk
    case Crash => true
    case CrashWhileStarting(w) => CanBegin(s, w)
    case LoadOne(id, _) => !s.serving && id in s.todo
    case LoadDone(_) => !s.serving && s.todo == {}
  }

  function WithRecord(disk: map<Id, Dir>): set<Id> {
    set id | id in disk && disk[id].record != Absent
  }

  /** Memory is gone; directories and processes stay. */
  function Crashed(p: Limits, s: State): State {
    s.(core := Core(map[], {}, [], Idle(p.maxRunning), s.core.disk), serving := false,
       todo := WithRecord(s.core.disk), removing := map[], getters := map[], late := {}, composed := {},
       history := NO_HISTORY)
  }

  function AddRemovals(removing: map<Id, bool>, ids: set<Id>): map<Id, bool> {
    map id | id in removing.Keys + ids :: if id in removing then removing[id] else false
  }

  const EMPTY_DIR := Dir(Absent, Absent, false)

  function WithoutFiles(disk: map<Id, Dir>, id: Id): map<Id, Dir> {
    if id in disk then disk[id := EMPTY_DIR] else disk
  }

  /** `rmdir` refuses a directory someone wrote into after its files were unlinked. */
  function WithoutEmptyDir(disk: map<Id, Dir>, id: Id): map<Id, Dir> {
    if id in disk && disk[id] == EMPTY_DIR then disk - {id} else disk
  }

  function Rehandled(stage: Stage, unlinked: bool): Stage {
    if !stage.Opened? then stage
    else stage.(handle := if !unlinked && stage.handle == OnTmp then OnRecord else Nowhere)
  }

  /** Open files of a run after its `.tmp` was renamed to its record, or all were unlinked. */
  function Rehandle(getters: map<nat, Getter>, id: Id, unlinked: bool): map<nat, Getter> {
    map g | g in getters ::
      if getters[g].id == id then getters[g].(stage := Rehandled(getters[g].stage, unlinked)) else getters[g]
  }

  /** Written over something else, a file is taken for unreadable. */
  function Over(file: File, contents: Record): File {
    if file.Whole? && file.contents != contents then Torn else Whole(contents)
  }

  function WrittenAt(d: Dir, handle: Handle, contents: Record): Dir {
    match handle
    case OnTmp => d.(tmp := Over(d.tmp, contents))
    case OnRecord => d.(record := Over(d.record, contents))
    case Nowhere => d
  }

  function Staged(s: State, g: nat, stage: Stage): State
    requires g in s.getters
  {
    s.(getters := s.getters[g := s.getters[g].(stage := stage)])
  }

  function WithDir(s: State, id: Id, d: Dir): State {
    s.(core := s.core.(disk := s.core.disk[id := d]))
  }

  /** The files of a run that left the table are still to be unlinked. */
  predicate FilesToGo(s: State, id: Id) {
    id in s.removing && !s.removing[id]
  }

  ghost function Apply(p: Limits, s: State, step: Step): State
    requires Enabled(p, s, step)
  {
    var c, h := s.core, s.history;
    match step
    case NewDirectory(id) =>
      s.(core := c.(disk := c.disk[id := EMPTY_DIR]), used := s.used + {id},
        composed := s.composed + {id})
    case Submit(id, now) =>
      s.(core := Submitted(p, c, id, now), composed := s.composed - {id},
         history := if IsFull(p, c) then h else h.(submitted := h.submitted + [id]))
    case DeleteRun(id) =>
      s.(core := Deleted(c, id), removing := s.removing[id := false],
         history := h.(deleted := h.deleted + {id},
           cancelled := if c.sims[id].status == Queued then h.cancelled + {id} else h.cancelled))
    case Begin(w, now, spawned) =>
      s.(core := Begun(c, w, now, spawned),
         procs := if spawned then s.procs[c.queue[0] := Alive] else s.procs,
         history := h.(started := h.started + [c.queue[0]]))
    case Finish(w, now, timedOut) =>
      s.(core := Finished(c, w, now, timedOut, ExitCode(s, c.workers[w].value)))
    case GetDone(g, id) => s.(getters := s.getters[g := Getter(id, Asked)])
    case SetRunId(g, runId) =>
      var t := s.(core := RunIdSet(c, s.getters[g].id, runId));
      if Truthy(runId) then Staged(t, g, Found) else t.(getters := t.getters - {g})
    case OpenTmp(g) =>
      var id := s.getters[g].id;
      WithDir(Staged(s, g, Opened(OnTmp, RecordOf(c.sims[id]))), id, c.disk[id].(tmp := Torn))
    case WriteTmp(g) =>
      var id, stage := s.getters[g].id, s.getters[g].stage;
      var t := Staged(s, g, Written);
      if id in c.disk then WithDir(t, id, WrittenAt(c.disk[id], stage.handle, stage.contents)) else t
    case ReplaceRecord(g) =>
      var id := s.getters[g].id;
      WithDir(s, id, c.disk[id].(record := c.disk[id].tmp, tmp := Absent))
        .(getters := Rehandle(s.getters - {g}, id, false),
          late := if id !in c.table && !FilesToGo(s, id) then s.late + {id} else s.late)
    case GetterGone(g) => s.(getters := s.getters - {g})
    case Prune(now) =>
      s.(core := Pruned(p, c, now), removing := AddRemovals(s.removing, ExpiredIds(p, c, now)))
    case RemoveFiles(id) =>
      s.(core := c.(disk := WithoutFiles(c.disk, id)), removing := s.removing[id := true],
         getters := Rehandle(s.getters, id, true))
    case RemoveDir(id) =>
      s.(core := c.(disk := WithoutEmptyDir(c.disk, id)), removing := s.removing - {id})
    case RemoveStray(id) => s.(core := c.(disk := c.disk - {id}), getters := Rehandle(s.getters, id, true))
    case ProcessExits(id, code) => s.(procs := s.procs[id := Exited(code)])
    case WriteSummary(id) =>
      s.(core := c.(disk := c.disk[id := c.disk[id].(summary := true)]), summaries := s.summaries + {id})
    case Crash => Crashed(p, s)
    case CrashWhileStarting(w) => Crashed(p, s.(procs := s.procs[c.queue[0] := Alive]))
    case LoadOne(id, now) =>
      s.(core := if HasRecord(c.disk, id) then Loaded(c, id, now) else c, todo := s.todo - {id})
    case LoadDone(now) =>
      s.(core := Pruned(p, c, now), serving := true,
         removing := AddRemovals(s.removing, ExpiredIds(p, c, now)))
  }

  // ---- the inductive invariant ----------------------------------------------------------

  function Minus(ids: seq<Id>, gone: set<Id>): seq<Id> {
    if ids == [] then []
    else Minus(ids[..|ids|-1], gone) + (if ids[|ids|-1] in gone then [] else [ids[|ids|-1]])
  }

  /** Runs leave the queue in submission order, minus those deleted while queued. */
  ghost predicate FifoInv(s: State) {
    var c, h := s.core, s.history;
    && h.started + c.queue == Minus(h.submitted, h.cancelled)
    && Distinct(h.submitted)
    && (forall id :: id in h.submitted ==> id in c.sims)
    && (forall id :: id in h.cancelled ==> id in h.submitted && id !in h.started)
    && (forall id :: id in h.deleted ==> id in c.sims && id !in c.table)
  }

  /** `done` is only ever said, in memory or on disk, of a process that exited 0 and left a
      summary; a queued run has no process yet. */
  ghost predicate EvidenceInv(s: State) {
    && (forall id :: id in s.core.sims && s.core.sims[id].status == Done ==> Succeeded(s, id))
    && (forall id :: id in s.core.disk && SaysDone(s.core.disk[id]) ==> Succeeded(s, id))
    && (forall id :: id in s.core.sims && s.core.sims[id].status == Queued ==> id !in s.procs)
    && (forall id :: id in s.core.disk && s.core.disk[id].summary ==> id in s.summaries)
  }

  predicate SaysDone(d: Dir) {
    d.record.Whole? && d.record.contents.status == Done
  }

  ghost predicate Succeeded(s: State, id: Id) {
    id in s.procs && s.procs[id] == Exited(0) && id in s.summaries
  }

  ghost predicate PhaseInv(s: State) {
    var c := s.core;
    && (s.serving ==> s.todo == {})
    && (!s.serving ==>
         && c.queue == [] && s.removing == map[] && s.getters == map[] && s.late == {} && s.composed == {}
         && s.history == NO_HISTORY && c.table == c.sims.Keys
         && (forall id :: id in c.sims ==> Terminal(c.sims[id].status) && !c.sims[id].holdsProcess))
    && (forall id :: id in s.todo ==> id !in c.sims && id in c.disk)
    && (forall id :: HasRecord(c.disk, id) ==> id in c.sims || id in s.todo)
    && (forall id :: id in s.removing ==> id in c.sims && id !in c.table)
    && (forall id :: id in s.composed ==> id in s.used && id !in c.sims && id !in s.procs)
    && c.sims.Keys <= s.used && c.disk.Keys <= s.used && s.procs.Keys <= s.used
  }

  predicate Saving(stage: Stage) {
    stage.Opened? || stage.Written?
  }

  /** What a `get` on its way relies on: its run is done, and what it writes, and what anyone
      has written where it will rename, tells of it. */
  predicate GetterOk(s: State, getter: Getter) {
    var c, id := s.core, getter.id;
    && id in c.sims && c.sims[id].status == Done
    && (getter.stage.Opened? ==> Tells(getter.stage.contents, c.sims[id]))
    && (Saving(getter.stage) && id in c.disk && c.disk[id].tmp.Whole? ==> Tells(c.disk[id].tmp.contents, c.sims[id]))
    && (getter.stage.Opened? && getter.stage.handle == OnRecord && id in c.disk ==> c.disk[id].record != Absent)
  }

  ghost predicate GettersInv(s: State) {
    forall g :: g in s.getters ==> GetterOk(s, s.getters[g])
  }

  /** A run that left the table has a record only while its files are to be unlinked, or because
      a `get` wrote one after they were. */
  ghost predicate LeftInv(s: State) {
    forall id :: id in s.core.sims && id !in s.core.table && id in s.core.disk && s.core.disk[id].record != Absent ==>
      FilesToGo(s, id) || id in s.late
  }

  ghost predicate Inv(p: Limits, s: State) {
    CoreInv(p, s.core) && FifoInv(s) && EvidenceInv(s) && PhaseInv(s) && GettersInv(s) && LeftInv(s)
  }

  lemma {:induction false} MinusMembers(ids: seq<Id>, gone: set<Id>)
    requires Distinct(ids)
    ensures Distinct(Minus(ids, gone))
    ensures forall id :: id in Minus(ids, gone) <==> id in ids && id !in gone
  {
    if ids != [] {
      MinusMembers(ids[..|ids|-1], gone);
      assert ids == ids[..|ids|-1] + [ids[|ids|-1]];
    }
  }

  lemma {:induction false} MinusMore(ids: seq<Id>, gone: set<Id>, x: Id)
    requires Distinct(ids)
    ensures Minus(ids, gone + {x}) == Without(Minus(ids, gone), x)
  {
    if ids != [] {
      var init, last := ids[..|ids|-1], ids[|ids|-1];
      MinusMore(init, gone, x);
      MinusMembers(init, gone);
      if last in gone {
        assert Minus(ids, gone + {x}) == Minus(init, gone + {x});
        assert Minus(ids, gone) == Minus(init, gone);
      } else {
        WithoutSnoc(Minus(init, gone), last, x);
        if last == x {
          WithoutAbsent(Minus(init, gone), x);
        }
      }
    }
  }

  lemma {:induction false} WithoutSnoc(q: seq<Id>, last: Id, x: Id)
    requires last !in q
    ensures Without(q + [last], x) == if last == x then q else Without(q, x) + [last]
  {
    if q == [] {
      assert q + [last] == [last];
      assert [last][1..] == [];
    } else {
      assert (q + [last])[0] == q[0] && (q + [last])[1..] == q[1..] + [last];
      WithoutSnoc(q[1..], last, x);
    }
  }

  lemma {:induction false} WithoutBehind(a: seq<Id>, q: seq<Id>, x: Id)
    requires x !in a
    ensures Without(a + q, x) == a + Without(q, x)
  {
    if a == [] {
      assert a + q == q && a + Without(q, x) == Without(q, x);
    } else {
      assert (a + q)[0] == a[0] && (a + q)[1..] == a[1..] + q;
      WithoutBehind(a[1..], q, x);
    }
  }

  /** The core invariant over every step. */
  lemma StepKeepsCore(p: Limits, s: State, step: Step)
    requires Inv(p, s) && Enabled(p, s, step)
    ensures CoreInv(p, Apply(p, s, step).core)
  {
    hide FifoInv, EvidenceInv, LeftInv;
    var c := s.core;
    match step
    case Submit(id, now) => SubmittedKeeps(p, c, id, now);
    case DeleteRun(id) => DeletedKeeps(p, c, id);
    case Begin(w, now, spawned) => BegunKeeps(p, c, w, now, spawned);
    case Finish(w, now, timedOut) =>
      FinishedKeeps(p, c, w, now, timedOut, ExitCode(s, c.workers[w].value));
    case Prune(now) => PrunedKeeps(p, c, now);
    case LoadDone(now) => PrunedKeeps(p, c, now);
    case LoadOne(id, now) =>
      if HasRecord(c.disk, id) {
        LoadedKeeps(p, c, id, now);
      }
    case Crash => EmptyCore(p, c.disk);
    case CrashWhileStarting(_) => EmptyCore(p, c.disk);
    case NewDirectory(_) => DirectoriesKeepCore(p, s, step);
    case RemoveFiles(_) => DirectoriesKeepCore(p, s, step);
    case RemoveDir(_) => DirectoriesKeepCore(p, s, step);
    case RemoveStray(_) => DirectoriesKeepCore(p, s, step);
    case WriteSummary(_) => DirectoriesKeepCore(p, s, step);
    case SetRunId(g, runId) =>
      assert GetterOk(s, s.getters[g]);
      RunIdSetKeeps(p, c, s.getters[g].id, runId);
    case OpenTmp(_) => SaveKeepsCore(p, s, step);
    case WriteTmp(_) => SaveKeepsCore(p, s, step);
    case ReplaceRecord(_) => SaveKeepsCore(p, s, step);
    case GetDone(_, _) =>
    case GetterGone(_) =>
    case ProcessExits(_, _) =>
  }

  lemma DirectoriesKeepCore(p: Limits, s: State, step: Step)
    requires CoreInv(p, s.core) && PhaseInv(s) && Enabled(p, s, step) && TouchesDisk(step)
    ensures CoreInv(p, Apply(p, s, step).core)
  {
    hide WorkersInv, StatusInv;
    DiskMoves(p, s.core, Apply(p, s, step).core.disk);
  }

  predicate TouchesFiles(step: Step) {
    step.OpenTmp? || step.WriteTmp? || step.ReplaceRecord?
  }

  /** The record of the getter's run afterwards: as it was, or what a getter may put there. */
  lemma SaveKeepsCore(p: Limits, s: State, step: Step)
    requires CoreInv(p, s.core) && GettersInv(s) && Enabled(p, s, step) && TouchesFiles(step)
    ensures CoreInv(p, Apply(p, s, step).core)
  {
    hide WorkersInv, StatusInv;
    var c, id := s.core, s.getters[step.g].id;
    assert GetterOk(s, s.getters[step.g]);
    if id in c.disk {
      var d := Apply(p, s, step).core.disk[id];
      assert d.record == c.disk[id].record || OnDisk(d.record, c.sims[id]);
      if d.record == c.disk[id].record {
        DiskMoves(p, c, c.disk[id := d]);
      } else {
        RecordMoves(p, c, id, d);
      }
    }
  }

  lemma EmptyCore(p: Limits, disk: map<Id, Dir>)
    ensures CoreInv(p, Core(map[], {}, [], Idle(p.maxRunning), disk))
  {
  }

  lemma SubmitKeepsFifo(p: Limits, s: State, id: Id, now: int)
    requires FifoInv(s) && PhaseInv(s) && Enabled(p, s, Submit(id, now))
    ensures FifoInv(Apply(p, s, Submit(id, now)))
  {
    var c, h := s.core, s.history;
    if !IsFull(p, c) {
      var grown := h.submitted + [id];
      assert grown[..|grown|-1] == h.submitted && grown[|grown|-1] == id;
      assert id !in h.submitted && id !in h.cancelled;
      assert Minus(grown, h.cancelled) == Minus(h.submitted, h.cancelled) + [id];
      assert h.started + (c.queue + [id]) == (h.started + c.queue) + [id];
    }
  }

  lemma BeginKeepsFifo(p: Limits, s: State, w: nat, now: int, spawned: bool)
    requires FifoInv(s) && Enabled(p, s, Begin(w, now, spawned))
    ensures FifoInv(Apply(p, s, Begin(w, now, spawned)))
  {
    var c, h := s.core, s.history;
    assert c.queue == [c.queue[0]] + c.queue[1..];
    assert (h.started + [c.queue[0]]) + c.queue[1..] == h.started + c.queue;
    BegunWasNotCancelled(s);
  }

  predicate TouchesHistory(step: Step) {
    step.Submit? || step.DeleteRun? || step.Begin?
  }

  lemma RestartKeepsFifo(p: Limits, s: State, step: Step)
    requires PhaseInv(s) && Enabled(p, s, step) && (IsCrash(step) || step.LoadOne? || step.LoadDone?)
    ensures FifoInv(Apply(p, s, step))
  {
    NoHistoryIsFifo(Apply(p, s, step));
  }

  lemma OthersKeepFifo(p: Limits, s: State, step: Step)
    requires FifoInv(s) && Enabled(p, s, step) && !TouchesHistory(step)
    requires !IsCrash(step) && !step.LoadOne? && !step.LoadDone?
    requires step.Finish? ==> CoreInv(p, s.core)
    ensures FifoInv(Apply(p, s, step))
  {
    hide FifoInv, CoreInv;
    HistoryUntouched(s, Apply(p, s, step));
  }

  lemma StepKeepsFifo(p: Limits, s: State, step: Step)
    requires Inv(p, s) && Enabled(p, s, step)
    ensures FifoInv(Apply(p, s, step))
  {
    hide QueueInv, WorkersInv, StatusInv, DiskInv, FifoInv, PhaseInv, EvidenceInv, GettersInv, LeftInv, Enabled, Apply;
    match step
    case Submit(id, now) => SubmitKeepsFifo(p, s, id, now);
    case DeleteRun(id) => DeleteKeepsFifo(p, s, id);
    case Begin(w, now, spawned) => BeginKeepsFifo(p, s, w, now, spawned);
    case _ =>
      if IsCrash(step) || step.LoadOne? || step.LoadDone? {
        RestartKeepsFifo(p, s, step);
      } else {
        OthersKeepFifo(p, s, step);
      }
  }

  lemma NoHistoryIsFifo(s: State)
    requires s.history == NO_HISTORY && s.core.queue == []
    ensures FifoInv(s)
  {
  }

  lemma HistoryUntouched(s: State, s': State)
    requires FifoInv(s) && s'.history == s.history && s'.core.queue == s.core.queue
    requires s.core.sims.Keys <= s'.core.sims.Keys && s'.core.table <= s.core.table
    ensures FifoInv(s')
  {
  }

  lemma BegunWasNotCancelled(s: State)
    requires FifoInv(s) && s.core.queue != []
    ensures s.core.queue[0] !in s.history.cancelled
  {
    var h := s.history;
    MinusMembers(h.submitted, h.cancelled);
    assert s.core.queue[0] in h.started + s.core.queue;
  }

  lemma DeleteKeepsFifo(p: Limits, s: State, id: Id)
    requires QueueInv(p, s.core) && FifoInv(s) && Enabled(p, s, DeleteRun(id))
    ensures FifoInv(Apply(p, s, DeleteRun(id)))
  {
    var c, h, s' := s.core, s.history, Apply(p, s, DeleteRun(id));
    if c.sims[id].status == Queued {
      assert id in c.queue;
      MinusMore(h.submitted, h.cancelled, id);
      MinusMembers(h.submitted, h.cancelled);
      assert id in h.started + c.queue;
      assert Distinct(h.started + c.queue);
      StartedIsDisjoint(h.started, c.queue, id);
      WithoutBehind(h.started, c.queue, id);
    } else {
      assert id !in c.queue;
      WithoutAbsent(c.queue, id);
    }
  }

  lemma StartedIsDisjoint(a: seq<Id>, q: seq<Id>, id: Id)
    requires Distinct(a + q) && id in q
    ensures id !in a
  {
    var k :| 0 <= k < |q| && q[k] == id;
    assert (a + q)[|a| + k] == id;
    assert forall i :: 0 <= i < |a| ==> (a + q)[i] == a[i];
  }

  lemma HeadHasNoProcess(p: Limits, s: State)
    requires Inv(p, s)
    ensures HeadIsReady(s)
  {
    if s.core.queue != [] {
      assert s.core.queue[0] in s.core.queue;
    }
  }

  predicate TouchesQueue(step: Step) {
    step.DeleteRun? || step.Submit?
  }

  predicate TouchesWorkers(step: Step) {
    step.Begin? || step.Finish?
  }

  predicate TouchesDisk(step: Step) {
    step.NewDirectory? || step.RemoveFiles? || step.RemoveDir? || step.RemoveStray? || step.WriteSummary?
  }

  predicate TouchesThreads(step: Step) {
    step.GetDone? || step.SetRunId? || step.GetterGone? || step.Prune? || step.ProcessExits?
  }

  predicate HeadIsReady(s: State) {
    s.core.queue != [] ==>
      && s.core.queue[0] in s.core.sims && s.core.sims[s.core.queue[0]].status == Queued
      && s.core.queue[0] !in s.procs && s.core.queue[0] in s.used
  }

  lemma QueueStepsKeepEvidence(p: Limits, s: State, step: Step)
    requires EvidenceInv(s) && PhaseInv(s) && Enabled(p, s, step) && TouchesQueue(step)
    ensures EvidenceInv(Apply(p, s, step))
  {
  }

  lemma BeginStepsKeepEvidence(p: Limits, s: State, step: Step)
    requires EvidenceInv(s) && HeadIsReady(s) && Enabled(p, s, step) && step.Begin?
    ensures EvidenceInv(Apply(p, s, step))
  {
  }

  lemma FinishStepsKeepEvidence(p: Limits, s: State, step: Step)
    requires EvidenceInv(s) && Enabled(p, s, step) && step.Finish?
    ensures EvidenceInv(Apply(p, s, step))
  {
  }

  lemma DiskStepsKeepEvidence(p: Limits, s: State, step: Step)
    requires EvidenceInv(s) && Enabled(p, s, step) && TouchesDisk(step)
    ensures EvidenceInv(Apply(p, s, step))
  {
  }

  lemma ThreadStepsKeepEvidence(p: Limits, s: State, step: Step)
    requires EvidenceInv(s) && Enabled(p, s, step) && TouchesThreads(step)
    ensures EvidenceInv(Apply(p, s, step))
  {
  }

  lemma FileStepsKeepEvidence(p: Limits, s: State, step: Step)
    requires EvidenceInv(s) && GettersInv(s) && Enabled(p, s, step) && TouchesFiles(step)
    ensures EvidenceInv(Apply(p, s, step))
  {
    assert GetterOk(s, s.getters[step.g]);
  }

  lemma CrashesKeepEvidence(p: Limits, s: State, step: Step)
    requires EvidenceInv(s) && HeadIsReady(s) && Enabled(p, s, step) && IsCrash(step)
    ensures EvidenceInv(Apply(p, s, step))
  {
  }

  lemma LoadsKeepEvidence(p: Limits, s: State, step: Step)
    requires EvidenceInv(s) && Enabled(p, s, step) && (step.LoadOne? || step.LoadDone?)
    ensures EvidenceInv(Apply(p, s, step))
  {
  }

  lemma StepKeepsEvidence(p: Limits, s: State, step: Step)
    requires Inv(p, s) && Enabled(p, s, step)
    ensures EvidenceInv(Apply(p, s, step))
  {
    hide Enabled, Apply, CoreInv, FifoInv, EvidenceInv, PhaseInv, LeftInv, GettersInv, HeadIsReady;
    HeadHasNoProcess(p, s);
    if TouchesQueue(step) {
      QueueStepsKeepEvidence(p, s, step);
    } else if step.Begin? {
      BeginStepsKeepEvidence(p, s, step);
    } else if step.Finish? {
      FinishStepsKeepEvidence(p, s, step);
    } else if TouchesDisk(step) {
      DiskStepsKeepEvidence(p, s, step);
    } else if TouchesThreads(step) {
      ThreadStepsKeepEvidence(p, s, step);
    } else if TouchesFiles(step) {
      FileStepsKeepEvidence(p, s, step);
    } else if IsCrash(step) {
      CrashesKeepEvidence(p, s, step);
    } else {
      LoadsKeepEvidence(p, s, step);
    }
  }

  lemma QueueStepsKeepPhase(p: Limits, s: State, step: Step)
    requires PhaseInv(s) && Enabled(p, s, step) && TouchesQueue(step)
    ensures PhaseInv(Apply(p, s, step))
  {
  }

  lemma WorkerStepsKeepPhase(p: Limits, s: State, step: Step)
    requires PhaseInv(s) && HeadIsReady(s) && Enabled(p, s, step) && TouchesWorkers(step)
    ensures PhaseInv(Apply(p, s, step))
  {
  }

  lemma RemovalsKeepPhase(p: Limits, s: State, step: Step)
    requires PhaseInv(s) && Enabled(p, s, step) && (step.RemoveFiles? || step.RemoveDir? || step.RemoveStray?)
    ensures PhaseInv(Apply(p, s, step))
  {
  }

  lemma MakingsKeepPhase(p: Limits, s: State, step: Step)
    requires PhaseInv(s) && Enabled(p, s, step) && (step.NewDirectory? || step.WriteSummary?)
    ensures PhaseInv(Apply(p, s, step))
  {
  }

  lemma ThreadStepsKeepPhase(p: Limits, s: State, step: Step)
    requires PhaseInv(s) && Enabled(p, s, step) && TouchesThreads(step)
    ensures PhaseInv(Apply(p, s, step))
  {
  }

  lemma FileStepsKeepPhase(p: Limits, s: State, step: Step)
    requires PhaseInv(s) && GettersInv(s) && Enabled(p, s, step) && TouchesFiles(step)
    ensures PhaseInv(Apply(p, s, step))
  {
    assert GetterOk(s, s.getters[step.g]);
  }

  lemma CrashesKeepPhase(p: Limits, s: State, step: Step)
    requires PhaseInv(s) && HeadIsReady(s) && Enabled(p, s, step) && IsCrash(step)
    ensures PhaseInv(Apply(p, s, step))
  {
  }

  lemma LoadsKeepPhase(p: Limits, s: State, step: Step)
    requires PhaseInv(s) && Enabled(p, s, step) && (step.LoadOne? || step.LoadDone?)
    ensures PhaseInv(Apply(p, s, step))
  {
  }

  lemma StepKeepsPhase(p: Limits, s: State, step: Step)
    requires Inv(p, s) && Enabled(p, s, step)
    ensures PhaseInv(Apply(p, s, step))
  {
    hide Enabled, Apply, CoreInv, FifoInv, EvidenceInv, PhaseInv, LeftInv, GettersInv, HeadIsReady;
    HeadHasNoProcess(p, s);
    if TouchesQueue(step) {
      QueueStepsKeepPhase(p, s, step);
    } else if TouchesWorkers(step) {
      WorkerStepsKeepPhase(p, s, step);
    } else if step.NewDirectory? || step.WriteSummary? {
      MakingsKeepPhase(p, s, step);
    } else if TouchesDisk(step) {
      RemovalsKeepPhase(p, s, step);
    } else if TouchesThreads(step) {
      ThreadStepsKeepPhase(p, s, step);
    } else if TouchesFiles(step) {
      FileStepsKeepPhase(p, s, step);
    } else if IsCrash(step) {
      CrashesKeepPhase(p, s, step);
    } else {
      LoadsKeepPhase(p, s, step);
    }
  }

  // ---- getters and the files they write ----------------------------------------------------------

  lemma OpenKeepsGetters(p: Limits, s: State, step: Step)
    requires GettersInv(s) && Enabled(p, s, step) && step.OpenTmp?
    ensures GettersInv(Apply(p, s, step))
  {
    var t := Apply(p, s, step);
    forall g | g in t.getters ensures GetterOk(t, t.getters[g]) {
      assert GetterOk(s, s.getters[g]);
    }
  }

  lemma WriteKeepsGetters(p: Limits, s: State, step: Step)
    requires GettersInv(s) && Enabled(p, s, step) && step.WriteTmp?
    ensures GettersInv(Apply(p, s, step))
  {
    var t := Apply(p, s, step);
    assert GetterOk(s, s.getters[step.g]);
    forall g | g in t.getters ensures GetterOk(t, t.getters[g]) {
      assert GetterOk(s, s.getters[g]);
    }
  }

  lemma ReplaceKeepsGetters(p: Limits, s: State, step: Step)
    requires GettersInv(s) && Enabled(p, s, step) && step.ReplaceRecord?
    ensures GettersInv(Apply(p, s, step))
  {
    var t := Apply(p, s, step);
    forall g | g in t.getters ensures GetterOk(t, t.getters[g]) {
      assert GetterOk(s, s.getters[g]);
    }
  }

  lemma RemovalKeepsGetters(p: Limits, s: State, step: Step)
    requires GettersInv(s) && Enabled(p, s, step) && (step.RemoveFiles? || step.RemoveDir? || step.RemoveStray?)
    ensures GettersInv(Apply(p, s, step))
  {
    var t := Apply(p, s, step);
    forall g | g in t.getters ensures GetterOk(t, t.getters[g]) {
      assert GetterOk(s, s.getters[g]);
    }
  }

  /** Steps that leave done runs and their directories as they are. */
  lemma DoneUntouched(s: State, t: State)
    requires GettersInv(s) && t.getters == s.getters
    requires forall id :: id in s.core.sims && s.core.sims[id].status == Done ==>
      id in t.core.sims && t.core.sims[id] == s.core.sims[id]
    requires forall id :: id in s.core.sims && s.core.sims[id].status == Done && id in t.core.disk ==>
      && id in s.core.disk
      && t.core.disk[id].tmp == s.core.disk[id].tmp && t.core.disk[id].record == s.core.disk[id].record
    ensures GettersInv(t)
  {
    forall g | g in t.getters ensures GetterOk(t, t.getters[g]) {
      assert GetterOk(s, s.getters[g]);
    }
  }

  lemma WorkersKeepGetters(p: Limits, s: State, step: Step)
    requires CoreInv(p, s.core) && GettersInv(s) && Enabled(p, s, step) && TouchesWorkers(step)
    ensures GettersInv(Apply(p, s, step))
  {
    if step.Begin? {
      assert s.core.queue[0] in s.core.queue;
    }
    hide WorkersInv, DiskInv, GettersInv;
    DoneUntouched(s, Apply(p, s, step));
  }

  lemma QueueKeepsGetters(p: Limits, s: State, step: Step)
    requires PhaseInv(s) && GettersInv(s) && Enabled(p, s, step) && (TouchesQueue(step) || step.NewDirectory? || step.WriteSummary?)
    ensures GettersInv(Apply(p, s, step))
  {
    hide GettersInv;
    DoneUntouched(s, Apply(p, s, step));
  }

  lemma CallersKeepGetters(p: Limits, s: State, step: Step)
    requires GettersInv(s) && Enabled(p, s, step)
    requires step.GetDone? || step.SetRunId? || step.GetterGone? || step.Prune? || step.ProcessExits?
    ensures GettersInv(Apply(p, s, step))
  {
    var t := Apply(p, s, step);
    forall g | g in t.getters ensures GetterOk(t, t.getters[g]) {
      assert g in s.getters ==> GetterOk(s, s.getters[g]);
    }
  }

  lemma RestartKeepsGetters(p: Limits, s: State, step: Step)
    requires PhaseInv(s) && Enabled(p, s, step) && (IsCrash(step) || step.LoadOne? || step.LoadDone?)
    ensures GettersInv(Apply(p, s, step))
  {
  }

  lemma StepKeepsGetters(p: Limits, s: State, step: Step)
    requires Inv(p, s) && Enabled(p, s, step)
    ensures GettersInv(Apply(p, s, step))
  {
    hide Enabled, Apply, CoreInv, FifoInv, EvidenceInv, PhaseInv, GettersInv, LeftInv;
    match step
    case OpenTmp(_) => OpenKeepsGetters(p, s, step);
    case WriteTmp(_) => WriteKeepsGetters(p, s, step);
    case ReplaceRecord(_) => ReplaceKeepsGetters(p, s, step);
    case RemoveFiles(_) => RemovalKeepsGetters(p, s, step);
    case RemoveDir(_) => RemovalKeepsGetters(p, s, step);
    case RemoveStray(_) => RemovalKeepsGetters(p, s, step);
    case Begin(_, _, _) => WorkersKeepGetters(p, s, step);
    case Finish(_, _, _) => WorkersKeepGetters(p, s, step);
    case Submit(_, _) => QueueKeepsGetters(p, s, step);
    case DeleteRun(_) => QueueKeepsGetters(p, s, step);
    case NewDirectory(_) => QueueKeepsGetters(p, s, step);
    case WriteSummary(_) => QueueKeepsGetters(p, s, step);
    case Crash => RestartKeepsGetters(p, s, step);
    case CrashWhileStarting(_) => RestartKeepsGetters(p, s, step);
    case LoadOne(_, _) => RestartKeepsGetters(p, s, step);
    case LoadDone(_) => RestartKeepsGetters(p, s, step);
    case _ => CallersKeepGetters(p, s, step);
  }

  lemma LeavingKeepsLeft(p: Limits, s: State, step: Step)
    requires PhaseInv(s) && LeftInv(s) && Enabled(p, s, step)
    requires TouchesQueue(step) || step.Prune? || step.LoadDone? || step.LoadOne?
    ensures LeftInv(Apply(p, s, step))
  {
  }

  lemma WorkersKeepLeft(p: Limits, s: State, step: Step)
    requires CoreInv(p, s.core) && LeftInv(s) && Enabled(p, s, step) && TouchesWorkers(step)
    ensures LeftInv(Apply(p, s, step))
  {
    hide WorkersInv, DiskInv;
    if step.Begin? {
      assert s.core.queue[0] in s.core.queue;
    }
  }

  lemma FilesKeepLeft(p: Limits, s: State, step: Step)
    requires GettersInv(s) && LeftInv(s) && Enabled(p, s, step) && TouchesFiles(step)
    ensures LeftInv(Apply(p, s, step))
  {
    assert GetterOk(s, s.getters[step.g]);
  }

  lemma OthersKeepLeft(p: Limits, s: State, step: Step)
    requires PhaseInv(s) && LeftInv(s) && Enabled(p, s, step) && !TouchesWorkers(step) && !TouchesFiles(step)
    requires !TouchesQueue(step) && !step.Prune? && !step.LoadDone? && !step.LoadOne?
    ensures LeftInv(Apply(p, s, step))
  {
  }

  lemma StepKeepsLeft(p: Limits, s: State, step: Step)
    requires Inv(p, s) && Enabled(p, s, step)
    ensures LeftInv(Apply(p, s, step))
  {
    hide Enabled, Apply, CoreInv, FifoInv, EvidenceInv, PhaseInv, GettersInv, LeftInv;
    if TouchesWorkers(step) {
      WorkersKeepLeft(p, s, step);
    } else if TouchesFiles(step) {
      FilesKeepLeft(p, s, step);
    } else if TouchesQueue(step) || step.Prune? || step.LoadDone? || step.LoadOne? {
      LeavingKeepsLeft(p, s, step);
    } else {
      OthersKeepLeft(p, s, step);
    }
  }

  lemma InitialInv(p: Limits)
    ensures Inv(p, Initial(p))
  {
    EmptyCore(p, map[]);
  }

  lemma StepKeepsInv(p: Limits, s: State, step: Step)
    requires Inv(p, s) && Enabled(p, s, step)
    ensures Inv(p, Apply(p, s, step))
  {
    StepKeepsCore(p, s, step);
    StepKeepsFifo(p, s, step);
    StepKeepsEvidence(p, s, step);
    StepKeepsPhase(p, s, step);
    StepKeepsGetters(p, s, step);
    StepKeepsLeft(p, s, step);
    hide Enabled, Apply, CoreInv, FifoInv, EvidenceInv, PhaseInv, GettersInv, LeftInv;
  }

  // ---- whole runs -----------------------------------------------------------------------

  ghost predicate Executable(p: Limits, s: State, steps: seq<Step>)
    decreases |steps|
  {
    steps == [] || (Enabled(p, s, steps[0]) && Executable(p, Apply(p, s, steps[0]), steps[1..]))
  }

  ghost function After(p: Limits, s: State, steps: seq<Step>): State
    requires Executable(p, s, steps)
    decreases |steps|
  {
    if steps == [] then s else After(p, Apply(p, s, steps[0]), steps[1..])
  }

  lemma {:induction false} RunKeepsInv(p: Limits, s: State, steps: seq<Step>)
    requires Inv(p, s) && Executable(p, s, steps)
    ensures Inv(p, After(p, s, steps))
    decreases |steps|
  {
    hide Inv, Enabled, Apply;
    if steps != [] {
      StepKeepsInv(p, s, steps[0]);
      RunKeepsInv(p, Apply(p, s, steps[0]), steps[1..]);
    }
  }

  /** Safety in every reachable state: the queued ids are distinct and exactly the queued runs
      of the table, at most `max_queued` wait, a run of the table runs iff it holds a process,
      at most `max_running` hold one, runs are started in submission order minus those deleted
      while queued, a deleted run is not in the table, and `done` is said only of a process that
      exited 0 and left a summary. */
  lemma ReachableStatesAreSafe(p: Limits, steps: seq<Step>)
    requires Executable(p, Initial(p), steps)
    ensures var s := After(p, Initial(p), steps);
      var c := s.core;
      && Distinct(c.queue) && |c.queue| <= p.maxQueued
      && (forall id :: id in c.queue <==> id in c.table && id in c.sims && c.sims[id].status == Queued)
      && c.table <= c.sims.Keys
      && (forall id :: id in c.table ==> (c.sims[id].status == Running <==> c.sims[id].holdsProcess))
      && |set id | id in c.sims && c.sims[id].holdsProcess| <= p.maxRunning
      && s.history.started + c.queue == Minus(s.history.submitted, s.history.cancelled)
      && (forall id :: id in s.history.deleted ==> id !in c.table)
      && (forall id :: id in c.sims && c.sims[id].status == Done ==> Succeeded(s, id))
      && (forall id :: id in c.disk && SaysDone(c.disk[id]) ==> Succeeded(s, id))
  {
    InitialInv(p);
    RunKeepsInv(p, Initial(p), steps);
    LookupsSucceed(p, After(p, Initial(p), steps).core);
  }

  // ---- a run's status over time ----------------------------------------------------------

  predicate IsCrash(step: Step) {
    step.Crash? || step.CrashWhileStarting?
  }

  /** One step: queued -> running -> terminal, with failure to start and deletion on the way. */
  predicate Forward(before: Status, after: Status) {
    match before
    case Queued => after == Queued || after == Running || after == Failed || after == Cancelled
    case Running => after != Queued
    case _ => after == before
  }

  /** Many steps: never back, and a terminal status is final. */
  predicate NoLater(before: Status, after: Status) {
    match before
    case Queued => true
    case Running => after != Queued
    case _ => after == before
  }

  lemma StatusMovesForward(p: Limits, s: State, step: Step, id: Id)
    requires Inv(p, s) && Enabled(p, s, step) && !IsCrash(step) && id in s.core.sims
    ensures id in Apply(p, s, step).core.sims
    ensures Forward(s.core.sims[id].status, Apply(p, s, step).core.sims[id].status)
  {
    hide CoreInv, EvidenceInv, FifoInv, PhaseInv, GettersInv, LeftInv, HeadIsReady, Enabled, Apply;
    HeadHasNoProcess(p, s);
    if TouchesWorkers(step) {
      WorkersMoveForward(p, s, step, id);
    } else if step.Submit? || step.DeleteRun? || step.SetRunId? || step.LoadOne? {
      TablesMoveForward(p, s, step, id);
    } else {
      OthersMoveForward(p, s, step, id);
    }
  }

  lemma WorkersMoveForward(p: Limits, s: State, step: Step, id: Id)
    requires HeadIsReady(s) && Enabled(p, s, step) && TouchesWorkers(step) && id in s.core.sims
    ensures id in Apply(p, s, step).core.sims
    ensures Forward(s.core.sims[id].status, Apply(p, s, step).core.sims[id].status)
  {
  }

  lemma TablesMoveForward(p: Limits, s: State, step: Step, id: Id)
    requires PhaseInv(s) && Enabled(p, s, step) && (step.Submit? || step.DeleteRun? || step.SetRunId? || step.LoadOne?)
    requires id in s.core.sims
    ensures id in Apply(p, s, step).core.sims
    ensures Forward(s.core.sims[id].status, Apply(p, s, step).core.sims[id].status)
  {
    hide Saved;
  }

  lemma OthersMoveForward(p: Limits, s: State, step: Step, id: Id)
    requires Enabled(p, s, step) && !IsCrash(step) && !TouchesWorkers(step) && id in s.core.sims
    requires !step.Submit? && !step.DeleteRun? && !step.SetRunId? && !step.LoadOne?
    ensures id in Apply(p, s, step).core.sims
    ensures Forward(s.core.sims[id].status, Apply(p, s, step).core.sims[id].status)
  {
    assert Apply(p, s, step).core.sims == s.core.sims;
  }

  ghost predicate CrashFree(steps: seq<Step>) {
    forall step :: step in steps ==> !IsCrash(step)
  }

  /** Over any crash-free run a status only moves forward, so a terminal one never changes. */
  lemma {:induction false} TerminalStatusIsFinal(p: Limits, s: State, steps: seq<Step>, id: Id)
    requires Inv(p, s) && Executable(p, s, steps) && CrashFree(steps) && id in s.core.sims
    ensures id in After(p, s, steps).core.sims
    ensures NoLater(s.core.sims[id].status, After(p, s, steps).core.sims[id].status)
    decreases |steps|
  {
    hide Inv, Enabled, Apply;
    if steps != [] {
      var next := Apply(p, s, steps[0]);
      assert steps[0] in steps;
      StepKeepsInv(p, s, steps[0]);
      StatusMovesForward(p, s, steps[0], id);
      TerminalStatusIsFinal(p, next, steps[1..], id);
    }
  }

  /** Of an answer of `get`, the status is read after the lock has been let go, and whether there
      is a queue position or a summary goes by the status under it. */
  datatype Answer = Answer(status: Status, position: bool, summary: bool)

  function Answered(locked: Status, later: Status): Answer {
    Answer(later, locked == Queued, locked == Done)
  }

  /** Says what it would have said undisturbed. */
  predicate Agrees(a: Answer) {
    (a.position <==> a.status == Queued) && (a.summary <==> a.status == Done)
  }

  /** Whatever happens in between, a summary comes only with `done`; but `done` may come without
      one and a later status with a queue position: the answer agrees with itself exactly when the
      run has not moved, or has failed, been timed out or cancelled while running. */
  lemma AnswerAgreesExactlyWhen(p: Limits, s: State, steps: seq<Step>, id: Id)
    requires Inv(p, s) && Executable(p, s, steps) && CrashFree(steps) && id in s.core.sims
    ensures id in After(p, s, steps).core.sims
    ensures var locked, later := s.core.sims[id].status, After(p, s, steps).core.sims[id].status;
      var a := Answered(locked, later);
      && (a.summary ==> a.status == Done)
      && (Agrees(a) <==> later == locked || (locked == Running && later != Done))
  {
    TerminalStatusIsFinal(p, s, steps, id);
  }

  lemma DeletionIsKept(p: Limits, s: State, step: Step, id: Id)
    requires Enabled(p, s, step) && !IsCrash(step) && id in s.history.deleted
    ensures id in Apply(p, s, step).history.deleted
  {
  }

  /** In a crash-free run a deleted run never appears in the table again. */
  lemma {:induction false} DeletedStaysGone(p: Limits, s: State, steps: seq<Step>, id: Id)
    requires Inv(p, s) && Executable(p, s, steps) && CrashFree(steps) && id in s.history.deleted
    ensures id in After(p, s, steps).history.deleted && id !in After(p, s, steps).core.table
    decreases |steps|
  {
    hide Inv, Enabled, Apply;
    if steps == [] {
      DeletedIsGone(p, s, id);
    } else {
      assert steps[0] in steps;
      StepKeepsInv(p, s, steps[0]);
      DeletionIsKept(p, s, steps[0], id);
      DeletedStaysGone(p, Apply(p, s, steps[0]), steps[1..], id);
    }
  }

  lemma DeletedIsGone(p: Limits, s: State, id: Id)
    requires Inv(p, s) && id in s.history.deleted
    ensures id !in s.core.table
  {
  }


  lemma {:induction false} Extend(p: Limits, s: State, steps: seq<Step>, step: Step)
    requires Executable(p, s, steps) && Enabled(p, After(p, s, steps), step)
    ensures Executable(p, s, steps + [step])
    ensures After(p, s, steps + [step]) == Apply(p, After(p, s, steps), step)
    decreases |steps|
  {
    hide Enabled, Apply;
    if steps == [] {
      assert [] + [step] == [step] && [step][1..] == [];
    } else {
      assert (steps + [step])[0] == steps[0] && (steps + [step])[1..] == steps[1..] + [step];
      Extend(p, Apply(p, s, steps[0]), steps[1..], step);
    }
  }
}
