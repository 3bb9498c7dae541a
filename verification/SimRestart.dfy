/** What the run directories keep of the queue: durable records, the two ways a `save` outside the
    lock can go wrong, and the restart after a crash (public_api/simulate.py:494-499, 552-596, 618-649). */
module SimRestart {
  import opened Common
  import opened SimQueue
  import opened SimRuns

  // ---- durability --------------------------------------------------------------------------

  /** The run's files are unlinked. */
  predicate Unlinks(step: Step, id: Id) {
    step == RemoveFiles(id) || step == RemoveStray(id)
  }

  /** A `get` renames a file that another `get` of the same run has truncated since it wrote it,
      or writes over one of its own kind that says something else. */
  predicate Tears(s: State, step: Step, id: Id) {
    || (step.ReplaceRecord? && step.g in s.getters && s.getters[step.g].id == id
        && id in s.core.disk && s.core.disk[id].tmp.Torn?)
    || (step.WriteTmp? && step.g in s.getters && s.getters[step.g].id == id && HasRecord(s.core.disk, id)
        && s.getters[step.g].stage.Opened? && s.getters[step.g].stage.handle == OnRecord
        && s.getters[step.g].stage.contents != s.core.disk[id].record.contents)
  }

  predicate SameStatus(disk: map<Id, Dir>, disk': map<Id, Dir>, id: Id) {
    HasRecord(disk, id) && HasRecord(disk', id) && disk'[id].record.contents.status == disk[id].record.contents.status
  }

  lemma WorkersSpareTerminalRecords(p: Limits, s: State, step: Step, id: Id)
    requires CoreInv(p, s.core) && Enabled(p, s, step) && TouchesWorkers(step)
    requires HasRecord(s.core.disk, id) && Terminal(s.core.disk[id].record.contents.status)
    ensures SameStatus(s.core.disk, Apply(p, s, step).core.disk, id)
  {
    hide WorkersInv;
    if step.Begin? {
      assert s.core.queue[0] in s.core.queue;
    }
  }

  lemma GettersSpareTerminalRecords(p: Limits, s: State, step: Step, id: Id)
    requires DiskInv(s.core) && GettersInv(s) && Enabled(p, s, step) && TouchesFiles(step)
    requires HasRecord(s.core.disk, id) && Terminal(s.core.disk[id].record.contents.status)
    ensures if Tears(s, step, id) then !HasRecord(Apply(p, s, step).core.disk, id)
      else SameStatus(s.core.disk, Apply(p, s, step).core.disk, id)
  {
    assert GetterOk(s, s.getters[step.g]);
  }

  lemma OthersSpareTerminalRecords(p: Limits, s: State, step: Step, id: Id)
    requires DiskInv(s.core) && PhaseInv(s) && Enabled(p, s, step) && !TouchesWorkers(step) && !TouchesFiles(step)
    requires HasRecord(s.core.disk, id) && Terminal(s.core.disk[id].record.contents.status)
    ensures if Unlinks(step, id) then !HasRecord(Apply(p, s, step).core.disk, id)
      else SameStatus(s.core.disk, Apply(p, s, step).core.disk, id)
  {
  }

  /** A durable terminal record is lost at a step, a crash or a restart's included, exactly when
      its files are unlinked or two `get`s of the run get in each other's way; nothing else
      touches its status. */
  lemma DurableTerminalKeepsStatus(p: Limits, s: State, step: Step, id: Id)
    requires Inv(p, s) && Enabled(p, s, step)
    requires HasRecord(s.core.disk, id) && Terminal(s.core.disk[id].record.contents.status)
    ensures !HasRecord(Apply(p, s, step).core.disk, id) <==> Unlinks(step, id) || Tears(s, step, id)
    ensures HasRecord(Apply(p, s, step).core.disk, id) ==> SameStatus(s.core.disk, Apply(p, s, step).core.disk, id)
  {
    hide QueueInv, WorkersInv, StatusInv, DiskInv, PhaseInv, EvidenceInv, FifoInv, GettersInv, LeftInv, Enabled, Apply;
    if TouchesWorkers(step) {
      WorkersSpareTerminalRecords(p, s, step, id);
    } else if TouchesFiles(step) {
      GettersSpareTerminalRecords(p, s, step, id);
    } else {
      OthersSpareTerminalRecords(p, s, step, id);
    }
  }

  /** A run leaves the table only by deletion or, when terminal, by age, and never before its
      directory does. */
  lemma OnlyDeletedOrExpiredLeave(p: Limits, s: State, step: Step, id: Id)
    requires Inv(p, s) && Enabled(p, s, step) && !IsCrash(step) && id in s.core.table
    ensures id in Apply(p, s, step).core.disk
    ensures id !in Apply(p, s, step).core.table ==>
      LeavesBy(p, s, step, id) && Apply(p, s, step).core.disk[id] == s.core.disk[id]
  {
    hide Inv;
    TableIsOnDisk(p, s, id);
    if id in Apply(p, s, step).core.table {
      hide Enabled, Apply;
      StepKeepsInv(p, s, step);
      TableIsOnDisk(p, Apply(p, s, step), id);
    } else {
      LeavingIsByRemoval(p, s, step, id);
    }
  }

  lemma LeavingIsByRemoval(p: Limits, s: State, step: Step, id: Id)
    requires Enabled(p, s, step) && !IsCrash(step) && id in s.core.sims && id in s.core.table
    requires id !in Apply(p, s, step).core.table
    ensures Apply(p, s, step).core.disk == s.core.disk && LeavesBy(p, s, step, id)
  {
    assert step.DeleteRun? || step.Prune? || step.LoadDone?;
  }

  predicate LeavesBy(p: Limits, s: State, step: Step, id: Id) {
    step == DeleteRun(id)
    || (step.Prune? && id in s.core.sims && Expired(p, s.core.sims[id], step.now))
    || (step.LoadDone? && id in s.core.sims && Expired(p, s.core.sims[id], step.now))
  }

  lemma TableIsOnDisk(p: Limits, s: State, id: Id)
    requires Inv(p, s) && id in s.core.table
    ensures id in s.core.sims && id in s.core.disk
  {
  }

  // ---- runs, step by step ------------------------------------------------------------------------

  ghost predicate Leads(p: Limits, s0: State, steps: seq<Step>, s: State) {
    Executable(p, s0, steps) && After(p, s0, steps) == s
  }

  ghost predicate Reaches(p: Limits, steps: seq<Step>, s: State) {
    Leads(p, Initial(p), steps, s)
  }

  lemma Onward(p: Limits, s0: State, steps: seq<Step>, s: State, step: Step) returns (longer: seq<Step>, s': State)
    requires Leads(p, s0, steps, s) && Enabled(p, s, step)
    ensures Leads(p, s0, longer, s') && s' == Apply(p, s, step) && longer == steps + [step]
  {
    hide Enabled, Apply;
    Extend(p, s0, steps, step);
    longer, s' := steps + [step], Apply(p, s, step);
  }

  // ---- two `get`s of one run ---------------------------------------------------------------------

  /** A `get` opens the `.tmp` of a run that another `get` is saving. */
  predicate Overlaps(s: State, step: Step) {
    step.OpenTmp? && step.g in s.getters &&
    exists h :: h in s.getters && h != step.g && s.getters[h].id == s.getters[step.g].id && Saving(s.getters[h].stage)
  }

  /** Each save is the only one of its run and finds the `.tmp` as it left it. */
  predicate SaverOk(s: State, getter: Getter) {
    var disk, id := s.core.disk, getter.id;
    match getter.stage
    case Opened(OnTmp, _) => id in disk ==> disk[id].tmp.Torn?
    case Opened(OnRecord, _) => false
    case Opened(Nowhere, _) => id in disk ==> disk[id].tmp.Absent?
    case Written => id in disk ==> !disk[id].tmp.Torn?
    case _ => true
  }

  ghost predicate SoloInv(s: State) {
    && (forall g, h :: g in s.getters && h in s.getters && g != h && s.getters[g].id == s.getters[h].id ==>
         !Saving(s.getters[g].stage) || !Saving(s.getters[h].stage))
    && (forall g :: g in s.getters ==> SaverOk(s, s.getters[g]))
    && (forall id :: id in s.core.disk ==> !s.core.disk[id].record.Torn?)
  }

  lemma OpenKeepsSolo(p: Limits, s: State, step: Step)
    requires SoloInv(s) && Enabled(p, s, step) && step.OpenTmp? && !Overlaps(s, step)
    ensures SoloInv(Apply(p, s, step))
  {
    var t := Apply(p, s, step);
    forall g | g in t.getters ensures SaverOk(t, t.getters[g]) {
      assert SaverOk(s, s.getters[g]);
    }
  }

  lemma WriteKeepsSolo(p: Limits, s: State, step: Step)
    requires SoloInv(s) && Enabled(p, s, step) && step.WriteTmp?
    ensures SoloInv(Apply(p, s, step))
  {
    var t := Apply(p, s, step);
    assert SaverOk(s, s.getters[step.g]);
    forall g | g in t.getters ensures SaverOk(t, t.getters[g]) {
      assert SaverOk(s, s.getters[g]);
    }
  }

  lemma ReplaceKeepsSolo(p: Limits, s: State, step: Step)
    requires SoloInv(s) && Enabled(p, s, step) && step.ReplaceRecord?
    ensures SoloInv(Apply(p, s, step))
  {
    var t := Apply(p, s, step);
    assert SaverOk(s, s.getters[step.g]);
    forall g | g in t.getters ensures SaverOk(t, t.getters[g]) {
      assert SaverOk(s, s.getters[g]);
    }
  }

  lemma RemovalKeepsSolo(p: Limits, s: State, step: Step)
    requires SoloInv(s) && Enabled(p, s, step) && (step.RemoveFiles? || step.RemoveDir? || step.RemoveStray?)
    ensures SoloInv(Apply(p, s, step))
  {
    var t := Apply(p, s, step);
    forall g | g in t.getters ensures SaverOk(t, t.getters[g]) {
      assert SaverOk(s, s.getters[g]);
    }
  }

  /** Steps that move no `get` towards its save and no file of a run being saved. */
  lemma SaversUntouched(s: State, t: State)
    requires SoloInv(s)
    requires forall g :: g in t.getters ==> (Saving(t.getters[g].stage) ==> g in s.getters && t.getters[g] == s.getters[g])
    requires forall g :: g in t.getters && Saving(t.getters[g].stage) && t.getters[g].id in t.core.disk ==>
      t.getters[g].id in s.core.disk && t.core.disk[t.getters[g].id].tmp == s.core.disk[t.getters[g].id].tmp
    requires forall id :: id in t.core.disk ==> !t.core.disk[id].record.Torn?
    ensures SoloInv(t)
  {
    forall g | g in t.getters ensures SaverOk(t, t.getters[g]) {
      if Saving(t.getters[g].stage) {
        assert SaverOk(s, s.getters[g]);
      }
    }
  }

  lemma WorkersKeepSolo(p: Limits, s: State, step: Step)
    requires CoreInv(p, s.core) && GettersInv(s) && SoloInv(s) && Enabled(p, s, step) && TouchesWorkers(step)
    ensures SoloInv(Apply(p, s, step))
  {
    if step.Begin? {
      assert s.core.queue[0] in s.core.queue;
    }
    var t := Apply(p, s, step);
    forall g | g in t.getters && Saving(t.getters[g].stage) && t.getters[g].id in t.core.disk
      ensures t.getters[g].id in s.core.disk && t.core.disk[t.getters[g].id].tmp == s.core.disk[t.getters[g].id].tmp
    {
      assert GetterOk(s, s.getters[g]);
    }
    hide WorkersInv, DiskInv;
    SaversUntouched(s, t);
  }

  predicate FillsDisk(step: Step) {
    step.NewDirectory? || step.Submit? || step.LoadOne? || step.WriteSummary?
  }

  lemma FillingKeepsSolo(p: Limits, s: State, step: Step)
    requires PhaseInv(s) && GettersInv(s) && SoloInv(s) && Enabled(p, s, step) && FillsDisk(step)
    ensures SoloInv(Apply(p, s, step))
  {
    var t := Apply(p, s, step);
    assert t.getters == s.getters;
    forall g | g in t.getters && Saving(t.getters[g].stage) && t.getters[g].id in t.core.disk
      ensures t.getters[g].id in s.core.disk && t.core.disk[t.getters[g].id].tmp == s.core.disk[t.getters[g].id].tmp
    {
      assert GetterOk(s, s.getters[g]);
    }
    hide SoloInv, GettersInv;
    assert forall id :: id in t.core.disk && t.core.disk[id].record.Torn? ==> id in s.core.disk && s.core.disk[id].record.Torn?;
    NothingTorn(s);
    SaversUntouched(s, t);
  }

  lemma OthersKeepSolo(p: Limits, s: State, step: Step)
    requires SoloInv(s) && Enabled(p, s, step) && !FillsDisk(step)
    requires !TouchesWorkers(step) && !TouchesFiles(step) && !step.RemoveFiles? && !step.RemoveDir? && !step.RemoveStray?
    ensures SoloInv(Apply(p, s, step))
  {
    var t := Apply(p, s, step);
    assert t.core.disk == s.core.disk;
    NothingTorn(s);
    SaversUntouched(s, t);
  }

  lemma NothingTorn(s: State)
    requires SoloInv(s)
    ensures forall id :: id in s.core.disk ==> !s.core.disk[id].record.Torn?
  {
  }

  lemma StepKeepsSolo(p: Limits, s: State, step: Step)
    requires Inv(p, s) && SoloInv(s) && Enabled(p, s, step) && !Overlaps(s, step)
    ensures SoloInv(Apply(p, s, step))
  {
    hide Enabled, Apply, CoreInv, FifoInv, EvidenceInv, PhaseInv, GettersInv, LeftInv, SoloInv, Overlaps;
    match step
    case OpenTmp(_) => OpenKeepsSolo(p, s, step);
    case WriteTmp(_) => WriteKeepsSolo(p, s, step);
    case ReplaceRecord(_) => ReplaceKeepsSolo(p, s, step);
    case RemoveFiles(_) => RemovalKeepsSolo(p, s, step);
    case RemoveDir(_) => RemovalKeepsSolo(p, s, step);
    case RemoveStray(_) => RemovalKeepsSolo(p, s, step);
    case Begin(_, _, _) => WorkersKeepSolo(p, s, step);
    case Finish(_, _, _) => WorkersKeepSolo(p, s, step);
    case _ =>
      if FillsDisk(step) {
        FillingKeepsSolo(p, s, step);
      } else {
        OthersKeepSolo(p, s, step);
      }
  }

  ghost predicate NobodyOverlaps(p: Limits, s: State, steps: seq<Step>)
    requires Executable(p, s, steps)
    decreases |steps|
  {
    steps == [] || (!Overlaps(s, steps[0]) && NobodyOverlaps(p, Apply(p, s, steps[0]), steps[1..]))
  }

  lemma {:induction false} RunKeepsSolo(p: Limits, s: State, steps: seq<Step>)
    requires Inv(p, s) && SoloInv(s) && Executable(p, s, steps) && NobodyOverlaps(p, s, steps)
    ensures Inv(p, After(p, s, steps)) && SoloInv(After(p, s, steps))
    decreases |steps|
  {
    hide Inv, Enabled, Apply, SoloInv, Overlaps;
    if steps != [] {
      StepKeepsInv(p, s, steps[0]);
      StepKeepsSolo(p, s, steps[0]);
      RunKeepsSolo(p, Apply(p, s, steps[0]), steps[1..]);
    }
  }

  /** As long as no `get` opens the `.tmp` of a run that another is saving, every run of the table
      has, at every moment, a record that can be read back and tells of it. */
  lemma SoloSavesKeepRecords(p: Limits, steps: seq<Step>)
    requires Executable(p, Initial(p), steps) && NobodyOverlaps(p, Initial(p), steps)
    ensures var c := After(p, Initial(p), steps).core;
      forall id :: id in c.table ==> id in c.sims && HasRecord(c.disk, id) && Tells(c.disk[id].record.contents, c.sims[id])
  {
    InitialInv(p);
    RunKeepsSolo(p, Initial(p), steps);
  }

  ghost predicate TearingRun(p: Limits, s: State, id: Id, steps: seq<Step>) {
    Executable(p, s, steps) && id in After(p, s, steps).core.disk && After(p, s, steps).core.disk[id].record.Torn?
  }

  /** From any state that is still sound, a `get` about to open the `.tmp` of a run another is
      saving can leave the record unreadable. */
  lemma OverlapTears(p: Limits, s: State, g: nat, h: nat) returns (steps: seq<Step>)
    requires Inv(p, s) && Enabled(p, s, OpenTmp(g)) && h in s.getters && h != g
    requires s.getters[h].id == s.getters[g].id && Saving(s.getters[h].stage)
    ensures TearingRun(p, s, s.getters[g].id, steps)
  {
    hide CoreInv, FifoInv, EvidenceInv, PhaseInv, LeftInv;
    assert GetterOk(s, s.getters[h]);
    var first := s;
    assert Leads(p, s, [], s);
    steps := [];
    if s.getters[h].stage.Opened? {
      steps, first := Onward(p, s, [], s, WriteTmp(h));
    }
    steps := TearsNow(p, s, steps, first, g, h);
  }

  lemma TearsNow(p: Limits, s0: State, steps0: seq<Step>, s: State, g: nat, h: nat) returns (steps: seq<Step>)
    requires Leads(p, s0, steps0, s)
    requires Enabled(p, s, OpenTmp(g)) && Getting(s, h) && h != g
    requires s.getters[h].id == s.getters[g].id && s.getters[h].stage.Written?
    ensures TearingRun(p, s0, s.getters[g].id, steps)
  {
    var t: State;
    steps, t := Onward(p, s0, steps0, s, OpenTmp(g));
    steps, t := Onward(p, s0, steps, t, ReplaceRecord(h));
  }

  // ---- restart -------------------------------------------------------------------------------

  function RecoveredStatus(status: Status): Status {
    if Terminal(status) then status else Failed
  }

  predicate WhileRestarting(step: Step) {
    step.LoadOne? || IsCrash(step) || step.ProcessExits? || step.WriteSummary?
  }

  /** Loading in progress, possibly after further crashes, relative to the disk the first
      crash left. */
  ghost predicate Restarting(disk0: map<Id, Dir>, s: State) {
    var c := s.core;
    && !s.serving && c.table == c.sims.Keys && disk0.Keys <= c.disk.Keys
    && (forall id :: HasRecord(c.disk, id) <==> HasRecord(disk0, id))
    && (forall id :: HasRecord(disk0, id) ==>
         && c.disk[id].record.contents.createdAt == disk0[id].record.contents.createdAt
         && RecoveredStatus(c.disk[id].record.contents.status) == RecoveredStatus(disk0[id].record.contents.status))
    && (forall id :: id in c.sims ==> HasRecord(disk0, id))
    && (forall id :: id in c.sims ==>
         && c.sims[id].createdAt == disk0[id].record.contents.createdAt
         && c.sims[id].status == RecoveredStatus(disk0[id].record.contents.status))
    && (forall id :: HasRecord(disk0, id) ==> id in c.sims || id in s.todo)
  }

  lemma RestartStep(p: Limits, disk0: map<Id, Dir>, s: State, step: Step)
    requires Inv(p, s) && Enabled(p, s, step) && Restarting(disk0, s) && WhileRestarting(step)
    ensures Restarting(disk0, Apply(p, s, step))
  {
    hide Enabled, Apply, Restarting;
    if IsCrash(step) {
      CrashAgain(p, disk0, s, step);
    } else if step.LoadOne? {
      LoadAgain(p, disk0, s, step);
    } else {
      ProcessesGoOn(p, disk0, s, step);
    }
  }

  lemma LoadAgain(p: Limits, disk0: map<Id, Dir>, s: State, step: Step)
    requires PhaseInv(s) && Enabled(p, s, step) && step.LoadOne? && Restarting(disk0, s)
    ensures Restarting(disk0, Apply(p, s, step))
  {
  }

  lemma ProcessesGoOn(p: Limits, disk0: map<Id, Dir>, s: State, step: Step)
    requires Enabled(p, s, step) && (step.ProcessExits? || step.WriteSummary?) && Restarting(disk0, s)
    ensures Restarting(disk0, Apply(p, s, step))
  {
  }

  lemma CrashAgain(p: Limits, disk0: map<Id, Dir>, s: State, step: Step)
    requires Enabled(p, s, step) && IsCrash(step) && Restarting(disk0, s)
    ensures Restarting(disk0, Apply(p, s, step))
  {
  }

  lemma {:induction false} RestartRun(p: Limits, disk0: map<Id, Dir>, s: State, steps: seq<Step>)
    requires Inv(p, s) && Executable(p, s, steps) && Restarting(disk0, s)
    requires forall step :: step in steps ==> WhileRestarting(step)
    ensures Inv(p, After(p, s, steps)) && Restarting(disk0, After(p, s, steps))
    decreases |steps|
  {
    hide Inv, Enabled, Apply, Restarting;
    if steps != [] {
      assert steps[0] in steps;
      StepKeepsInv(p, s, steps[0]);
      RestartStep(p, disk0, s, steps[0]);
      RestartRun(p, disk0, Apply(p, s, steps[0]), steps[1..]);
    }
  }

  /** A restart: the crash, any number of record reads and further crashes, and the first prune. */
  ghost predicate Restart(p: Limits, s0: State, steps: seq<Step>, now: int) {
    var s1 := Apply(p, s0, Crash);
    && Executable(p, s1, steps) && (forall step :: step in steps ==> WhileRestarting(step))
    && Enabled(p, After(p, s1, steps), LoadDone(now))
  }

  ghost function Restarted(p: Limits, s0: State, steps: seq<Step>, now: int): State
    requires Restart(p, s0, steps, now)
  {
    Apply(p, After(p, Apply(p, s0, Crash), steps), LoadDone(now))
  }

  /** Restarting after a crash at any point: the service comes up with nothing queued or running;
      it shows exactly the runs whose record could be read at the crash and has not expired; an
      unfinished one is failed, a finished one keeps its status; every directory is still there,
      also that of a run whose record could not be read. */
  lemma RestartRecovers(p: Limits, s0: State, steps: seq<Step>, now: int)
    requires Inv(p, s0) && Restart(p, s0, steps, now)
    ensures var disk0, t := s0.core.disk, Restarted(p, s0, steps, now);
      && Inv(p, t) && t.serving && t.core.queue == [] && disk0.Keys <= t.core.disk.Keys
      && (forall id :: id in t.core.table <==>
            HasRecord(disk0, id) && disk0[id].record.contents.createdAt >= now - p.keep)
      && (forall id :: id in t.core.table ==>
            id in t.core.sims && HasRecord(t.core.disk, id)
            && t.core.sims[id].status == t.core.disk[id].record.contents.status
               == RecoveredStatus(disk0[id].record.contents.status)
            && Terminal(t.core.sims[id].status))
  {
    assert Enabled(p, s0, Crash);
    hide CoreInv, FifoInv, EvidenceInv, PhaseInv, GettersInv, LeftInv, Enabled, Apply;
    var s1 := Apply(p, s0, Crash);
    StepKeepsInv(p, s0, Crash);
    CrashStartsRestart(p, s0);
    RestartRun(p, s0.core.disk, s1, steps);
    var s2 := After(p, s1, steps);
    StepKeepsInv(p, s2, LoadDone(now));
    LoadDoneShows(p, s0.core.disk, s2, now);
  }

  lemma CrashStartsRestart(p: Limits, s: State)
    requires Enabled(p, s, Crash)
    ensures Restarting(s.core.disk, Apply(p, s, Crash))
  {
  }

  lemma LoadDoneShows(p: Limits, disk0: map<Id, Dir>, s: State, now: int)
    requires Inv(p, s) && Restarting(disk0, s) && Enabled(p, s, LoadDone(now))
    ensures var t := Apply(p, s, LoadDone(now));
      && t.serving && t.core.queue == [] && disk0.Keys <= t.core.disk.Keys
      && (forall id :: id in t.core.table <==>
            HasRecord(disk0, id) && disk0[id].record.contents.createdAt >= now - p.keep)
      && (forall id :: id in t.core.table ==>
            id in t.core.sims && HasRecord(t.core.disk, id)
            && t.core.sims[id].status == t.core.disk[id].record.contents.status
               == RecoveredStatus(disk0[id].record.contents.status)
            && Terminal(t.core.sims[id].status))
  {
    hide QueueInv, WorkersInv, FifoInv, EvidenceInv, GettersInv, LeftInv;
  }

  /** A deleted run comes back with a restart only if the service stopped before its files were
      unlinked, or a `get` that had found it wrote its record after they were. */
  lemma DeletedComesBackOnlyIf(p: Limits, s0: State, steps: seq<Step>, now: int, id: Id)
    requires Inv(p, s0) && Restart(p, s0, steps, now) && id in s0.history.deleted
    requires id in Restarted(p, s0, steps, now).core.table
    ensures FilesToGo(s0, id) || id in s0.late
  {
    hide Executable, After;
    RestartRecovers(p, s0, steps, now);
  }

  // ---- runs that go wrong -----------------------------------------------------------------------

  /** The service's only run, with nothing else going on. */
  ghost predicate Alone(p: Limits, s: State, id: Id, sim: Sim)
    requires p.maxRunning >= 1
  {
    && s.serving && s.todo == {} && s.removing == map[] && s.getters == map[]
    && s.core.table == {id} && s.core.sims == map[id := sim]
    && id in s.core.disk && s.core.disk.Keys == {id} && s.core.disk[id].record == Whole(RecordOf(sim))
    && s.core.workers == Idle(p.maxRunning)[0 := if sim.holdsProcess then Some(id) else None]
    && s.core.queue == if sim.status == Queued then [id] else []
  }

  const DONE := Sim(Done, 0, Some(0), Some(0), false, None)

  lemma OneRunQueues(p: Limits, id: Id) returns (steps: seq<Step>, s: State)
    requires p.maxRunning >= 1 && p.maxQueued >= 1
    ensures Reaches(p, steps, s) && Alone(p, s, id, NewSim(0)) && DeleteRun(id) !in steps
  {
    assert Reaches(p, [], Initial(p));
    hide Leads;
    steps, s := Onward(p, Initial(p), [], Initial(p), NewDirectory(id));
    steps, s := Onward(p, Initial(p), steps, s, Submit(id, 0));
  }

  lemma OneRunStarts(p: Limits, id: Id, steps0: seq<Step>, s0: State) returns (steps: seq<Step>, s: State)
    requires p.maxRunning >= 1 && Reaches(p, steps0, s0) && Alone(p, s0, id, NewSim(0)) && DeleteRun(id) !in steps0
    ensures Reaches(p, steps, s) && Alone(p, s, id, Sim(Running, 0, Some(0), None, true, None))
    ensures id in s.procs && s.procs[id] == Alive && DeleteRun(id) !in steps
  {
    hide Leads;
    steps, s := Onward(p, Initial(p), steps0, s0, Begin(0, 0, true));
  }

  lemma OneRunSucceeds(p: Limits, id: Id, steps0: seq<Step>, s0: State) returns (steps: seq<Step>, s: State)
    requires p.maxRunning >= 1 && Reaches(p, steps0, s0) && DeleteRun(id) !in steps0
    requires Alone(p, s0, id, Sim(Running, 0, Some(0), None, true, None)) && id in s0.procs && s0.procs[id] == Alive
    ensures Reaches(p, steps, s) && Alone(p, s, id, DONE) && DeleteRun(id) !in steps
  {
    hide Leads;
    steps, s := Onward(p, Initial(p), steps0, s0, WriteSummary(id));
    steps, s := Onward(p, Initial(p), steps, s, ProcessExits(id, 0));
    steps, s := Onward(p, Initial(p), steps, s, Finish(0, 0, false));
  }

  lemma OneRunFinishes(p: Limits, id: Id) returns (steps: seq<Step>, s: State)
    requires p.maxRunning >= 1 && p.maxQueued >= 1
    ensures Reaches(p, steps, s) && Alone(p, s, id, DONE) && DeleteRun(id) !in steps
  {
    steps, s := OneRunQueues(p, id);
    steps, s := OneRunStarts(p, id, steps, s);
    steps, s := OneRunSucceeds(p, id, steps, s);
  }

  /** A restart over a single directory. */
  lemma RestartsOver(p: Limits, id: Id, steps0: seq<Step>, s0: State) returns (steps: seq<Step>, s: State)
    requires p.keep >= 0 && Reaches(p, steps0, s0) && s0.core.disk.Keys == {id}
    requires s0.core.disk[id].record.Torn? || (s0.core.disk[id].record.Whole? && s0.core.disk[id].record.contents.status == Done
      && s0.core.disk[id].record.contents.createdAt == 0)
    ensures Reaches(p, steps, s) && steps == steps0 + [Crash, LoadOne(id, 0), LoadDone(0)]
    ensures s.serving && id in s.core.disk
    ensures if s0.core.disk[id].record.Torn? then s.core.table == {}
      else s.core.table == {id} && id in s.core.sims && s.core.sims[id].status == Done
  {
    hide Leads;
    steps, s := Onward(p, Initial(p), steps0, s0, Crash);
    assert s.todo == {id};
    steps, s := Onward(p, Initial(p), steps, s, LoadOne(id, 0));
    assert s.todo == {};
    steps, s := Onward(p, Initial(p), steps, s, LoadDone(0));
  }

  /** The first way back: the service stops between `delete`'s pop and its `rmtree`. */
  lemma CrashBringsDeletedRunBack(p: Limits, id: Id) returns (steps: seq<Step>, t: State)
    requires p.maxRunning >= 1 && p.maxQueued >= 1 && p.keep >= 0
    ensures Reaches(p, steps, t) && DeleteRun(id) in steps
    ensures t.serving && id in t.core.table && id in t.core.sims && t.core.sims[id].status == Done
  {
    var s: State;
    steps, s := OneRunFinishes(p, id);
    hide Leads;
    steps, s := Onward(p, Initial(p), steps, s, DeleteRun(id));
    assert steps[|steps| - 1] == DeleteRun(id);
    steps, t := RestartsOver(p, id, steps, s);
  }

  /** The second: a `get` that had found the run saves it after `delete` unlinked its files, and
      `rmtree` leaves the directory. The service may stop at any later time. */
  lemma LateSaveBringsDeletedRunBack(p: Limits, id: Id) returns (steps: seq<Step>, s: State, t: State, restart: seq<Step>)
    requires p.maxRunning >= 1 && p.maxQueued >= 1 && p.keep >= 0
    ensures Reaches(p, steps, s) && s.serving && s.removing == map[] && s.getters == map[] && id in s.history.deleted
    ensures id in s.late
    ensures Reaches(p, steps + restart, t) && DeleteRun(id) !in restart
    ensures t.serving && id in t.core.table && id in t.core.sims && t.core.sims[id].status == Done
  {
    steps, s := OneRunFinishes(p, id);
    hide Leads;
    steps, s := Onward(p, Initial(p), steps, s, GetDone(0, id));
    steps, s := Onward(p, Initial(p), steps, s, SetRunId(0, Some("run")));
    steps, s := Onward(p, Initial(p), steps, s, DeleteRun(id));
    assert s.core.disk.Keys == {id} && s.getters == map[0 := Getter(id, Found)] && s.core.sims[id].createdAt == 0;
    hide RecordOf;
    steps, s := Onward(p, Initial(p), steps, s, RemoveFiles(id));
    steps, s := SavesLate(p, id, steps, s);
    restart := [Crash, LoadOne(id, 0), LoadDone(0)];
    var longer: seq<Step>;
    longer, t := RestartsOver(p, id, steps, s);
  }

  /** One `get` opens the `.tmp` and writes it. */
  lemma WritesTmp(p: Limits, id: Id, steps0: seq<Step>, s0: State) returns (steps: seq<Step>, s: State)
    requires Reaches(p, steps0, s0) && s0.serving && 0 in s0.getters && s0.getters[0] == Getter(id, Found)
    requires id in s0.core.sims && id in s0.core.disk
    ensures Reaches(p, steps, s) && steps == steps0 + [OpenTmp(0), WriteTmp(0)]
    ensures s == WithDir(Staged(s0, 0, Written), id, s0.core.disk[id].(tmp := Whole(RecordOf(s0.core.sims[id]))))
  {
    hide Leads;
    steps, s := Onward(p, Initial(p), steps0, s0, OpenTmp(0));
    steps, s := Onward(p, Initial(p), steps, s, WriteTmp(0));
  }

  lemma SavesLate(p: Limits, id: Id, steps0: seq<Step>, s0: State) returns (steps: seq<Step>, s: State)
    requires Reaches(p, steps0, s0) && s0.serving && s0.getters == map[0 := Getter(id, Found)]
    requires id in s0.core.sims && s0.core.sims[id].status == Done && s0.core.sims[id].createdAt == 0
    requires id !in s0.core.table && s0.core.disk == map[id := EMPTY_DIR] && s0.removing == map[id := true]
    ensures Reaches(p, steps, s) && s.serving && s.removing == map[] && s.getters == map[] && s.history == s0.history
    ensures id in s.late && s.core.disk.Keys == {id} && s.core.disk[id].record == Whole(RecordOf(s0.core.sims[id]))
  {
    hide Leads, RecordOf;
    steps, s := WritesTmp(p, id, steps0, s0);
    steps, s := Onward(p, Initial(p), steps, s, ReplaceRecord(0));
    steps, s := Onward(p, Initial(p), steps, s, RemoveDir(id));
  }

  /** Two `get`s of one done run, the second opening the `.tmp` before the first renames it, and
      then a crash: the run, neither deleted nor expired, is gone when the service comes back,
      its directory still there. */
  lemma OverlappingGetsLoseRun(p: Limits, id: Id) returns (steps: seq<Step>, t: State)
    requires p.maxRunning >= 1 && p.maxQueued >= 1 && p.keep >= 0
    ensures Reaches(p, steps, t) && DeleteRun(id) !in steps
    ensures t.serving && id !in t.core.table && id in t.core.disk
  {
    var s: State;
    steps, s := OneRunFinishes(p, id);
    hide Leads;
    steps, s := Onward(p, Initial(p), steps, s, GetDone(0, id));
    steps, s := Onward(p, Initial(p), steps, s, GetDone(1, id));
    steps, s := Onward(p, Initial(p), steps, s, SetRunId(0, Some("run")));
    steps, s := Onward(p, Initial(p), steps, s, SetRunId(1, Some("run")));
    steps, s := TwoSaves(p, id, steps, s);
    steps, t := RestartsOver(p, id, steps, s);
  }

  lemma TwoSaves(p: Limits, id: Id, steps0: seq<Step>, s0: State) returns (steps: seq<Step>, s: State)
    requires Reaches(p, steps0, s0) && s0.serving && s0.getters == map[0 := Getter(id, Found), 1 := Getter(id, Found)]
    requires id in s0.core.sims && s0.core.disk.Keys == {id} && DeleteRun(id) !in steps0
    ensures Reaches(p, steps, s) && s.core.disk.Keys == {id} && s.core.disk[id].record.Torn? && DeleteRun(id) !in steps
  {
    hide Leads, RecordOf;
    steps, s := WritesTmp(p, id, steps0, s0);
    assert s.getters[1] == Getter(id, Found) && s.getters[0] == Getter(id, Written);
    steps, s := Onward(p, Initial(p), steps, s, OpenTmp(1));
    assert s.getters[0] == Getter(id, Written) && s.core.disk[id].tmp == Torn;
    steps, s := Onward(p, Initial(p), steps, s, ReplaceRecord(0));
  }
}
