/** What a status, a time stamp, a refusal and a removal mean, over all runs, in memory and on disk
    (public_api/simulate.py:583-615, 636-696). */
module SimOutcomes {
  import opened Common
  import opened SimQueue
  import opened SimRuns

  // ---- why a run came to its end -------------------------------------------------------------------

  /** A worker stops waiting for the process of a run nobody has deleted. */
  predicate Ends(s: State, step: Step, id: Id) {
    && step.Finish? && step.worker < |s.core.workers| && s.core.workers[step.worker] == Some(id)
    && id in s.core.sims && s.core.sims[id].status == Running
  }

  predicate ExitsWell(s: State, id: Id) {
    id in s.procs && s.procs[id] == Exited(0) && id in s.core.disk && s.core.disk[id].summary
  }

  /** The process could not be spawned. */
  predicate CannotStart(s: State, step: Step, id: Id) {
    step.Begin? && !step.spawned && s.core.queue != [] && s.core.queue[0] == id
  }

  /** A restart finds the run's record, and it tells of an unfinished run. */
  predicate Interrupted(s: State, step: Step, id: Id) {
    && step.LoadOne? && step.id == id && id in s.core.disk && s.core.disk[id].record.Whole?
    && (s.core.disk[id].record.contents.status == Queued || s.core.disk[id].record.contents.status == Running)
  }

  predicate IsDeleted(s: State, step: Step, id: Id) {
    && step.DeleteRun? && step.id == id && id in s.core.sims
    && (s.core.sims[id].status == Queued || s.core.sims[id].status == Running)
  }

  /** The step is a reason for the run to be said to have ended so. */
  predicate Reason(s: State, step: Step, id: Id, status: Status) {
    match status
    case TimedOut => Ends(s, step, id) && step.timedOut
    case Done => Ends(s, step, id) && !step.timedOut && ExitsWell(s, id)
    case Failed =>
      || (Ends(s, step, id) && !step.timedOut && !ExitsWell(s, id))
      || CannotStart(s, step, id) || Interrupted(s, step, id)
    case Cancelled => IsDeleted(s, step, id)
    case _ => false
  }

  ghost predicate HadReason(p: Limits, s: State, steps: seq<Step>, id: Id, status: Status)
    requires Executable(p, s, steps)
    decreases |steps|
  {
    steps != [] && (Reason(s, steps[0], id, status) || HadReason(p, Apply(p, s, steps[0]), steps[1..], id, status))
  }

  predicate SaysInMemory(s: State, id: Id, status: Status) {
    id in s.core.sims && s.core.sims[id].status == status
  }

  predicate SaysOnDisk(s: State, id: Id, status: Status) {
    id in s.core.disk && s.core.disk[id].record.Whole? && s.core.disk[id].record.contents.status == status
  }

  predicate Says(s: State, id: Id, status: Status) {
    SaysInMemory(s, id, status) || SaysOnDisk(s, id, status)
  }

  predicate Saves(step: Step) {
    step.WriteTmp? || step.ReplaceRecord?
  }

  /** A `get` only ever writes that a done run is done. */
  lemma SavesSayDone(p: Limits, s: State, step: Step, id: Id, status: Status)
    requires GettersInv(s) && Enabled(p, s, step) && Saves(step) && Says(Apply(p, s, step), id, status)
    ensures Says(s, id, status)
  {
    assert GetterOk(s, s.getters[step.g]);
    hide GettersInv;
  }

  lemma WorkersSay(p: Limits, s: State, step: Step, id: Id, status: Status)
    requires Enabled(p, s, step) && TouchesWorkers(step) && Terminal(status)
    requires Says(Apply(p, s, step), id, status)
    ensures Says(s, id, status) || Reason(s, step, id, status)
  {
  }

  predicate MakesRuns(step: Step) {
    step.Submit? || step.DeleteRun? || step.LoadOne?
  }

  lemma MakersSay(p: Limits, s: State, step: Step, id: Id, status: Status)
    requires Enabled(p, s, step) && MakesRuns(step) && Terminal(status)
    requires Says(Apply(p, s, step), id, status)
    ensures Says(s, id, status) || Reason(s, step, id, status)
  {
  }

  lemma OthersSay(p: Limits, s: State, step: Step, id: Id, status: Status)
    requires Enabled(p, s, step) && !TouchesWorkers(step) && !Saves(step) && !MakesRuns(step) && Terminal(status)
    requires Says(Apply(p, s, step), id, status)
    ensures Says(s, id, status) || Reason(s, step, id, status)
  {
  }

  lemma StepSays(p: Limits, s: State, step: Step, id: Id, status: Status)
    requires Inv(p, s) && Enabled(p, s, step) && Terminal(status) && Says(Apply(p, s, step), id, status)
    ensures Says(s, id, status) || Reason(s, step, id, status)
  {
    hide CoreInv, FifoInv, EvidenceInv, PhaseInv, GettersInv, LeftInv, Enabled, Apply, Says, Reason;
    if TouchesWorkers(step) {
      WorkersSay(p, s, step, id, status);
    } else if Saves(step) {
      SavesSayDone(p, s, step, id, status);
    } else if MakesRuns(step) {
      MakersSay(p, s, step, id, status);
    } else {
      OthersSay(p, s, step, id, status);
    }
  }

  lemma {:induction false} RunSays(p: Limits, s: State, steps: seq<Step>, id: Id, status: Status)
    requires Inv(p, s) && Executable(p, s, steps) && Terminal(status) && Says(After(p, s, steps), id, status)
    ensures Says(s, id, status) || HadReason(p, s, steps, id, status)
    decreases |steps|
  {
    hide Inv, Enabled, Apply, Says, Reason;
    if steps != [] {
      StepKeepsInv(p, s, steps[0]);
      RunSays(p, Apply(p, s, steps[0]), steps[1..], id, status);
      if Says(Apply(p, s, steps[0]), id, status) {
        StepSays(p, s, steps[0], id, status);
      }
    }
  }

  /** Over any run of the service, with crashes, restarts and overlapping saves: a run is said, in
      memory or by its record, to be timed out only if the time-out ended it; to have failed only if
      it could not be started, exited nonzero, left no summary, or was interrupted by a restart;
      to be done only if it exited 0 with its summary there; cancelled only if it was deleted. */
  lemma StatusMeans(p: Limits, steps: seq<Step>, id: Id, status: Status)
    requires Executable(p, Initial(p), steps) && Terminal(status)
    requires Says(After(p, Initial(p), steps), id, status)
    ensures HadReason(p, Initial(p), steps, id, status)
  {
    InitialInv(p);
    RunSays(p, Initial(p), steps, id, status);
  }

  /** And the other way: whatever is a reason for a status gives it, in memory and, unless the run
      is deleted, by its record wherever its directory is still there. */
  lemma ReasonGivesStatus(p: Limits, s: State, step: Step, id: Id, status: Status)
    requires Enabled(p, s, step) && Reason(s, step, id, status)
    ensures var t := Apply(p, s, step);
      SaysInMemory(t, id, status) && (status != Cancelled && id in t.core.disk ==> SaysOnDisk(t, id, status))
  {
  }

  // ---- time stamps -------------------------------------------------------------------------------------

  /** A time a run is stamped with by a step: its start, or its end. */
  predicate Starts(s: State, step: Step, id: Id) {
    step.Begin? && s.core.queue != [] && s.core.queue[0] == id
  }

  predicate Finishes(s: State, step: Step, id: Id) {
    Ends(s, step, id) || CannotStart(s, step, id) || Interrupted(s, step, id)
  }

  function TimeOf(step: Step): int {
    if step.Begin? || step.Finish? || step.LoadOne? then step.now else 0
  }

  predicate StampedBy(s: State, step: Step, id: Id, was: Sim, sim: Sim) {
    && sim.createdAt == was.createdAt
    && sim.startedAt == (if Starts(s, step, id) then Some(TimeOf(step)) else was.startedAt)
    && sim.finishedAt == (if Finishes(s, step, id) then Some(TimeOf(step)) else was.finishedAt)
  }

  lemma WorkersStamp(p: Limits, s: State, step: Step, id: Id, t: State)
    requires Enabled(p, s, step) && TouchesWorkers(step) && t == Apply(p, s, step)
    requires id in s.core.sims && id in t.core.sims
    ensures StampedBy(s, step, id, s.core.sims[id], t.core.sims[id])
  {
    hide Saved, Verdict;
  }

  lemma MakersStamp(p: Limits, s: State, step: Step, id: Id, t: State)
    requires PhaseInv(s) && Enabled(p, s, step) && MakesRuns(step) && t == Apply(p, s, step)
    requires id in s.core.sims && id in t.core.sims
    ensures StampedBy(s, step, id, s.core.sims[id], t.core.sims[id])
  {
    hide Saved;
  }

  lemma OthersStamp(p: Limits, s: State, step: Step, id: Id, t: State)
    requires Enabled(p, s, step) && !TouchesWorkers(step) && !MakesRuns(step) && t == Apply(p, s, step)
    requires id in s.core.sims && id in t.core.sims
    ensures StampedBy(s, step, id, s.core.sims[id], t.core.sims[id])
  {
  }

  /** A run known before and after a step is of the same age, and keeps its start and end but where
      the step is its start or its end, which is then now. */
  lemma StampsMean(p: Limits, s: State, step: Step, id: Id, t: State)
    requires Inv(p, s) && Enabled(p, s, step) && t == Apply(p, s, step)
    requires id in s.core.sims && id in t.core.sims
    ensures StampedBy(s, step, id, s.core.sims[id], t.core.sims[id])
  {
    if TouchesWorkers(step) {
      hide Inv, Enabled, Apply, StampedBy;
      WorkersStamp(p, s, step, id, t);
    } else if MakesRuns(step) {
      hide CoreInv, FifoInv, EvidenceInv, PhaseInv, GettersInv, LeftInv, Enabled, Apply, StampedBy;
      MakersStamp(p, s, step, id, t);
    } else {
      hide Inv, Enabled, Apply, StampedBy;
      OthersStamp(p, s, step, id, t);
    }
  }

  /** A run that becomes known has just been submitted, or is read back from its record with its
      stamps, but for an end now if it was unfinished. */
  lemma NewcomersAre(p: Limits, s: State, step: Step, id: Id, t: State)
    requires Enabled(p, s, step) && t == Apply(p, s, step) && id !in s.core.sims && id in t.core.sims
    ensures var now := t.core.sims[id];
      if step.Submit? then step.id == id && now == Sim(Queued, step.now, None, None, false, None)
      else
        && step.LoadOne? && step.id == id && id in s.core.disk && s.core.disk[id].record.Whole?
        && (var r := s.core.disk[id].record.contents;
            && now.createdAt == r.createdAt && now.startedAt == r.startedAt && now.runId == r.runId
            && now.finishedAt == if Interrupted(s, step, id) then Some(step.now) else r.finishedAt)
  {
    hide Saved;
  }

  // ---- refusals and removals -----------------------------------------------------------------------------

  /** A submission is refused exactly when as many runs wait as may; otherwise the run waits behind
      all others, in the table and on disk. */
  lemma RefusedExactlyWhenFull(p: Limits, s: State, step: Step)
    requires Inv(p, s) && Enabled(p, s, step) && step.Submit?
    ensures var t := Apply(p, s, step);
      if |s.core.queue| == p.maxQueued then t.core == s.core
      else
        && t.core.queue == s.core.queue + [step.id] && t.core.table == s.core.table + {step.id}
        && SaysInMemory(t, step.id, Queued) && SaysOnDisk(t, step.id, Queued)
  {
    hide FifoInv, EvidenceInv, GettersInv, LeftInv;
  }

  /** A prune takes from the table exactly the ended runs created more than `keep` ago, and sends
      their directories to be removed. */
  lemma PruneTakesExactly(p: Limits, s: State, step: Step, id: Id)
    requires Inv(p, s) && Enabled(p, s, step) && (step.Prune? || step.LoadDone?) && id in s.core.table
    ensures var t, sim := Apply(p, s, step), s.core.sims[id];
      && (id !in t.core.table <==>
           sim.createdAt + p.keep < step.now && sim.status != Queued && sim.status != Running)
      && (id !in t.core.table ==> id in t.removing)
      && t.core.sims == s.core.sims && t.core.disk == s.core.disk
  {
    hide FifoInv, EvidenceInv, GettersInv, LeftInv;
  }

  /** Undisturbed, a whole prune removes the directories of those, and the aged ones of no run of
      the table, and touches no other. */
  lemma SweptKeepsExactly(p: Limits, c: Core, now: int, aged: set<Id>, id: Id)
    requires CoreInv(p, c) && id in c.disk
    ensures id in Swept(p, c, now, aged).disk <==>
      if id in c.table
      then now <= c.sims[id].createdAt + p.keep || c.sims[id].status == Queued || c.sims[id].status == Running
      else id !in aged
    ensures id in Swept(p, c, now, aged).disk ==> Swept(p, c, now, aged).disk[id] == c.disk[id]
  {
  }

  /** A process comes into being only where one is spawned, and runs until it exits. */
  lemma ProcessesAreSpawned(p: Limits, s: State, step: Step, id: Id, t: State)
    requires Enabled(p, s, step) && t == Apply(p, s, step)
    ensures id in t.procs && id !in s.procs ==>
      && s.core.queue != [] && s.core.queue[0] == id
      && ((step.Begin? && step.spawned) || step.CrashWhileStarting?)
    ensures id in s.procs ==> id in t.procs
    ensures id in s.procs && s.procs[id].Exited? && id !in s.core.queue ==> t.procs[id] == s.procs[id]
  {
    assert s.core.queue != [] ==> s.core.queue[0] in s.core.queue;
  }
}
