/** One run directory, any number of launches: the lease, the writes in the order a launch makes
    them and a simulation file by file, deaths between any two of them with or without the
    simulation, and the `.complete` marker that lets a later launch skip the run
    (launcher/sweep.py:60-69, 127-262, 316-346; launcher/process/markers.py:36-54). */
module CommitMarker {
  import opened Common

  /** What a launch's stored files tell of it: params, preset, commit. */
  type Params = string

  /** The files the artifact validator reads (launcher/process/artifacts.py:21-53). */
  datatype Artifact = Summary | RunMeta | RequestSlo | RequestState

  /** Which simulation wrote a file, whether the validator takes it, and, for a summary, whether
      it tells of requests. */
  datatype Content = Content(run: nat, good: bool, requests: bool)

  /** The config the binary reads, the run's metadata, the preset and git snapshot of a single
      run, the artifacts, and the marker, with the simulation it was set for. */
  datatype Disk = Disk(
    config: Option<Params>,
    metadata: Option<Params>,
    shared: Option<Params>,
    files: map<Artifact, Content>,
    marker: Option<nat>)

  datatype Pc =
    | Waiting                         // for the directory's lease
    | Looking                         // holds it, as do the next ten
    | LookingFurther                  // saw the marker
    | Sharing                         // a single run, about to write preset and git snapshot
    | Prebuilding                     // a single run, its caches
    | Configuring
    | Recording                       // config written, metadata still the old run's
    | Unmarking                       // both written, old marker still there
    | Ready
    | Simulating(run: nat)
    | Validating(run: nat)
    | Committing(run: nat)
    | Glancing                        // a sweep's check before it holds the lease
    | GlancingFurther                 // saw the marker
    | Returned(ok: bool)
    | Skipped
    | Dead

  /** `shared`: has written the shared metadata. */
  datatype Launch = Launch(params: Params, refresh: bool, single: bool, shared: bool, pc: Pc)

  /** A simulation started: its params, and the files it found. */
  datatype Run = Run(params: Params, found: map<Artifact, Content>)

  datatype Write = Write(run: nat, file: Artifact)

  datatype State = State(
    disk: Disk,
    lease: Option<nat>,
    launches: map<nat, Launch>,
    runs: seq<Run>,
    wrote: set<Write>,
    exitedZero: set<nat>,
    validated: set<nat>,
    orphans: set<nat>)                // simulations whose launcher died without them

  datatype Step =
    | Arrive(l: nat, params: Params, refresh: bool, single: bool)
    | GlanceMarker(l: nat)
    | GlanceArtifacts(l: nat)
    | Acquire(l: nat)
    | LookMarker(l: nat)
    | LookArtifacts(l: nat)
    | WriteShared(l: nat)
    | PrebuildFails(l: nat)
    | PrebuildSucceeds(l: nat)
    | WriteConfig(l: nat)
    | WriteMetadata(l: nat)
    | Unmark(l: nat)
    | StartSimulation(l: nat)
    | SimulationWrites(l: nat, file: Artifact, good: bool, requests: bool)
    | SimulationEnds(l: nat, zero: bool)
    | Validate(l: nat)
    | Commit(l: nat)
    | Dies(l: nat)                    // and its simulation with it
    | DiesAlone(l: nat)               // its simulation, in a session of its own, goes on
    | OrphanWrites(run: nat, file: Artifact, good: bool, requests: bool)
    | OrphanEnds(run: nat)
    | Damage(file: Artifact)          // someone spoils a file from outside

  predicate WithRequests(files: map<Artifact, Content>) {
    Summary in files && files[Summary].requests
  }

  predicate Required(files: map<Artifact, Content>, a: Artifact) {
    a.Summary? || a.RunMeta? || (a.RequestSlo? && WithRequests(files))
  }

  /** What the validator reads and lists as accepted: `request_state` merely if it is there. */
  predicate Listed(files: map<Artifact, Content>, a: Artifact) {
    Required(files, a) || (a.RequestState? && WithRequests(files) && a in files)
  }

  predicate Valid(d: Disk) {
    forall a :: Listed(d.files, a) ==> a in d.files && d.files[a].good
  }

  predicate IsComplete(d: Disk) {
    d.marker.Some? && Valid(d)
  }

  predicate RequiredOwn(files: map<Artifact, Content>, run: nat) {
    forall a :: Required(files, a) ==> a in files && files[a].run == run
  }

  predicate InLease(pc: Pc) {
    pc.Looking? || pc.LookingFurther? || pc.Sharing? || pc.Prebuilding? || pc.Configuring? || pc.Recording?
    || pc.Unmarking? || pc.Ready? || HasRun(pc)
  }

  predicate HasRun(pc: Pc) {
    pc.Simulating? || pc.Validating? || pc.Committing?
  }

  function PcOf(s: State, l: nat): Pc {
    if l in s.launches then s.launches[l].pc else Dead
  }

  /** A simulation that exits zero has written the required files; of others it promises nothing. */
  predicate Enabled(s: State, step: Step) {
    match step
    case Arrive(l, _, _, _) => l !in s.launches
    case GlanceMarker(l) => PcOf(s, l).Glancing?
    case GlanceArtifacts(l) => PcOf(s, l).GlancingFurther?
    case Acquire(l) => PcOf(s, l).Waiting? && s.lease == None
    case LookMarker(l) => PcOf(s, l).Looking?
    case LookArtifacts(l) => PcOf(s, l).LookingFurther?
    case WriteShared(l) => PcOf(s, l).Sharing?
    case PrebuildFails(l) => PcOf(s, l).Prebuilding?
    case PrebuildSucceeds(l) => PcOf(s, l).Prebuilding?
    case WriteConfig(l) => PcOf(s, l).Configuring?
    case WriteMetadata(l) => PcOf(s, l).Recording?
    case Unmark(l) => PcOf(s, l).Unmarking?
    case StartSimulation(l) => PcOf(s, l).Ready?
    case SimulationWrites(l, _, _, _) => PcOf(s, l).Simulating?
    case SimulationEnds(l, zero) => PcOf(s, l).Simulating? && (zero ==> RequiredOwn(s.disk.files, PcOf(s, l).run))
    case Validate(l) => PcOf(s, l).Validating?
    case Commit(l) => PcOf(s, l).Committing?
    case Dies(l) => l in s.launches
    case DiesAlone(l) => PcOf(s, l).Simulating?
    case OrphanWrites(run, _, _, _) => run in s.orphans
    case OrphanEnds(run) => run in s.orphans
    case Damage(file) => file in s.disk.files
  }

  function Move(s: State, l: nat, pc: Pc): State
    requires l in s.launches
  {
    s.(launches := s.launches[l := s.launches[l].(pc := pc)])
  }

  function Leave(s: State, l: nat, pc: Pc): State
    requires l in s.launches
  {
    Move(s, l, pc).(lease := if s.lease == Some(l) then None else s.lease)
  }

  function PutFile(s: State, run: nat, file: Artifact, good: bool, requests: bool): State {
    s.(disk := s.disk.(files := s.disk.files[file := Content(run, good, requests)]),
       wrote := s.wrote + {Write(run, file)})
  }

  /** Not complete: a single run, which looks twice, writes its shared metadata after the first. */
  function Onwards(launch: Launch): Pc {
    if launch.single && !launch.shared then Sharing else Configuring
  }

  function Apply(s: State, step: Step): State
    requires Enabled(s, step)
  {
    var d := s.disk;
    match step
    case Arrive(l, params, refresh, single) =>
      // a sweep without `refresh` looks before it launches; everything else goes for the lease
      var pc := if !single && !refresh then Glancing else Waiting;
      s.(launches := s.launches[l := Launch(params, refresh, single, false, pc)])
    case GlanceMarker(l) => Move(s, l, if d.marker.Some? then GlancingFurther else Waiting)
    case GlanceArtifacts(l) => Move(s, l, if Valid(d) then Skipped else Waiting)
    case Acquire(l) =>
      Move(s, l, if s.launches[l].refresh then Onwards(s.launches[l]) else Looking).(lease := Some(l))
    case LookMarker(l) => Move(s, l, if d.marker.Some? then LookingFurther else Onwards(s.launches[l]))
    case LookArtifacts(l) => if Valid(d) then Leave(s, l, Skipped) else Move(s, l, Onwards(s.launches[l]))
    case WriteShared(l) =>
      var launch := s.launches[l].(pc := Prebuilding, shared := true);
      s.(launches := s.launches[l := launch], disk := d.(shared := Some(launch.params)))
    case PrebuildFails(l) => Leave(s, l, Returned(false))
    case PrebuildSucceeds(l) => Move(s, l, if s.launches[l].refresh then Configuring else Looking)
    case WriteConfig(l) => Move(s, l, Recording).(disk := d.(config := Some(s.launches[l].params)))
    case WriteMetadata(l) => Move(s, l, Unmarking).(disk := d.(metadata := Some(s.launches[l].params)))
    case Unmark(l) => Move(s, l, Ready).(disk := d.(marker := None))
    case StartSimulation(l) =>
      Move(s, l, Simulating(|s.runs|)).(runs := s.runs + [Run(s.launches[l].params, d.files)])
    case SimulationWrites(l, file, good, requests) => PutFile(s, PcOf(s, l).run, file, good, requests)
    case SimulationEnds(l, zero) =>
      var run := PcOf(s, l).run;
      if zero then Move(s, l, Validating(run)).(exitedZero := s.exitedZero + {run}) else Leave(s, l, Returned(false))
    case Validate(l) =>
      var run := PcOf(s, l).run;
      if Valid(d) then Move(s, l, Committing(run)).(validated := s.validated + {run}) else Leave(s, l, Returned(false))
    case Commit(l) => Leave(s, l, Returned(true)).(disk := d.(marker := Some(PcOf(s, l).run)))
    case Dies(l) => Leave(s, l, Dead)
    case DiesAlone(l) => Leave(s, l, Dead).(orphans := s.orphans + {PcOf(s, l).run})
    case OrphanWrites(run, file, good, requests) => PutFile(s, run, file, good, requests)
    case OrphanEnds(run) => s.(orphans := s.orphans - {run})
    case Damage(file) => s.(disk := d.(files := d.files[file := d.files[file].(good := false)]))
  }

  const INITIAL := State(Disk(None, None, None, map[], None), None, map[], [], {}, {}, {}, {})

  // ---- what holds whoever dies -----------------------------------------------------------------

  predicate Unmarked(pc: Pc) {
    pc.Ready? || HasRun(pc)
  }

  ghost predicate LeaseInv(s: State) {
    && (s.lease.Some? ==> s.lease.value in s.launches)
    && (forall l :: l in s.launches ==> LeaseAt(s, l))
  }

  predicate LeaseAt(s: State, l: nat)
    requires l in s.launches
  {
    var pc := s.launches[l].pc;
    && (InLease(pc) <==> s.lease == Some(l))
    && (Unmarked(pc) ==> s.disk.marker == None)
    && (pc.LookingFurther? ==> s.disk.marker.Some?)
  }

  /** Only the run started last is watched by a launch or marked, and a mark means it exited zero
      and passed validation. */
  ghost predicate RunsInv(s: State) {
    && s.validated <= s.exitedZero
    && (forall r :: r in s.exitedZero ==> r < |s.runs|)
    && (forall r :: r in s.orphans ==> r < |s.runs| && r !in s.exitedZero)
    && (forall l :: l in s.launches && HasRun(s.launches[l].pc) ==> Watches(s, s.launches[l]))
    && (s.disk.marker.Some? ==> s.disk.marker.value == |s.runs| - 1 && s.disk.marker.value in s.validated)
  }

  ghost predicate Watches(s: State, launch: Launch)
    requires HasRun(launch.pc)
  {
    && launch.pc.run == |s.runs| - 1 && s.runs[launch.pc.run].params == launch.params
    && launch.pc.run !in s.orphans
    && (launch.pc.Simulating? <==> launch.pc.run !in s.exitedZero)
    && (launch.pc.Committing? <==> launch.pc.run in s.validated)
  }

  /** Nothing is of a simulation still to come, and what one found is of an earlier one. */
  ghost predicate PastInv(s: State) {
    && (forall w :: w in s.wrote ==> w.run < |s.runs|)
    && (forall a :: a in s.disk.files ==> s.disk.files[a].run < |s.runs|)
    && (forall r, a :: 0 <= r < |s.runs| && a in s.runs[r].found ==> s.runs[r].found[a].run < r)
  }

  ghost predicate Ground(s: State) {
    LeaseInv(s) && RunsInv(s) && PastInv(s)
  }

  // ---- what holds while no simulation is left behind ---------------------------------------------

  /** The files are those the run wrote and, where it wrote none, those it found. */
  ghost predicate Traced(s: State, run: nat)
    requires run < |s.runs|
  {
    var files, found := s.disk.files, s.runs[run].found;
    forall a ::
      && (a in files <==> Write(run, a) in s.wrote || a in found)
      && (a in files ==> files[a].run == if Write(run, a) in s.wrote then run else found[a].run)
  }

  ghost predicate FilesInv(s: State) {
    && (s.runs != [] ==> Traced(s, |s.runs| - 1))
    && (Done(s) ==> s.runs != [] && RequiredOwn(s.disk.files, |s.runs| - 1))
  }

  ghost predicate Done(s: State) {
    s.disk.marker.Some? || (exists l :: l in s.launches && Ended(s.launches[l].pc))
  }

  predicate Ended(pc: Pc) {
    pc.Validating? || pc.Committing?
  }

  ghost predicate Inv(s: State) {
    Ground(s) && s.orphans == {} && FilesInv(s)
  }

  // ---- one step -----------------------------------------------------------------------------------

  /** Launch `l` takes the free lease, gives it back, or moves without touching it; a launch that
      moves the marker holds it. */
  ghost predicate OneMoves(s: State, t: State, l: nat) {
    && l in t.launches && t.launches == s.launches[l := t.launches[l]] && LeaseAt(t, l)
    && (t.lease == s.lease || (s.lease == None && t.lease == Some(l)) || (s.lease == Some(l) && t.lease == None))
    && (t.disk.marker == s.disk.marker || s.lease == Some(l))
  }

  predicate Outside(step: Step) {
    step.Damage? || step.OrphanWrites? || step.OrphanEnds?
  }

  predicate MayLeave(step: Step) {
    step.LookArtifacts? || step.PrebuildFails? || step.SimulationEnds? || step.Validate? || step.Commit?
  }

  lemma LeaverMoves(s: State, step: Step)
    requires Enabled(s, step) && MayLeave(step) && LeaseAt(s, step.l)
    ensures OneMoves(s, Apply(s, step), step.l)
  {
    hide Valid, RequiredOwn;
  }

  lemma DyingMoves(s: State, step: Step)
    requires Enabled(s, step) && (step.Dies? || step.DiesAlone?) && LeaseAt(s, step.l)
    ensures OneMoves(s, Apply(s, step), step.l)
  {
  }

  lemma StayerMoves(s: State, step: Step)
    requires Enabled(s, step) && !Outside(step) && !MayLeave(step) && !step.Dies? && !step.DiesAlone?
    requires if step.l in s.launches then LeaseAt(s, step.l) else s.lease != Some(step.l)
    ensures OneMoves(s, Apply(s, step), step.l)
  {
  }

  lemma MoveKeepsLease(s: State, t: State, l: nat)
    requires LeaseInv(s) && OneMoves(s, t, l)
    ensures LeaseInv(t)
  {
    forall m | m in t.launches && m != l ensures LeaseAt(t, m) {
      assert LeaseAt(s, m);
    }
  }

  lemma StepKeepsLease(s: State, step: Step)
    requires LeaseInv(s) && Enabled(s, step)
    ensures LeaseInv(Apply(s, step))
  {
    hide OneMoves, InLease, Unmarked;
    if Outside(step) {
      var t := Apply(s, step);
      assert t.launches == s.launches && t.lease == s.lease && t.disk.marker == s.disk.marker;
      assert forall l :: l in s.launches && LeaseAt(s, l) ==> LeaseAt(t, l);
    } else {
      if MayLeave(step) {
        LeaverMoves(s, step);
      } else if step.Dies? || step.DiesAlone? {
        DyingMoves(s, step);
      } else {
        StayerMoves(s, step);
      }
      MoveKeepsLease(s, Apply(s, step), step.l);
    }
  }

  predicate MovesRuns(step: Step) {
    step.SimulationEnds? || step.Validate? || step.Commit? || step.DiesAlone?
  }

  /** Past the unlink a launch is alone with the directory, and there is no marker. */
  predicate Alone(s: State, l: nat) {
    s.disk.marker == None && (forall m :: m in s.launches && m != l ==> !HasRun(s.launches[m].pc))
  }

  lemma OneHolder(s: State, l: nat)
    requires LeaseInv(s) && l in s.launches && InLease(s.launches[l].pc)
    ensures forall m :: m in s.launches && m != l ==> !InLease(s.launches[m].pc)
    ensures Unmarked(s.launches[l].pc) ==> s.disk.marker == None
  {
    assert LeaseAt(s, l);
    assert forall m :: m in s.launches ==> LeaseAt(s, m);
  }

  lemma HolderIsAlone(s: State, l: nat)
    requires LeaseInv(s) && l in s.launches && Unmarked(s.launches[l].pc)
    ensures Alone(s, l)
  {
    OneHolder(s, l);
  }

  lemma StartKeepsRuns(s: State, l: nat)
    requires RunsInv(s) && Enabled(s, StartSimulation(l)) && Alone(s, l)
    ensures RunsInv(Apply(s, StartSimulation(l)))
  {
  }

  lemma RunMovesKeepRuns(s: State, step: Step)
    requires RunsInv(s) && Enabled(s, step) && MovesRuns(step) && Alone(s, step.l)
    ensures RunsInv(Apply(s, step))
  {
    hide Valid, RequiredOwn;
  }

  lemma OthersKeepRuns(s: State, step: Step)
    requires RunsInv(s) && Enabled(s, step) && !MovesRuns(step) && !step.StartSimulation?
    ensures RunsInv(Apply(s, step))
  {
    hide Valid, RequiredOwn;
  }

  lemma StepKeepsPast(s: State, step: Step)
    requires RunsInv(s) && PastInv(s) && Enabled(s, step)
    ensures PastInv(Apply(s, step))
  {
    hide Valid, RequiredOwn;
  }

  /** No death whatsoever breaks these. */
  lemma StepKeepsGround(s: State, step: Step)
    requires Ground(s) && Enabled(s, step)
    ensures Ground(Apply(s, step))
  {
    hide Valid, RequiredOwn, Apply, LeaseInv, RunsInv, PastInv;
    StepKeepsLease(s, step);
    if step.StartSimulation? || MovesRuns(step) {
      HolderIsAlone(s, step.l);
      if step.StartSimulation? {
        StartKeepsRuns(s, step.l);
      } else {
        RunMovesKeepRuns(s, step);
      }
    } else {
      OthersKeepRuns(s, step);
    }
    StepKeepsPast(s, step);
  }

  lemma StartIsTraced(s: State, l: nat)
    requires PastInv(s) && Enabled(s, StartSimulation(l))
    ensures Traced(Apply(s, StartSimulation(l)), |s.runs|)
  {
  }

  lemma WriteKeepsTrace(s: State, run: nat, file: Artifact, good: bool, requests: bool)
    requires run < |s.runs| && Traced(s, run)
    ensures Traced(PutFile(s, run, file, good, requests), run)
  {
  }

  lemma DamageKeepsTrace(s: State, run: nat, file: Artifact)
    requires run < |s.runs| && Traced(s, run) && file in s.disk.files
    ensures Traced(Apply(s, Damage(file)), run)
  {
  }

  lemma DamageKeepsFiles(s: State, file: Artifact)
    requires FilesInv(s) && file in s.disk.files
    ensures FilesInv(Apply(s, Damage(file)))
  {
    hide Valid;
    var t := Apply(s, Damage(file));
    assert t.launches == s.launches && t.runs == s.runs && Done(t) == Done(s);
    hide Done;
    assert forall a :: Required(t.disk.files, a) == Required(s.disk.files, a);
    if s.runs != [] {
      DamageKeepsTrace(s, |s.runs| - 1, file);
    }
    hide Traced;
  }

  predicate MovesFiles(step: Step) {
    step.StartSimulation? || step.SimulationWrites? || step.OrphanWrites? || step.Damage?
  }

  /** While a launch simulates nothing is done. */
  lemma NothingDone(s: State, l: nat)
    requires LeaseInv(s) && l in s.launches && Unmarked(s.launches[l].pc) && !Ended(s.launches[l].pc)
    ensures !Done(s)
  {
    OneHolder(s, l);
  }

  /** A simulation is done by an end that finds its required files there. */
  lemma DoneBefore(s: State, step: Step)
    requires LeaseInv(s) && RunsInv(s) && Enabled(s, step) && Done(Apply(s, step))
    ensures var t := Apply(s, step);
      if step.SimulationEnds? && step.zero then s.runs != [] && RequiredOwn(s.disk.files, |s.runs| - 1)
      else
        && Done(s) && !step.StartSimulation? && !step.SimulationWrites?
        && t.runs == s.runs && t.exitedZero == s.exitedZero
  {
    hide Valid, RequiredOwn;
    var t := Apply(s, step);
    if step.StartSimulation? || step.SimulationWrites? {
      StepKeepsLease(s, step);
      NothingDone(t, step.l);
    } else if !t.disk.marker.Some? {
      var l :| l in t.launches && Ended(t.launches[l].pc);
      assert l in s.launches;
    }
  }

  lemma FilesStay(s: State, step: Step)
    requires Enabled(s, step) && !MovesFiles(step)
    ensures var t := Apply(s, step); t.disk.files == s.disk.files && t.runs == s.runs && t.wrote == s.wrote
  {
    hide Valid, RequiredOwn;
  }

  lemma OthersKeepFiles(s: State, step: Step)
    requires LeaseInv(s) && RunsInv(s) && FilesInv(s) && Enabled(s, step) && !MovesFiles(step)
    ensures FilesInv(Apply(s, step))
  {
    hide LeaseInv, RunsInv, Done, RequiredOwn, Enabled, Apply;
    var t := Apply(s, step);
    if Done(t) {
      DoneBefore(s, step);
    }
    FilesStay(s, step);
    assert s.runs != [] ==> Traced(s, |s.runs| - 1) ==> Traced(t, |s.runs| - 1);
  }

  lemma SimulatingKeepsFiles(s: State, step: Step)
    requires Inv(s) && Enabled(s, step) && (step.StartSimulation? || step.SimulationWrites?)
    ensures FilesInv(Apply(s, step))
  {
    var t := Apply(s, step);
    NothingDone(s, step.l);
    StepKeepsLease(s, step);
    NothingDone(t, step.l);
    hide LeaseInv, Done, Valid, RequiredOwn, Traced;
    if step.StartSimulation? {
      StartIsTraced(s, step.l);
    } else {
      WriteKeepsTrace(s, PcOf(s, step.l).run, step.file, step.good, step.requests);
    }
  }

  lemma StepKeepsFiles(s: State, step: Step)
    requires Inv(s) && Enabled(s, step)
    ensures FilesInv(Apply(s, step))
  {
    hide Apply, FilesInv, LeaseInv, RunsInv, PastInv;
    if step.StartSimulation? || step.SimulationWrites? {
      SimulatingKeepsFiles(s, step);
    } else if step.Damage? {
      DamageKeepsFiles(s, step.file);
    } else if !step.OrphanWrites? {
      OthersKeepFiles(s, step);
    }
  }

  /** A step keeps the invariant exactly when it is not a death that leaves a simulation. */
  lemma StepKeepsInv(s: State, step: Step)
    requires Inv(s) && Enabled(s, step)
    ensures Ground(Apply(s, step)) && (Inv(Apply(s, step)) <==> !step.DiesAlone?)
  {
    hide LeaseInv, RunsInv, PastInv, FilesInv;
    StepKeepsGround(s, step);
    if !step.DiesAlone? {
      StepKeepsFiles(s, step);
    }
  }

  // ---- whole runs ---------------------------------------------------------------------------------

  ghost predicate Executable(s: State, steps: seq<Step>)
    decreases |steps|
  {
    steps == [] || (Enabled(s, steps[0]) && Executable(Apply(s, steps[0]), steps[1..]))
  }

  ghost function After(s: State, steps: seq<Step>): State
    requires Executable(s, steps)
    decreases |steps|
  {
    if steps == [] then s else After(Apply(s, steps[0]), steps[1..])
  }

  /** Nobody dies and leaves a simulation. */
  ghost predicate NoneLeft(steps: seq<Step>) {
    forall step :: step in steps ==> !step.DiesAlone?
  }

  lemma {:induction false} RunKeepsGround(s: State, steps: seq<Step>)
    requires Ground(s) && Executable(s, steps)
    ensures Ground(After(s, steps))
    decreases |steps|
  {
    hide Ground, Enabled, Apply;
    if steps != [] {
      StepKeepsGround(s, steps[0]);
      RunKeepsGround(Apply(s, steps[0]), steps[1..]);
    }
  }

  lemma {:induction false} RunKeepsInv(s: State, steps: seq<Step>)
    requires Inv(s) && Executable(s, steps) && NoneLeft(steps)
    ensures Inv(After(s, steps))
    decreases |steps|
  {
    hide Inv, Enabled, Apply;
    if steps != [] {
      assert steps[0] in steps && forall step :: step in steps[1..] ==> step in steps;
      StepKeepsInv(s, steps[0]);
      RunKeepsInv(Apply(s, steps[0]), steps[1..]);
    }
  }

  /** The files a run must have are all of one simulation, which exited zero and passed
      validation. */
  predicate Certified(s: State) {
    && Summary in s.disk.files
    && (var run := s.disk.files[Summary].run;
        run in s.exitedZero && run in s.validated && RequiredOwn(s.disk.files, run))
  }

  /** Whoever dies, and whatever simulations are left behind: one launch at a time holds the
      directory; there is no marker while it simulates; and a marker stands for the simulation
      started last, which exited zero and passed validation. */
  lemma ReachableStatesExclude(steps: seq<Step>)
    requires Executable(INITIAL, steps)
    ensures var s := After(INITIAL, steps);
      && (forall l, m :: l in s.launches && m in s.launches ==>
           InLease(s.launches[l].pc) && InLease(s.launches[m].pc) ==> l == m)
      && (forall l :: l in s.launches && s.launches[l].pc.Simulating? ==> s.disk.marker == None)
      && (s.disk.marker.Some? ==>
           && s.disk.marker.value == |s.runs| - 1
           && s.disk.marker.value in s.exitedZero && s.disk.marker.value in s.validated)
  {
    RunKeepsGround(INITIAL, steps);
    var s := After(INITIAL, steps);
    assert forall l :: l in s.launches ==> LeaseAt(s, l);
  }

  /** As long as no death leaves a simulation, none runs but its launch holds the directory, and a
      marked directory's required files are of the simulation the marker stands for. */
  lemma ReachableStatesAreSafe(steps: seq<Step>)
    requires Executable(INITIAL, steps) && NoneLeft(steps)
    ensures var s := After(INITIAL, steps);
      && s.orphans == {}
      && (s.disk.marker.Some? ==> Certified(s) && s.disk.files[Summary].run == s.disk.marker.value)
  {
    RunKeepsInv(INITIAL, steps);
  }

  // ---- the optional file ----------------------------------------------------------------------------

  /** Under a marker a file is another simulation's exactly when that one had left it and the
      marked one wrote none; no required file is. */
  lemma StaleExactlyWhen(s: State, a: Artifact)
    requires Inv(s) && s.disk.marker.Some?
    ensures var run, files := s.disk.marker.value, s.disk.files;
      var found := s.runs[run].found;
      && (a in files && files[a].run != run <==> a in found && Write(run, a) !in s.wrote)
      && (a in files && files[a].run != run ==> files[a].run == found[a].run < run && !Required(files, a))
  {
    assert Traced(s, s.disk.marker.value);
  }

  // ---- a simulation left behind -----------------------------------------------------------------------

  lemma {:induction false} Unsnoc(s: State, steps: seq<Step>)
    requires Executable(s, steps) && steps != []
    ensures var init, last := steps[..|steps| - 1], steps[|steps| - 1];
      Executable(s, init) && Enabled(After(s, init), last) && After(s, steps) == Apply(After(s, init), last)
    decreases |steps|
  {
    hide Enabled, Apply;
    if |steps| > 1 {
      var rest := steps[1..];
      assert rest[..|rest| - 1] == steps[..|steps| - 1][1..];
      Unsnoc(Apply(s, steps[0]), rest);
    } else {
      assert steps[..0] == [] && steps[1..] == [];
    }
  }

  /** Since the last simulation that exited zero, none left behind has written a required file. */
  ghost predicate Untouched(s: State, steps: seq<Step>)
    requires Executable(s, steps)
    decreases |steps|
  {
    if steps == [] then true
    else
      var init, last := steps[..|steps| - 1], steps[|steps| - 1];
      Unsnoc(s, steps);
      if last.SimulationEnds? && last.zero then true
      else !(last.OrphanWrites? && Required(After(s, init).disk.files, last.file)) && Untouched(s, init)
  }

  /** The last run's required files are its own, or some required file is of a simulation that
      did not exit zero. */
  ghost predicate Standing(s: State, untouched: bool) {
    && s.runs != []
    && (untouched ==> RequiredOwn(s.disk.files, |s.runs| - 1))
    && (!untouched ==>
         exists a :: Required(s.disk.files, a) && a in s.disk.files && s.disk.files[a].run !in s.exitedZero)
  }

  lemma OrphanStands(s: State, step: Step, untouched: bool)
    requires Ground(s) && Enabled(s, step) && step.OrphanWrites? && Standing(s, untouched)
    ensures Standing(Apply(s, step), untouched && !Required(s.disk.files, step.file))
  {
    var t := Apply(s, step);
    assert Required(t.disk.files, step.file) <==> Required(s.disk.files, step.file);
    assert step.run !in s.exitedZero;
    hide Ground, Valid;
    if !untouched {
      var a :| Required(s.disk.files, a) && a in s.disk.files && s.disk.files[a].run !in s.exitedZero;
      if step.file == a {
        assert Required(t.disk.files, a);
      } else if step.file == Summary {
        assert Required(t.disk.files, Summary) && t.disk.files[Summary].run !in t.exitedZero;
      } else {
        assert Required(t.disk.files, a) && t.disk.files[a] == s.disk.files[a];
      }
    }
  }

  lemma DamageStands(s: State, step: Step, untouched: bool)
    requires Enabled(s, step) && step.Damage? && Standing(s, untouched)
    ensures Standing(Apply(s, step), untouched)
  {
    var t := Apply(s, step);
    assert forall a :: Required(t.disk.files, a) == Required(s.disk.files, a);
  }

  lemma StandingMoves(s: State, step: Step, untouched: bool)
    requires Ground(s) && Enabled(s, step) && (Done(s) ==> Standing(s, untouched)) && Done(Apply(s, step))
    requires !(step.SimulationEnds? && step.zero)
    ensures Standing(Apply(s, step), untouched && !(step.OrphanWrites? && Required(s.disk.files, step.file)))
  {
    hide LeaseInv, RunsInv, PastInv, Done, Enabled, Apply;
    DoneBefore(s, step);
    if step.OrphanWrites? {
      OrphanStands(s, step, untouched);
    } else if step.Damage? {
      DamageStands(s, step, untouched);
    } else {
      FilesStay(s, step);
    }
  }

  lemma {:induction false} StandingIsUntouched(s: State, steps: seq<Step>)
    requires Inv(s) && Executable(s, steps) && Done(After(s, steps))
    ensures Standing(After(s, steps), Untouched(s, steps))
    decreases |steps|
  {
    if steps != [] {
      var init, last := steps[..|steps| - 1], steps[|steps| - 1];
      Unsnoc(s, steps);
      RunKeepsGround(s, init);
      hide Inv, LeaseInv, RunsInv, PastInv, Done, Enabled, Apply, Executable, After, Standing;
      var t := After(s, init);
      if last.SimulationEnds? && last.zero {
        DoneBefore(t, last);
        EndStands(t, last);
      } else {
        if Done(t) {
          StandingIsUntouched(s, init);
        }
        StandingMoves(t, last, Untouched(s, init));
      }
    }
  }

  lemma EndStands(s: State, step: Step)
    requires Enabled(s, step) && step.SimulationEnds? && step.zero
    requires s.runs != [] && RequiredOwn(s.disk.files, |s.runs| - 1)
    ensures Standing(Apply(s, step), true)
  {
  }

  /** Of all runs whatever: a marked directory's required files are of one simulation that exited
      zero and passed validation exactly when no simulation left behind has written one of them
      since the marked one ended. */
  lemma MarkedIsCertifiedExactlyWhen(s: State, steps: seq<Step>)
    requires Inv(s) && Executable(s, steps) && After(s, steps).disk.marker.Some?
    ensures Certified(After(s, steps)) <==> Untouched(s, steps)
  {
    StandingIsUntouched(s, steps);
    RunKeepsGround(s, steps);
    hide Executable, After, Untouched;
    var t := After(s, steps);
    if Untouched(s, steps) {
      assert Required(t.disk.files, Summary);
    } else {
      var a :| Required(t.disk.files, a) && a in t.disk.files && t.disk.files[a].run !in t.exitedZero;
    }
  }

  /** Under the lease the two reads of a check are one: nobody moves the marker between. */
  lemma SkipUnderLeaseIsSound(s: State, step: Step)
    requires Ground(s) && Enabled(s, step) && step.LookArtifacts? && Apply(s, step).launches[step.l].pc.Skipped?
    ensures IsComplete(s.disk) && s.disk.marker.value in s.exitedZero && s.disk.marker.value in s.validated
    ensures Inv(s) ==> Certified(s)
  {
    assert LeaseAt(s, step.l);
  }

  // ---- a check without the lease --------------------------------------------------------------------

  /** A write of a required file, by whichever simulation. */
  predicate Disturbs(s: State, step: Step) {
    (step.SimulationWrites? || step.OrphanWrites?) && Required(s.disk.files, step.file)
  }

  /** A validation that passes, with every required file the validated simulation's own. */
  predicate Settles(s: State, step: Step) {
    step.Validate? && Valid(s.disk) && PcOf(s, step.l).Validating? && RequiredOwn(s.disk.files, PcOf(s, step.l).run)
  }

  /** No required file has been written since a start with certified files, or since a
      validation of a simulation whose own they all were. */
  ghost predicate Settled(s: State, steps: seq<Step>)
    requires Executable(s, steps)
    decreases |steps|
  {
    if steps == [] then Certified(s)
    else
      var init, last := steps[..|steps| - 1], steps[|steps| - 1];
      Unsnoc(s, steps);
      !Disturbs(After(s, init), last) && (Settles(After(s, init), last) || Settled(s, init))
  }

  lemma WriteCertifies(s: State, step: Step)
    requires RunsInv(s) && Enabled(s, step) && (step.SimulationWrites? || step.OrphanWrites?)
    ensures Certified(Apply(s, step)) <==> !Disturbs(s, step) && Certified(s)
  {
    hide Valid;
    var t := Apply(s, step);
    assert Required(t.disk.files, step.file) <==> Required(s.disk.files, step.file);
    if Disturbs(s, step) {
      assert t.disk.files[step.file].run !in s.exitedZero;
    } else {
      assert forall a :: Required(t.disk.files, a) <==> Required(s.disk.files, a);
    }
  }

  lemma OthersCertify(s: State, step: Step)
    requires RunsInv(s) && Enabled(s, step) && !step.SimulationWrites? && !step.OrphanWrites?
    ensures Certified(Apply(s, step)) <==> Settles(s, step) || Certified(s)
  {
    var t := Apply(s, step);
    assert forall a :: Required(t.disk.files, a) <==> Required(s.disk.files, a);
  }

  lemma {:induction false} CertifiedExactlyWhenSettled(s: State, steps: seq<Step>)
    requires Ground(s) && Executable(s, steps)
    ensures Certified(After(s, steps)) <==> Settled(s, steps)
    decreases |steps|
  {
    if steps != [] {
      var init, last := steps[..|steps| - 1], steps[|steps| - 1];
      Unsnoc(s, steps);
      CertifiedExactlyWhenSettled(s, init);
      RunKeepsGround(s, init);
      hide LeaseInv, RunsInv, PastInv, Executable, After, Enabled, Apply, Certified, Settles;
      if last.SimulationWrites? || last.OrphanWrites? {
        WriteCertifies(After(s, init), last);
      } else {
        OthersCertify(After(s, init), last);
      }
    }
  }

  /** A sweep's first look, which holds no lease, over whatever others do between its two reads,
      simulations left behind included: the directory it skips is certified exactly when since it
      saw the marker no required file has been written, or the last to write one has been
      validated with all of them its own (its marker may be there, still to come, or gone again). */
  lemma GlanceIsSoundExactlyWhen(s: State, l: nat, between: seq<Step>)
    requires Inv(s) && Enabled(s, GlanceMarker(l)) && s.disk.marker.Some?
    requires Executable(Apply(s, GlanceMarker(l)), between)
    requires var t := After(Apply(s, GlanceMarker(l)), between);
      Enabled(t, GlanceArtifacts(l)) && Apply(t, GlanceArtifacts(l)).launches[l].pc.Skipped?
    ensures Certified(Apply(s, GlanceMarker(l)))
    ensures Certified(After(Apply(s, GlanceMarker(l)), between)) <==> Settled(Apply(s, GlanceMarker(l)), between)
  {
    var looked := Apply(s, GlanceMarker(l));
    StepKeepsInv(s, GlanceMarker(l));
    hide Executable, After, Settled;
    assert Required(looked.disk.files, Summary);
    CertifiedExactlyWhenSettled(looked, between);
  }

  /** A look that read the artifacts first and the marker last would need no lease: it takes a
      certified directory exactly when no simulation left behind has written a required file since
      the marked one ended; and with none left behind, a complete one unless it was damaged. */
  lemma MarkerLastIsSoundExactlyWhen(s: State, steps: seq<Step>)
    requires Inv(s) && Valid(s.disk) && Executable(s, steps) && After(s, steps).disk.marker.Some?
    ensures Certified(After(s, steps)) <==> Untouched(s, steps)
    ensures NoneLeft(steps) ==> Untouched(s, steps)
    ensures NoneLeft(steps) && (forall step :: step in steps ==> !step.Damage?) ==> IsComplete(After(s, steps).disk)
  {
    hide Executable, After, Untouched, NoneLeft;
    MarkedIsCertifiedExactlyWhen(s, steps);
    var t := After(s, steps);
    if NoneLeft(steps) {
      RunKeepsInv(s, steps);
      hide LeaseInv, PastInv;
      assert Certified(t) by { assert Required(t.disk.files, Summary); }
      if forall step :: step in steps ==> !step.Damage? {
        StaysValid(s, steps);
      }
    }
  }

  /** Marked or about to be marked means valid. */
  ghost predicate ValidOnceVouched(s: State) {
    s.disk.marker.Some? || (exists l :: l in s.launches && s.launches[l].pc.Committing?) ==> Valid(s.disk)
  }

  lemma VouchedStaysValid(s: State, step: Step)
    requires Inv(s) && ValidOnceVouched(s) && Enabled(s, step) && !step.Damage? && !step.DiesAlone?
    ensures ValidOnceVouched(Apply(s, step))
  {
  }

  lemma {:induction false} StaysValid(s: State, steps: seq<Step>)
    requires Inv(s) && ValidOnceVouched(s) && Executable(s, steps)
    requires NoneLeft(steps) && (forall step :: step in steps ==> !step.Damage?)
    ensures ValidOnceVouched(After(s, steps))
    decreases |steps|
  {
    hide Inv, Enabled, Apply, ValidOnceVouched;
    if steps != [] {
      assert steps[0] in steps && forall step :: step in steps[1..] ==> step in steps;
      StepKeepsInv(s, steps[0]);
      VouchedStaysValid(s, steps[0]);
      StaysValid(Apply(s, steps[0]), steps[1..]);
    }
  }
}
