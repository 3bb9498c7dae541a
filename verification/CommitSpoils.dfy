/** What a simulation left behind can spoil, and runs of launches that go wrong
    (launcher/process/supervisor.py:138-157; launcher/process/leases.py:1-6;
    launcher/sweep.py:149-160, 336-340, 440-447; launcher/process/artifacts.py:45-52). */
module CommitSpoils {
  import opened Common
  import opened CommitMarker
  import opened CommitConfig

  ghost predicate Leads(s: State, steps: seq<Step>, t: State) {
    Executable(s, steps) && After(s, steps) == t
  }

  lemma {:induction false} Extend(s: State, steps: seq<Step>, step: Step)
    requires Executable(s, steps) && Enabled(After(s, steps), step)
    ensures Executable(s, steps + [step]) && After(s, steps + [step]) == Apply(After(s, steps), step)
    decreases |steps|
  {
    hide Enabled, Apply;
    if steps == [] {
      assert [] + [step] == [step] && [step][1..] == [];
    } else {
      assert (steps + [step])[0] == steps[0] && (steps + [step])[1..] == steps[1..] + [step];
      Extend(Apply(s, steps[0]), steps[1..], step);
    }
  }

  lemma Onward(s: State, steps: seq<Step>, t: State, step: Step) returns (longer: seq<Step>, t': State)
    requires Leads(s, steps, t) && Enabled(t, step)
    ensures Leads(s, longer, t') && t' == Apply(t, step) && longer == steps + [step]
    ensures NoneLeft(longer) <==> NoneLeft(steps) && !step.DiesAlone?
  {
    hide Enabled, Apply;
    Extend(s, steps, step);
    longer, t' := steps + [step], Apply(t, step);
    assert step in longer && forall other :: other in steps ==> other in longer;
  }

  // ---- a simulation left behind ----------------------------------------------------------------------

  lemma LaunchWrites(s0: State, before: seq<Step>, s: State, l: nat, params: Params)
    returns (steps: seq<Step>, t: State)
    requires Leads(s0, before, s) && s.lease == None && l !in s.launches
    ensures Leads(s0, steps, t) && (NoneLeft(before) ==> NoneLeft(steps))
    ensures t == s.(disk := t.disk, launches := t.launches, lease := Some(l))
    ensures t.launches == s.launches[l := Launch(params, true, false, false, Unmarking)]
    ensures t.disk == s.disk.(config := Some(params), metadata := Some(params))
  {
    hide Leads, NoneLeft, Valid, RequiredOwn;
    steps, t := Onward(s0, before, s, Arrive(l, params, true, false));
    steps, t := Onward(s0, steps, t, Acquire(l));
    steps, t := Onward(s0, steps, t, WriteConfig(l));
    steps, t := Onward(s0, steps, t, WriteMetadata(l));
  }

  /** With the lease free, one more launch comes as far as its simulation. */
  lemma LaunchStarts(s0: State, before: seq<Step>, s: State, l: nat, params: Params)
    returns (steps: seq<Step>, t: State)
    requires Leads(s0, before, s) && s.lease == None && l !in s.launches
    ensures Leads(s0, steps, t) && (NoneLeft(before) ==> NoneLeft(steps))
    ensures t.launches == s.launches[l := Launch(params, true, false, false, Simulating(|s.runs|))]
    ensures t.lease == Some(l)
    ensures t.runs == s.runs + [Run(params, s.disk.files)] && t.wrote == s.wrote && t.orphans == s.orphans
    ensures t.exitedZero == s.exitedZero && t.validated == s.validated
    ensures t.disk == Disk(Some(params), Some(params), s.disk.shared, s.disk.files, None)
  {
    hide Leads, NoneLeft, Valid, RequiredOwn;
    steps, t := LaunchWrites(s0, before, s, l, params);
    steps, t := Onward(s0, steps, t, Unmark(l));
    steps, t := Onward(s0, steps, t, StartSimulation(l));
  }

  /** What a simulation leaves that writes the required files and no other. */
  function Output(files: map<Artifact, Content>, run: nat, requests: bool): map<Artifact, Content> {
    var content := Content(run, true, requests);
    files[Summary := content][RunMeta := content][RequestSlo := content]
  }

  lemma OutputIsValid(files: map<Artifact, Content>, run: nat, requests: bool)
    requires requests && RequestState in files ==> files[RequestState].good
    ensures var written := Output(files, run, requests);
      RequiredOwn(written, run) && (forall a :: Listed(written, a) ==> a in written && written[a].good)
  {
  }

  lemma OutputWritten(s0: State, before: seq<Step>, s: State, l: nat, requests: bool)
    returns (steps: seq<Step>, t: State)
    requires Leads(s0, before, s) && l in s.launches && s.launches[l].pc.Simulating?
    ensures Leads(s0, steps, t) && (NoneLeft(before) ==> NoneLeft(steps))
    ensures t == s.(disk := t.disk, wrote := t.wrote)
    ensures t.disk == s.disk.(files := Output(s.disk.files, s.launches[l].pc.run, requests))
  {
    hide Leads, NoneLeft, Valid, RequiredOwn;
    steps, t := Onward(s0, before, s, SimulationWrites(l, Summary, true, requests));
    steps, t := Onward(s0, steps, t, SimulationWrites(l, RunMeta, true, requests));
    steps, t := Onward(s0, steps, t, SimulationWrites(l, RequestSlo, true, requests));
  }

  lemma EndsWell(s0: State, before: seq<Step>, s: State, l: nat)
    returns (steps: seq<Step>, t: State)
    requires Leads(s0, before, s) && l in s.launches && s.launches[l].pc.Simulating? && s.lease == Some(l)
    requires Valid(s.disk) && RequiredOwn(s.disk.files, s.launches[l].pc.run)
    ensures Leads(s0, steps, t) && (NoneLeft(before) ==> NoneLeft(steps))
    ensures t.lease == None && t.launches.Keys == s.launches.Keys && t.runs == s.runs && t.orphans == s.orphans
    ensures var run := s.launches[l].pc.run;
      && t.disk == s.disk.(marker := Some(run))
      && t.exitedZero == s.exitedZero + {run} && t.validated == s.validated + {run}
  {
    hide Leads, NoneLeft, Valid, RequiredOwn;
    steps, t := Onward(s0, before, s, SimulationEnds(l, true));
    steps, t := Onward(s0, steps, t, Validate(l));
    steps, t := Onward(s0, steps, t, Commit(l));
  }

  /** A simulation writes what it must, ends well and is committed. */
  lemma LaunchCommits(s0: State, before: seq<Step>, s: State, l: nat, requests: bool)
    returns (steps: seq<Step>, t: State)
    requires Leads(s0, before, s) && l in s.launches && s.launches[l].pc.Simulating? && s.lease == Some(l)
    requires requests && RequestState in s.disk.files ==> s.disk.files[RequestState].good
    ensures Leads(s0, steps, t) && (NoneLeft(before) ==> NoneLeft(steps))
    ensures t.lease == None && t.launches.Keys == s.launches.Keys && t.runs == s.runs && t.orphans == s.orphans
    ensures var run := s.launches[l].pc.run;
      && t.disk == s.disk.(files := Output(s.disk.files, run, requests), marker := Some(run))
      && t.exitedZero == s.exitedZero + {run} && t.validated == s.validated + {run}
  {
    hide Leads, NoneLeft, RequiredOwn, Output;
    OutputIsValid(s.disk.files, s.launches[l].pc.run, requests);
    steps, t := OutputWritten(s0, before, s, l, requests);
    steps, t := EndsWell(s0, steps, t, l);
  }

  /** A simulation left behind writes into a directory another launch has committed. */
  lemma OrphanSpoils(s0: State, before: seq<Step>, s: State, l: nat, orphan: nat, params: Params)
    returns (steps: seq<Step>, t: State)
    requires Leads(s0, before, s) && Ground(s) && s.lease == None && l !in s.launches && orphan in s.orphans
    ensures Leads(s0, steps, t) && (NoneLeft(before) ==> NoneLeft(steps))
    ensures IsComplete(t.disk) && !Certified(t) && t.lease == None && orphan in t.orphans
    ensures t.disk.files[Summary].run == orphan && t.disk.marker == Some(|s.runs|)
    ensures t.runs == s.runs + [Run(params, s.disk.files)]
  {
    hide Leads, NoneLeft;
    steps, t := LaunchStarts(s0, before, s, l, params);
    steps, t := LaunchCommits(s0, steps, t, l, false);
    steps, t := Onward(s0, steps, t, OrphanWrites(orphan, Summary, true, false));
  }

  /** Without another such death, the directory can come to be accepted with a required file of a
      simulation nobody saw exit. */
  ghost predicate CanSpoil(s: State) {
    exists steps ::
      Executable(s, steps) && NoneLeft(steps) && IsComplete(After(s, steps).disk) && !Certified(After(s, steps))
  }

  lemma LoneDeathSpoils(s: State, l: nat)
    requires Inv(s) && Enabled(s, DiesAlone(l))
    ensures CanSpoil(Apply(s, DiesAlone(l)))
  {
    var t := Apply(s, DiesAlone(l));
    StepKeepsGround(s, DiesAlone(l));
    assert LeaseAt(s, l);
    hide Ground;
    assert Leads(t, [], t);
    var m := FreshNumber(t.launches.Keys);
    var steps, u := OrphanSpoils(t, [], t, m, PcOf(s, l).run, "");
  }

  lemma SafeStepsStaySafe(s: State, step: Step)
    requires Inv(s) && Enabled(s, step) && !step.DiesAlone?
    ensures !CanSpoil(Apply(s, step))
  {
    StepKeepsInv(s, step);
    var t := Apply(s, step);
    hide Inv, Enabled, Apply;
    forall steps | Executable(t, steps) && NoneLeft(steps) && IsComplete(After(t, steps).disk)
      ensures Certified(After(t, steps))
    {
      MarkedAreCertified(t, steps);
    }
  }

  lemma MarkedAreCertified(s: State, steps: seq<Step>)
    requires Inv(s) && Executable(s, steps) && NoneLeft(steps) && After(s, steps).disk.marker.Some?
    ensures Certified(After(s, steps))
  {
    RunKeepsInv(s, steps);
    hide Executable, After;
    assert Required(After(s, steps).disk.files, Summary);
  }

  /** From any sound state, a step opens the way to such a directory exactly when it is a death
      that leaves a simulation. */
  lemma SpoiltExactlyAfterLoneDeath(s: State, step: Step)
    requires Inv(s) && Enabled(s, step)
    ensures CanSpoil(Apply(s, step)) <==> step.DiesAlone?
  {
    hide CanSpoil, Inv;
    if step.DiesAlone? {
      LoneDeathSpoils(s, step.l);
    } else {
      SafeStepsStaySafe(s, step);
    }
  }

  // ---- runs that go wrong -----------------------------------------------------------------------------

  lemma Reached(steps: seq<Step>, s: State)
    requires Leads(INITIAL, steps, s)
    ensures Executable(INITIAL, steps) && After(INITIAL, steps) == s
  {
  }

  /** A first run that is committed. */
  lemma OneRunCommits(params: Params) returns (steps: seq<Step>, s: State)
    ensures Leads(INITIAL, steps, s) && NoneLeft(steps)
    ensures s.lease == None && s.launches.Keys == {0} && s.runs == [Run(params, map[])]
    ensures s.disk == Disk(Some(params), Some(params), None, Output(map[], 0, false), Some(0)) && s.exitedZero == {0}
  {
    assert Leads(INITIAL, [], INITIAL) && NoneLeft([]);
    hide Leads, NoneLeft;
    steps, s := LaunchStarts(INITIAL, [], INITIAL, 0, params);
    steps, s := LaunchCommits(INITIAL, steps, s, 0, false);
  }

  /** A launcher dies and its simulation goes on; another launch runs and is committed; then the
      first simulation writes: marker and validator vouch for a run of other params, still going. */
  lemma OrphanWritesIntoMarkedRun(was: Params, other: Params) returns (steps: seq<Step>)
    ensures Executable(INITIAL, steps)
    ensures var s := After(INITIAL, steps);
      && IsComplete(s.disk) && s.disk.marker == Some(1) && 1 < |s.runs| && s.runs[1].params == other
      && s.disk.files[Summary].run == 0 && s.runs[0].params == was && 0 in s.orphans
  {
    var s: State;
    assert Leads(INITIAL, [], INITIAL);
    hide Leads;
    steps, s := LaunchStarts(INITIAL, [], INITIAL, 0, was);
    steps, s := Onward(INITIAL, steps, s, DiesAlone(0));
    Reached(steps, s);
    assert Ground(INITIAL);
    RunKeepsGround(INITIAL, steps);
    hide Ground;
    steps, s := OrphanSpoils(INITIAL, steps, s, 1, 0, other);
    Reached(steps, s);
  }

  /** Nobody dies: a run that fails leaves `request_state`, the next one admits no request, writes
      none and is committed; the other's file is listed as accepted. */
  lemma StaleStateIsAccepted(was: Params, other: Params) returns (steps: seq<Step>)
    ensures Executable(INITIAL, steps) && NoneLeft(steps)
    ensures var s := After(INITIAL, steps);
      && IsComplete(s.disk) && s.disk.marker == Some(1) && 1 < |s.runs| && s.runs[1].params == other
      && Listed(s.disk.files, RequestState) && s.disk.files[RequestState].run == 0
      && s.runs[0].params == was && 0 !in s.exitedZero
  {
    var s: State;
    assert Leads(INITIAL, [], INITIAL) && NoneLeft([]);
    hide Leads, NoneLeft;
    steps, s := LaunchStarts(INITIAL, [], INITIAL, 0, was);
    steps, s := Onward(INITIAL, steps, s, SimulationWrites(0, RequestState, true, true));
    steps, s := Onward(INITIAL, steps, s, SimulationEnds(0, false));
    steps, s := LaunchStarts(INITIAL, steps, s, 1, other);
    steps, s := LaunchCommits(INITIAL, steps, s, 1, true);
    Reached(steps, s);
  }

  /** A refresh with other params that dies between config and metadata leaves a directory that is
      accepted, with a config its run was not made with. */
  lemma DeathLeavesForeignConfig(was: Params, other: Params) returns (steps: seq<Step>)
    requires was != other
    ensures Executable(INITIAL, steps)
    ensures var s := After(INITIAL, steps);
      IsComplete(s.disk) && s.lease == None && MarkedParams(s) == Some(was) && s.disk.config == Some(other)
  {
    var s: State;
    steps, s := OneRunCommits(was);
    hide Leads, NoneLeft;
    steps, s := Onward(INITIAL, steps, s, Arrive(1, other, true, false));
    steps, s := Onward(INITIAL, steps, s, Acquire(1));
    steps, s := Onward(INITIAL, steps, s, WriteConfig(1));
    steps, s := Onward(INITIAL, steps, s, Dies(1));
    Reached(steps, s);
  }

  /** Nobody dies: a single run is refreshed with another preset and its prebuild fails; the old
      marker and artifacts stand beside the new preset. */
  lemma FailedPrebuildLeavesForeignPreset(was: Params, other: Params) returns (steps: seq<Step>)
    requires was != other
    ensures Executable(INITIAL, steps)
    ensures var s := After(INITIAL, steps);
      && IsComplete(s.disk) && s.lease == None && MarkedParams(s) == Some(was) && s.disk.shared == Some(other)
      && s.launches.Keys == {0, 1} && s.launches[1].pc == Returned(false)
  {
    var s: State;
    steps, s := OneRunCommits(was);
    hide Leads, NoneLeft;
    steps, s := Onward(INITIAL, steps, s, Arrive(1, other, true, true));
    steps, s := Onward(INITIAL, steps, s, Acquire(1));
    steps, s := Onward(INITIAL, steps, s, WriteShared(1));
    steps, s := Onward(INITIAL, steps, s, PrebuildFails(1));
    Reached(steps, s);
  }

  lemma PrebuildFailsFirst(params: Params) returns (steps: seq<Step>, s: State)
    ensures Leads(INITIAL, steps, s) && s.lease == None && s.launches.Keys == {0}
    ensures s.disk == INITIAL.disk.(shared := Some(params)) && s.runs == []
  {
    assert Leads(INITIAL, [], INITIAL);
    hide Leads, NoneLeft, Valid, RequiredOwn;
    steps, s := Onward(INITIAL, [], INITIAL, Arrive(0, params, false, true));
    steps, s := Onward(INITIAL, steps, s, Acquire(0));
    steps, s := Onward(INITIAL, steps, s, LookMarker(0));
    steps, s := Onward(INITIAL, steps, s, WriteShared(0));
    steps, s := Onward(INITIAL, steps, s, PrebuildFails(0));
  }

  /** Nobody dies: a sweep's run in a directory where a single run has left its preset. */
  lemma SweepRunKeepsForeignPreset(was: Params, other: Params) returns (steps: seq<Step>)
    requires was != other
    ensures Executable(INITIAL, steps)
    ensures var s := After(INITIAL, steps);
      IsComplete(s.disk) && s.lease == None && MarkedParams(s) == Some(other) && s.disk.shared == Some(was)
  {
    var s: State;
    hide Leads, NoneLeft;
    steps, s := PrebuildFailsFirst(was);
    steps, s := LaunchStarts(INITIAL, steps, s, 1, other);
    steps, s := LaunchCommits(INITIAL, steps, s, 1, false);
    Reached(steps, s);
  }

  /** A sweep's first look holds no lease on the directory: between its two reads another launch
      may begin again, and artifacts still being written are taken for a finished run. */
  lemma GlanceCanSkipRunningSimulation(params: Params) returns (steps: seq<Step>)
    ensures Executable(INITIAL, steps)
    ensures var s := After(INITIAL, steps);
      && 1 in s.launches && s.launches[1].pc == Skipped
      && 2 in s.launches && s.launches[2].pc == Simulating(1)
      && Summary in s.disk.files && s.disk.files[Summary].run == 1 && 1 !in s.exitedZero
  {
    var s: State;
    steps, s := OneRunCommits(params);
    hide Leads, NoneLeft;
    steps, s := Onward(INITIAL, steps, s, Arrive(1, params, false, false));
    steps, s := Onward(INITIAL, steps, s, GlanceMarker(1));
    steps, s := LaunchStarts(INITIAL, steps, s, 2, params);
    steps, s := Onward(INITIAL, steps, s, SimulationWrites(2, Summary, true, false));
    steps, s := Onward(INITIAL, steps, s, GlanceArtifacts(1));
    Reached(steps, s);
  }
}
