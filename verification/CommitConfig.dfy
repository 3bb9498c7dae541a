/** Whose config, metadata and preset a run directory stores
    (launcher/sweep.py:149-160, 316-346; launcher/metadata.py:189-197). */
module CommitConfig {
  import opened Common
  import opened CommitMarker

  /** What the run the marker stands for was made with. */
  function MarkedParams(s: State): Option<Params> {
    if s.disk.marker.Some? && s.disk.marker.value < |s.runs| then Some(s.runs[s.disk.marker.value].params) else None
  }

  /** The marked run was made with other params than this launch's. */
  predicate Foreign(s: State, l: nat) {
    l in s.launches && MarkedParams(s).Some? && MarkedParams(s).value != s.launches[l].params
  }

  // ---- config and metadata ---------------------------------------------------------------------------

  predicate ConfigMatches(s: State) {
    MarkedParams(s).Some? ==> s.disk.config == s.disk.metadata == MarkedParams(s)
  }

  predicate Rewriting(pc: Pc) {
    pc.Recording? || pc.Unmarking?
  }

  /** What a launch past its first write has written; otherwise the directory matches. */
  ghost predicate ConfigInv(s: State) {
    && (forall l :: l in s.launches ==> Written(s, s.launches[l]))
    && ((forall l :: l in s.launches ==> !Rewriting(s.launches[l].pc)) ==> ConfigMatches(s))
  }

  predicate Written(s: State, launch: Launch) {
    && (launch.pc.Unmarking? || Unmarked(launch.pc) ==> s.disk.config == s.disk.metadata == Some(launch.params))
    && (launch.pc.Recording? ==> s.disk.config == Some(launch.params))
    && (launch.pc.Recording? && MarkedParams(s).Some? ==> s.disk.metadata == MarkedParams(s))
  }

  /** Dies with config or metadata put beside the marker of a run of other params. */
  predicate LeavesConfig(s: State, step: Step) {
    step.Dies? && Rewriting(PcOf(s, step.l)) && Foreign(s, step.l)
  }

  lemma DyingMovesConfig(s: State, l: nat)
    requires LeaseInv(s) && ConfigInv(s) && l in s.launches
    ensures ConfigInv(Leave(s, l, Dead)) <==> !LeavesConfig(s, Dies(l))
  {
    var t := Leave(s, l, Dead);
    assert Written(s, s.launches[l]);
    assert forall m :: m in s.launches && m != l ==> t.launches[m] == s.launches[m];
    if Rewriting(s.launches[l].pc) {
      OneHolder(s, l);
      assert forall m :: m in t.launches ==> !Rewriting(t.launches[m].pc);
    }
  }

  predicate MovesDisk(step: Step) {
    step.WriteConfig? || step.WriteMetadata? || step.Unmark? || step.Commit?
  }

  lemma WritesKeepConfig(s: State, step: Step)
    requires LeaseInv(s) && RunsInv(s) && ConfigInv(s) && Enabled(s, step) && MovesDisk(step)
    ensures ConfigInv(Apply(s, step))
  {
    hide Valid, RequiredOwn;
    var t := Apply(s, step);
    OneHolder(s, step.l);
    hide LeaseInv;
    assert Written(s, s.launches[step.l]);
    match step
    case WriteConfig(l) => assert Rewriting(t.launches[l].pc);
    case WriteMetadata(l) => assert Rewriting(t.launches[l].pc);
    case Unmark(l) => assert MarkedParams(t) == None;
    case Commit(l) => assert Watches(s, s.launches[l]);
  }

  /** The rest change neither what is stored nor whose marker it is. */
  lemma OthersMove(s: State, step: Step)
    requires LeaseInv(s) && Enabled(s, step) && !MovesDisk(step)
    ensures var t := Apply(s, step);
      MarkedParams(t) == MarkedParams(s) && t.disk.config == s.disk.config && t.disk.metadata == s.disk.metadata
  {
    hide Valid, RequiredOwn;
    if step.StartSimulation? {
      assert LeaseAt(s, step.l);
    }
  }

  lemma OthersStay(s: State, step: Step)
    requires Enabled(s, step) && !Outside(step) && !MovesDisk(step) && !step.Dies?
    ensures var t := Apply(s, step);
      && step.l in t.launches && t.launches == s.launches[step.l := t.launches[step.l]]
      && !Rewriting(PcOf(s, step.l)) && !Rewriting(PcOf(t, step.l))
      && (Unmarked(PcOf(t, step.l)) ==>
           step.l in s.launches && Unmarked(PcOf(s, step.l)) && t.launches[step.l].params == s.launches[step.l].params)
  {
    hide Valid, RequiredOwn;
  }

  lemma UnchangedKeepsConfig(s: State, t: State, l: nat)
    requires ConfigInv(s) && MarkedParams(t) == MarkedParams(s)
    requires t.disk.config == s.disk.config && t.disk.metadata == s.disk.metadata
    requires l in t.launches && t.launches == s.launches[l := t.launches[l]]
    requires !Rewriting(PcOf(s, l)) && Written(t, t.launches[l]) && !Rewriting(t.launches[l].pc)
    ensures ConfigInv(t)
  {
    assert forall m :: m in s.launches && m != l ==> m in t.launches && t.launches[m] == s.launches[m];
  }

  lemma OthersKeepConfig(s: State, step: Step)
    requires LeaseInv(s) && ConfigInv(s) && Enabled(s, step) && !step.Dies? && !MovesDisk(step)
    ensures ConfigInv(Apply(s, step))
  {
    OthersMove(s, step);
    var t := Apply(s, step);
    if Outside(step) {
      assert t.launches == s.launches;
      hide Enabled, Apply, LeaseInv;
      assert forall l :: l in s.launches ==> Written(s, s.launches[l]);
    } else {
      OthersStay(s, step);
      hide Enabled, Apply, LeaseInv;
      assert step.l in s.launches ==> Written(s, s.launches[step.l]);
      UnchangedKeepsConfig(s, t, step.l);
    }
  }

  /** Config and metadata belong to the marked run after a step exactly when the step is not a
      death between the config write and the unlink, beside the marker of a run of other params. */
  lemma StepKeepsConfig(s: State, step: Step)
    requires Ground(s) && ConfigInv(s) && Enabled(s, step)
    ensures ConfigInv(Apply(s, step)) <==> !LeavesConfig(s, step)
  {
    hide RunsInv, LeaseInv, PastInv, ConfigInv;
    if step.Dies? {
      DyingMovesConfig(s, step.l);
    } else if MovesDisk(step) {
      WritesKeepConfig(s, step);
    } else {
      OthersKeepConfig(s, step);
    }
  }

  // ---- preset and git snapshot -------------------------------------------------------------------------

  predicate SharedMatches(s: State) {
    MarkedParams(s).Some? && s.disk.shared.Some? ==> s.disk.shared == MarkedParams(s)
  }

  /** Shared metadata written, old marker still there. */
  predicate Pending(launch: Launch) {
    launch.shared && InLease(launch.pc) && !Unmarked(launch.pc)
  }

  ghost predicate SharedInv(s: State) {
    && (forall l :: l in s.launches && s.launches[l].shared ==> Shared(s, s.launches[l]))
    && ((forall l :: l in s.launches ==> !Pending(s.launches[l])) ==> SharedMatches(s))
  }

  predicate Shared(s: State, launch: Launch) {
    || (InLease(launch.pc) && s.disk.shared == Some(launch.params))
    || launch.pc.Returned? || launch.pc.Skipped? || launch.pc.Dead?
  }

  /** A launch gives the directory up between its shared metadata and the unlink, by a failed
      prebuild, a death or a skip, beside the marker of a run of other params. */
  predicate LeavesShared(s: State, step: Step) {
    && (step.PrebuildFails? || step.Dies? || (step.LookArtifacts? && Valid(s.disk)))
    && step.l in s.launches && Pending(s.launches[step.l]) && Foreign(s, step.l)
  }

  /** A sweep's run, which writes no preset here, is marked beside a single run's of other params. */
  predicate MarksBesideForeign(s: State, step: Step) {
    && step.Commit? && step.l in s.launches && !s.launches[step.l].shared
    && s.disk.shared.Some? && s.disk.shared.value != s.launches[step.l].params
  }

  predicate MovesShared(step: Step) {
    step.WriteShared? || step.Unmark? || step.Commit? || step.LookArtifacts? || step.PrebuildFails? || step.Dies?
  }

  lemma LeavingMovesShared(s: State, l: nat, pc: Pc)
    requires SharedInv(s) && l in s.launches && InLease(s.launches[l].pc)
    requires pc.Returned? || pc.Skipped? || pc.Dead?
    requires forall m :: m in s.launches && m != l ==> !InLease(s.launches[m].pc)
    ensures SharedInv(Leave(s, l, pc)) <==> !(Pending(s.launches[l]) && Foreign(s, l))
  {
    var t := Leave(s, l, pc);
    assert s.launches[l].shared ==> Shared(s, s.launches[l]);
    assert forall m :: m in s.launches && m != l ==> t.launches[m] == s.launches[m] && !Pending(t.launches[m]);
  }

  lemma LeaversKeepShared(s: State, step: Step)
    requires step.LookArtifacts? || step.PrebuildFails? || step.Dies?
    requires SharedInv(s) && Enabled(s, step) && InLease(PcOf(s, step.l))
    requires forall m :: m in s.launches && m != step.l ==> !InLease(s.launches[m].pc)
    ensures SharedInv(Apply(s, step)) <==> !LeavesShared(s, step)
  {
    hide Valid, RequiredOwn;
    if step.LookArtifacts? && !Valid(s.disk) {
      assert s.launches[step.l].shared ==> Shared(s, s.launches[step.l]);
      UnchangedKeepsShared(s, Apply(s, step), step.l);
    } else {
      LeavingMovesShared(s, step.l, if step.LookArtifacts? then Skipped else if step.Dies? then Dead else Returned(false));
    }
  }

  lemma WritersKeepShared(s: State, step: Step)
    requires step.WriteShared? || step.Unmark? || step.Commit?
    requires RunsInv(s) && SharedInv(s) && Enabled(s, step) && InLease(PcOf(s, step.l))
    requires forall m :: m in s.launches && m != step.l ==> !InLease(s.launches[m].pc)
    ensures SharedInv(Apply(s, step)) <==> !MarksBesideForeign(s, step)
  {
    var t := Apply(s, step);
    assert t.launches == s.launches[step.l := t.launches[step.l]];
    assert s.launches[step.l].shared ==> Shared(s, s.launches[step.l]);
    if step.Commit? {
      assert Watches(s, s.launches[step.l]);
    }
    hide RunsInv;
    assert forall m :: m in s.launches && m != step.l ==> t.launches[m] == s.launches[m] && !Pending(t.launches[m]);
  }

  lemma SharedStays(s: State, step: Step)
    requires Enabled(s, step) && !Outside(step)
    requires step.l in s.launches && s.launches[step.l].shared ==> Shared(s, s.launches[step.l])
    requires !MovesShared(step) || !InLease(PcOf(s, step.l))
    ensures var t := Apply(s, step);
      && t.disk.shared == s.disk.shared
      && step.l in t.launches && t.launches == s.launches[step.l := t.launches[step.l]]
      && (t.launches[step.l].shared ==> Shared(t, t.launches[step.l]))
      && (Pending(t.launches[step.l]) <==> step.l in s.launches && Pending(s.launches[step.l]))
  {
    hide RequiredOwn, Valid;
  }

  lemma UnchangedKeepsShared(s: State, t: State, l: nat)
    requires SharedInv(s) && MarkedParams(t) == MarkedParams(s) && t.disk.shared == s.disk.shared
    requires l in t.launches && t.launches == s.launches[l := t.launches[l]]
    requires t.launches[l].shared ==> Shared(t, t.launches[l])
    requires Pending(t.launches[l]) <==> l in s.launches && Pending(s.launches[l])
    ensures SharedInv(t)
  {
    hide Pending;
    assert forall m :: m in s.launches && m != l ==>
      && m in t.launches && t.launches[m] == s.launches[m]
      && (Shared(s, s.launches[m]) ==> Shared(t, s.launches[m]));
  }

  lemma OthersKeepShared(s: State, step: Step)
    requires LeaseInv(s) && SharedInv(s) && Enabled(s, step)
    requires !MovesShared(step) || !InLease(PcOf(s, step.l))
    ensures SharedInv(Apply(s, step)) && !LeavesShared(s, step) && !MarksBesideForeign(s, step)
  {
    var t := Apply(s, step);
    SharedMarkStays(s, step);
    if Outside(step) {
      assert t.launches == s.launches && t.disk.shared == s.disk.shared;
      hide Enabled, Apply, LeaseInv;
      assert forall l :: l in s.launches && Shared(s, s.launches[l]) ==> Shared(t, s.launches[l]);
    } else {
      SharedStays(s, step);
      UnchangedKeepsShared(s, t, step.l);
      hide Apply, LeaseInv, SharedInv;
    }
  }

  lemma SharedMarkStays(s: State, step: Step)
    requires LeaseInv(s) && Enabled(s, step) && (!MovesShared(step) || !InLease(PcOf(s, step.l)))
    ensures MarkedParams(Apply(s, step)) == MarkedParams(s)
  {
    hide RequiredOwn, Valid;
    if step.StartSimulation? {
      assert LeaseAt(s, step.l);
    }
  }

  /** The stored preset and git snapshot, if any, belong to the marked run after a step exactly
      when no launch leaves between writing its own and the unlink, beside a run of other params,
      and no sweep's run is marked beside a single run's of other params. */
  lemma StepKeepsShared(s: State, step: Step)
    requires Ground(s) && SharedInv(s) && Enabled(s, step)
    ensures SharedInv(Apply(s, step)) <==> !LeavesShared(s, step) && !MarksBesideForeign(s, step)
  {
    hide RunsInv, LeaseInv, PastInv, SharedInv, Apply, Enabled;
    if MovesShared(step) && InLease(PcOf(s, step.l)) {
      OneHolder(s, step.l);
      if step.WriteShared? || step.Unmark? || step.Commit? {
        WritersKeepShared(s, step);
      } else {
        LeaversKeepShared(s, step);
      }
    } else {
      OthersKeepShared(s, step);
    }
  }

  // ---- whole runs -----------------------------------------------------------------------------------------

  ghost predicate NeverLeavesConfig(s: State, steps: seq<Step>)
    requires Executable(s, steps)
    decreases |steps|
  {
    steps == [] || (!LeavesConfig(s, steps[0]) && NeverLeavesConfig(Apply(s, steps[0]), steps[1..]))
  }

  ghost predicate NeverLeavesShared(s: State, steps: seq<Step>)
    requires Executable(s, steps)
    decreases |steps|
  {
    || steps == []
    || (&& !LeavesShared(s, steps[0]) && !MarksBesideForeign(s, steps[0])
        && NeverLeavesShared(Apply(s, steps[0]), steps[1..]))
  }

  lemma {:induction false} RunKeepsConfig(s: State, steps: seq<Step>)
    requires Ground(s) && ConfigInv(s) && Executable(s, steps) && NeverLeavesConfig(s, steps)
    ensures ConfigInv(After(s, steps))
    decreases |steps|
  {
    hide Ground, ConfigInv, Enabled, Apply, LeavesConfig;
    if steps != [] {
      StepKeepsGround(s, steps[0]);
      StepKeepsConfig(s, steps[0]);
      RunKeepsConfig(Apply(s, steps[0]), steps[1..]);
    }
  }

  lemma {:induction false} RunKeepsShared(s: State, steps: seq<Step>)
    requires Ground(s) && SharedInv(s) && Executable(s, steps) && NeverLeavesShared(s, steps)
    ensures SharedInv(After(s, steps))
    decreases |steps|
  {
    hide Ground, SharedInv, Enabled, Apply, LeavesShared, MarksBesideForeign;
    if steps != [] {
      StepKeepsGround(s, steps[0]);
      StepKeepsShared(s, steps[0]);
      RunKeepsShared(Apply(s, steps[0]), steps[1..]);
    }
  }

  /** With no death between the config write and the unlink, an accepted directory nobody is
      launching in stores the config and metadata of the run its marker stands for. */
  lemma AcceptedConfigMatches(steps: seq<Step>)
    requires Executable(INITIAL, steps) && NeverLeavesConfig(INITIAL, steps)
    ensures var s := After(INITIAL, steps);
      s.lease == None && IsComplete(s.disk) ==>
        s.disk.marker.value < |s.runs| && s.disk.config == s.disk.metadata == Some(s.runs[s.disk.marker.value].params)
  {
    RunKeepsGround(INITIAL, steps);
    RunKeepsConfig(INITIAL, steps);
    var s := After(INITIAL, steps);
    assert forall l :: l in s.launches ==> LeaseAt(s, l);
  }

  /** Likewise its preset, if it stores one. */
  lemma AcceptedPresetMatches(steps: seq<Step>)
    requires Executable(INITIAL, steps) && NeverLeavesShared(INITIAL, steps)
    ensures var s := After(INITIAL, steps);
      s.lease == None && IsComplete(s.disk) && s.disk.shared.Some? ==>
        s.disk.marker.value < |s.runs| && s.disk.shared == Some(s.runs[s.disk.marker.value].params)
  {
    RunKeepsGround(INITIAL, steps);
    RunKeepsShared(INITIAL, steps);
    var s := After(INITIAL, steps);
    assert forall l :: l in s.launches ==> LeaseAt(s, l);
  }
}
