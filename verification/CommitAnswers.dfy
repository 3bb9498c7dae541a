/** What the answer of a launch means, when it skips, and what a single run has written by then
    (launcher/sweep.py:60-69, 127-262, 316-346). */
module CommitAnswers {
  import opened Common
  import opened CommitMarker

  // ---- why a launch ended ---------------------------------------------------------------------------

  /** Every file the validator reads is there and good. */
  predicate AllGood(d: Disk) {
    && Summary in d.files && d.files[Summary].good && RunMeta in d.files && d.files[RunMeta].good
    && (d.files[Summary].requests ==>
         && RequestSlo in d.files && d.files[RequestSlo].good
         && (RequestState in d.files ==> d.files[RequestState].good))
  }

  lemma ValidIsAllGood(d: Disk)
    ensures Valid(d) <==> AllGood(d)
  {
    assert Listed(d.files, Summary) && Listed(d.files, RunMeta);
    assert Listed(d.files, RequestSlo) <==> WithRequests(d.files);
    assert Listed(d.files, RequestState) <==> WithRequests(d.files) && RequestState in d.files;
  }

  datatype End = Skip | Failure | Success

  /** The step ends launch `l` so: it finds the artifacts good after it saw the marker; its prebuild,
      its simulation or the validation fails; it sets the marker. */
  predicate EndsSo(s: State, step: Step, l: nat, end: End) {
    match end
    case Skip => (step.LookArtifacts? || step.GlanceArtifacts?) && step.l == l && AllGood(s.disk)
    case Failure =>
      || (step.PrebuildFails? && step.l == l)
      || (step.SimulationEnds? && step.l == l && !step.zero)
      || (step.Validate? && step.l == l && !AllGood(s.disk))
    case Success => step.Commit? && step.l == l
  }

  predicate Ended(s: State, l: nat, end: End) {
    l in s.launches &&
    match end
    case Skip => s.launches[l].pc.Skipped?
    case Failure => s.launches[l].pc == Returned(false)
    case Success => s.launches[l].pc == Returned(true)
  }

  predicate IsDead(s: State, l: nat) {
    l in s.launches && s.launches[l].pc.Dead?
  }

  ghost predicate HasEnded(s: State, steps: seq<Step>, l: nat, end: End)
    requires Executable(s, steps)
    decreases |steps|
  {
    steps != [] && (EndsSo(s, steps[0], l, end) || HasEnded(Apply(s, steps[0]), steps[1..], l, end))
  }

  lemma EndsComeFrom(s: State, step: Step, l: nat, end: End)
    requires Enabled(s, step) && (Valid(s.disk) <==> AllGood(s.disk)) && Ended(Apply(s, step), l, end)
    ensures Ended(s, l, end) || EndsSo(s, step, l, end)
  {
    hide Valid, AllGood, RequiredOwn;
  }

  lemma EndsGive(s: State, step: Step, l: nat, end: End)
    requires Enabled(s, step) && (Valid(s.disk) <==> AllGood(s.disk))
    ensures EndsSo(s, step, l, end) ==> Ended(Apply(s, step), l, end)
    ensures Ended(s, l, end) || IsDead(s, l) ==> Ended(Apply(s, step), l, end) || IsDead(Apply(s, step), l)
  {
    hide Valid, AllGood, RequiredOwn;
  }

  lemma StepEnds(s: State, step: Step, l: nat, end: End)
    requires Enabled(s, step)
    ensures Ended(Apply(s, step), l, end) ==> Ended(s, l, end) || EndsSo(s, step, l, end)
    ensures EndsSo(s, step, l, end) ==> Ended(Apply(s, step), l, end)
    ensures Ended(s, l, end) || IsDead(s, l) ==> Ended(Apply(s, step), l, end) || IsDead(Apply(s, step), l)
  {
    ValidIsAllGood(s.disk);
    hide Enabled, Apply, EndsSo, Ended, IsDead, Valid, AllGood;
    EndsGive(s, step, l, end);
    if Ended(Apply(s, step), l, end) {
      EndsComeFrom(s, step, l, end);
    }
  }

  lemma {:induction false} RunEnds(s: State, steps: seq<Step>, l: nat, end: End)
    requires Executable(s, steps)
    ensures var t := After(s, steps);
      && (Ended(t, l, end) ==> Ended(s, l, end) || HasEnded(s, steps, l, end))
      && (HasEnded(s, steps, l, end) || Ended(s, l, end) || IsDead(s, l) ==> Ended(t, l, end) || IsDead(t, l))
    decreases |steps|
  {
    hide Enabled, Apply, EndsSo, Ended, IsDead;
    if steps != [] {
      StepEnds(s, steps[0], l, end);
      RunEnds(Apply(s, steps[0]), steps[1..], l, end);
    }
  }

  /** In every run: a launch has skipped, failed or succeeded exactly when it has come to such a
      step, and nobody has killed it since. */
  lemma AnswerExactlyWhen(steps: seq<Step>, l: nat, end: End)
    requires Executable(INITIAL, steps)
    ensures var t := After(INITIAL, steps);
      Ended(t, l, end) <==> HasEnded(INITIAL, steps, l, end) && !IsDead(t, l)
  {
    RunEnds(INITIAL, steps, l, end);
  }

  // ---- who skips --------------------------------------------------------------------------------------

  /** To look at the artifacts a launch must have seen the marker just before. */
  lemma FurtherAfterMarker(s: State, step: Step, l: nat)
    requires Enabled(s, step) && l in Apply(s, step).launches
    requires var pc := Apply(s, step).launches[l].pc; pc.LookingFurther? || pc.GlancingFurther?
    ensures PcOf(s, l) == Apply(s, step).launches[l].pc
      || ((step == LookMarker(l) || step == GlanceMarker(l)) && s.disk.marker.Some?)
  {
    hide Valid, RequiredOwn;
  }

  /** Without a refresh a launch sets out to configure its run only from a look that has found no
      marker, or artifacts that are not good; a single run looks again after its prebuild. */
  lemma ConfiguresAfterLook(s: State, step: Step, l: nat)
    requires Enabled(s, step) && l in Apply(s, step).launches && !Apply(s, step).launches[l].refresh
    requires Apply(s, step).launches[l].pc.Configuring?
    ensures PcOf(s, l).Configuring?
      || (step == LookMarker(l) && s.disk.marker == None) || (step == LookArtifacts(l) && !AllGood(s.disk))
  {
    ValidIsAllGood(s.disk);
    hide Valid, AllGood, RequiredOwn;
  }

  /** A refresh looks at nothing. */
  predicate Looks(pc: Pc) {
    pc.Looking? || pc.LookingFurther? || pc.Glancing? || pc.GlancingFurther? || pc.Skipped?
  }

  ghost predicate RefreshInv(s: State) {
    forall l :: l in s.launches && s.launches[l].refresh ==> !Looks(s.launches[l].pc)
  }

  lemma StepKeepsRefresh(s: State, step: Step)
    requires RefreshInv(s) && Enabled(s, step)
    ensures RefreshInv(Apply(s, step))
  {
    hide Valid, RequiredOwn;
  }

  /** A refresh never skips, whatever it finds. */
  lemma {:induction false} RefreshNeverSkips(s: State, steps: seq<Step>)
    requires RefreshInv(s) && Executable(s, steps)
    ensures RefreshInv(After(s, steps))
    decreases |steps|
  {
    hide RefreshInv, Enabled, Apply;
    if steps != [] {
      StepKeepsRefresh(s, steps[0]);
      RefreshNeverSkips(Apply(s, steps[0]), steps[1..]);
    }
  }

  /** With the lease free, a launch that may skip does so over a complete directory, in three steps
      that change nothing on disk, and otherwise goes on to prepare its run. */
  lemma SkipsExactlyComplete(s: State, l: nat)
    requires s.lease == None && l in s.launches && s.launches[l].pc.Waiting? && !s.launches[l].refresh
    ensures Enabled(s, Acquire(l)) && Enabled(Apply(s, Acquire(l)), LookMarker(l))
    ensures var t := Apply(Apply(s, Acquire(l)), LookMarker(l));
      var onwards := if s.launches[l].single && !s.launches[l].shared then Sharing else Configuring;
      if s.disk.marker == None then t.launches[l].pc == onwards
      else
        && Enabled(t, LookArtifacts(l))
        && var u := Apply(t, LookArtifacts(l));
           && u.disk == s.disk
           && (AllGood(s.disk) ==> u.launches[l].pc == Skipped && u.lease == None)
           && (!AllGood(s.disk) ==> u.launches[l].pc == onwards)
  {
    ValidIsAllGood(s.disk);
    hide Valid, AllGood, RequiredOwn;
  }

  // ---- what a launch has written by then -----------------------------------------------------------------

  predicate Prepares(pc: Pc) {
    pc.Configuring? || pc.Recording? || pc.Unmarking? || Unmarked(pc)
  }

  /** What a launch has put on disk by the time it stands there is still its own. */
  predicate HasWritten(s: State, launch: Launch) {
    var pc := launch.pc;
    && (pc.Recording? || pc.Unmarking? || Unmarked(pc) ==> s.disk.config == Some(launch.params))
    && (pc.Unmarking? || Unmarked(pc) ==> s.disk.metadata == Some(launch.params))
    && (launch.single && (Prepares(pc) || pc.Prebuilding?) ==> launch.shared)
    && (launch.shared && InLease(pc) ==> s.disk.shared == Some(launch.params))
    && (launch.shared ==> !pc.Waiting? && !pc.Glancing? && !pc.GlancingFurther?)
  }

  ghost predicate OwnInv(s: State) {
    forall l :: l in s.launches ==> HasWritten(s, s.launches[l])
  }

  lemma LauncherWrites(s: State, step: Step)
    requires Enabled(s, step) && !Outside(step)
    requires step.l in s.launches ==> HasWritten(s, s.launches[step.l])
    ensures var t := Apply(s, step);
      && step.l in t.launches && t.launches == s.launches[step.l := t.launches[step.l]]
      && HasWritten(t, t.launches[step.l])
      && (SameMetadata(s.disk, t.disk) || (step.l in s.launches && InLease(s.launches[step.l].pc)))
  {
    hide Valid, RequiredOwn;
  }

  predicate SameMetadata(d: Disk, e: Disk) {
    d.config == e.config && d.metadata == e.metadata && d.shared == e.shared
  }

  lemma OutsidersWriteNone(s: State, step: Step)
    requires Enabled(s, step) && Outside(step)
    ensures Apply(s, step).launches == s.launches && SameMetadata(s.disk, Apply(s, step).disk)
  {
  }

  lemma StepKeepsOwn(s: State, step: Step)
    requires LeaseInv(s) && OwnInv(s) && Enabled(s, step)
    ensures OwnInv(Apply(s, step))
  {
    hide LeaseInv, Enabled, Apply, InLease, Unmarked, Prepares;
    var t := Apply(s, step);
    if Outside(step) {
      OutsidersWriteNone(s, step);
    } else {
      LauncherWrites(s, step);
      if step.l in s.launches && InLease(s.launches[step.l].pc) {
        OneHolder(s, step.l);
      }
      forall m | m in t.launches && m != step.l ensures HasWritten(t, t.launches[m]) {
        assert HasWritten(s, s.launches[m]);
        OnlyInLeasePrepares(s.launches[m].pc);
      }
    }
  }

  lemma OnlyInLeasePrepares(pc: Pc)
    ensures pc.Recording? || pc.Unmarking? || Unmarked(pc) ==> InLease(pc)
  {
  }

  lemma {:induction false} RunKeepsOwn(s: State, steps: seq<Step>)
    requires LeaseInv(s) && OwnInv(s) && Executable(s, steps)
    ensures OwnInv(After(s, steps))
    decreases |steps|
  {
    hide LeaseInv, OwnInv, Enabled, Apply;
    if steps != [] {
      StepKeepsLease(s, steps[0]);
      StepKeepsOwn(s, steps[0]);
      RunKeepsOwn(Apply(s, steps[0]), steps[1..]);
    }
  }

  /** All metadata lands before the simulation starts: in every run, whoever dies, a launch that
      simulates, validates or commits finds its own config and metadata on disk, and, when it is a
      single run, its own preset. */
  lemma MetadataLandsFirst(steps: seq<Step>, l: nat)
    requires Executable(INITIAL, steps)
    ensures var s := After(INITIAL, steps);
      l in s.launches && HasRun(s.launches[l].pc) ==>
        && s.disk.config == s.disk.metadata == Some(s.launches[l].params)
        && (s.launches[l].single ==> s.disk.shared == Some(s.launches[l].params))
  {
    RunKeepsOwn(INITIAL, steps);
    var s := After(INITIAL, steps);
    assert l in s.launches ==> HasWritten(s, s.launches[l]);
  }
}
