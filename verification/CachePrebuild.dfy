/** Any number of launchers filling and using one profile database: the double-checked build
    under shared and exclusive leases (launcher/cache_build.py:137-287) and the simulations
    that follow it (launcher/sweep.py:181-195). */
module CachePrebuild {
  import opened Common
  import opened CacheKey

  type Row = string

  /** Equal keys need the same rows: what a parameter set needs is a function of its key. */
  type Needs = Key -> set<Row>

  /** Where `prebuild_caches` stands. `at` counts the sets dealt with in the current loop. */
  datatype Pc =
    | Ready                                                       // wants the shared lease
    | Probing(at: nat, pending: seq<Config>)                      // holds it
    | Waiting(pending: seq<Config>)                               // wants the exclusive lease
    | Rechecking(at: nat, pending: seq<Config>)                   // holds it, as do the next three
    | Deciding(at: nat, pending: seq<Config>, missing: nat)
    | Filling(at: nat, pending: seq<Config>, todo: set<Row>)      // its builder runs
    | Verifying(at: nat, pending: seq<Config>)
    | Returned(ok: bool)
    | Dead

  datatype Launcher = Launcher(params: seq<Config>, pc: Pc)

  /** A running simulation; `todo` are the rows it found missing when it started. */
  datatype Sim = Sim(launcher: nat, config: Config, todo: set<Row>)

  datatype Holder = Prober(launcher: nat) | Simulation(id: nat)

  /** A child that outlived its launcher, whose leases the kernel has released. */
  datatype Orphan =
    | Builder(launcher: nat, key: Key, todo: set<Row>)
    | Simulator(id: nat, config: Config, todo: set<Row>)

  datatype State = State(
    rows: set<Row>,
    readers: set<Holder>,
    writer: Option<nat>,
    launchers: map<nat, Launcher>,
    sims: map<nat, Sim>,
    orphans: set<Orphan>,
    fills: seq<Key>,       // every build ever started
    built: seq<Row>)       // every row ever written

  datatype Step =
    | Arrive(l: nat, params: seq<Config>)
    | LeaseShared(l: nat)
    | Probe(l: nat, ok: bool)
    | ProbesDone(l: nat)
    | LeaseExclusive(l: nat)
    | Recheck(l: nat, ok: bool)
    | NoGpu(l: nat)
    | StartFill(l: nat)
    | FillRow(l: nat, row: Row)
    | FillEnds(l: nat, ok: bool)
    | Verify(l: nat, ok: bool)
    | RechecksDone(l: nat)
    | StartSim(l: nat, id: nat, config: Config)
    | SimFills(id: nat, row: Row)
    | EndSim(id: nat)
    | Dies(l: nat)
    | DiesAlone(l: nat)                // its children live on
    | OrphanFills(orphan: Orphan, row: Row)
    | OrphanEnds(orphan: Orphan)

  function MissingRows(need: Needs, rows: set<Row>, c: Config): set<Row> {
    need(KeyOf(c)) - rows
  }

  predicate Covered(need: Needs, rows: set<Row>, c: Config) {
    MissingRows(need, rows, c) == {}
  }

  predicate InExclusive(pc: Pc) {
    pc.Rechecking? || pc.Deciding? || pc.Filling? || pc.Verifying?
  }

  function PcOf(s: State, l: nat): Pc {
    if l in s.launchers then s.launchers[l].pc else Dead
  }

  function RepsOf(s: State, l: nat): seq<Config> {
    if l in s.launchers then Representatives(s.launchers[l].params) else []
  }

  ghost predicate Enabled(need: Needs, s: State, step: Step) {
    match step
    case Arrive(l, params) => l !in s.launchers
    case LeaseShared(l) => PcOf(s, l).Ready? && s.writer == None
    case Probe(l, ok) => PcOf(s, l).Probing? && PcOf(s, l).at < |RepsOf(s, l)|
    case ProbesDone(l) => PcOf(s, l).Probing? && PcOf(s, l).at == |RepsOf(s, l)|
    case LeaseExclusive(l) => PcOf(s, l).Waiting? && s.writer == None && s.readers == {}
    case Recheck(l, ok) => PcOf(s, l).Rechecking? && PcOf(s, l).at < |PcOf(s, l).pending|
    case NoGpu(l) => PcOf(s, l).Deciding?
    case StartFill(l) => PcOf(s, l).Deciding? && PcOf(s, l).at < |PcOf(s, l).pending|
    case FillRow(l, row) => PcOf(s, l).Filling? && row in PcOf(s, l).todo
    case FillEnds(l, ok) => PcOf(s, l).Filling?
    case Verify(l, ok) => PcOf(s, l).Verifying? && PcOf(s, l).at < |PcOf(s, l).pending|
    case RechecksDone(l) => PcOf(s, l).Rechecking? && PcOf(s, l).at == |PcOf(s, l).pending|
    case StartSim(l, id, config) =>
      && PcOf(s, l) == Returned(true) && config in s.launchers[l].params
      && id !in s.sims && s.writer == None
    case SimFills(id, row) => id in s.sims && row in s.sims[id].todo
    case EndSim(id) => id in s.sims
    case Dies(l) => l in s.launchers
    case DiesAlone(l) => l in s.launchers
    case OrphanFills(o, row) => o in s.orphans && row in o.todo
    case OrphanEnds(o) => o in s.orphans
  }

  function Move(s: State, l: nat, pc: Pc): State
    requires l in s.launchers
  {
    s.(launchers := s.launchers[l := s.launchers[l].(pc := pc)])
  }

  /** Leaves the function, and with it the lease it holds. */
  function Leave(s: State, l: nat, pc: Pc): State
    requires l in s.launchers
  {
    Move(s, l, pc).(readers := s.readers - {Prober(l)}, writer := if s.writer == Some(l) then None else s.writer)
  }

  function SimsOf(s: State, l: nat): set<nat> {
    set id | id in s.sims && s.sims[id].launcher == l
  }

  function Died(s: State, l: nat): State
    requires l in s.launchers
  {
    var t := Leave(s, l, Dead);
    t.(readers := t.readers - (set id | id in SimsOf(s, l) :: Simulation(id)), sims := s.sims - SimsOf(s, l))
  }

  function Children(s: State, l: nat): set<Orphan>
    requires l in s.launchers
  {
    var pc := s.launchers[l].pc;
    (if pc.Filling? && pc.at < |pc.pending| then {Builder(l, KeyOf(pc.pending[pc.at]), pc.todo)} else {})
    + (set id | id in SimsOf(s, l) :: Simulator(id, s.sims[id].config, s.sims[id].todo))
  }

  function DiedAlone(s: State, l: nat): State
    requires l in s.launchers
  {
    Died(s, l).(orphans := s.orphans + Children(s, l))
  }

  function Wrote(s: State, row: Row): State {
    s.(rows := s.rows + {row}, built := s.built + [row])
  }

  ghost function Apply(need: Needs, s: State, step: Step): State
    requires Enabled(need, s, step)
  {
    match step
    case Arrive(l, params) => s.(launchers := s.launchers[l := Launcher(params, Ready)])
    case LeaseShared(l) => Move(s, l, Probing(0, [])).(readers := s.readers + {Prober(l)})
    case Probe(l, ok) =>
      var pc, c := PcOf(s, l), RepsOf(s, l)[PcOf(s, l).at];
      if !ok then Leave(s, l, Returned(false))
      else Move(s, l, Probing(pc.at + 1, if Covered(need, s.rows, c) then pc.pending else pc.pending + [c]))
    case ProbesDone(l) =>
      Leave(s, l, if PcOf(s, l).pending == [] then Returned(true) else Waiting(PcOf(s, l).pending))
    case LeaseExclusive(l) => Move(s, l, Rechecking(0, PcOf(s, l).pending)).(writer := Some(l))
    case Recheck(l, ok) =>
      var pc := PcOf(s, l);
      var missing := |MissingRows(need, s.rows, pc.pending[pc.at])|;
      if !ok then Leave(s, l, Returned(false))
      else Move(s, l, if missing == 0 then Rechecking(pc.at + 1, pc.pending) else Deciding(pc.at, pc.pending, missing))
    case NoGpu(l) => Leave(s, l, Returned(false))
    case StartFill(l) =>
      var pc := PcOf(s, l);
      // the builder reads the database once, as it starts, and then works off what it missed
      Move(s, l, Filling(pc.at, pc.pending, MissingRows(need, s.rows, pc.pending[pc.at])))
        .(fills := s.fills + [KeyOf(pc.pending[pc.at])])
    case FillRow(l, row) =>
      var pc := PcOf(s, l);
      Wrote(Move(s, l, pc.(todo := pc.todo - {row})), row)
    case FillEnds(l, ok) =>
      var pc := PcOf(s, l);
      if ok then Move(s, l, Verifying(pc.at, pc.pending)) else Leave(s, l, Returned(false))
    case Verify(l, ok) =>
      var pc := PcOf(s, l);
      if ok && Covered(need, s.rows, pc.pending[pc.at]) then Move(s, l, Rechecking(pc.at + 1, pc.pending))
      else Leave(s, l, Returned(false))
    case RechecksDone(l) => Leave(s, l, Returned(true))
    case StartSim(l, id, config) =>
      s.(sims := s.sims[id := Sim(l, config, MissingRows(need, s.rows, config))],
         readers := s.readers + {Simulation(id)})
    case SimFills(id, row) =>
      Wrote(s.(sims := s.sims[id := s.sims[id].(todo := s.sims[id].todo - {row})]), row)
    case EndSim(id) => s.(sims := s.sims - {id}, readers := s.readers - {Simulation(id)})
    case Dies(l) => Died(s, l)
    case DiesAlone(l) => DiedAlone(s, l)
    case OrphanFills(o, row) => Wrote(s.(orphans := s.orphans - {o} + {o.(todo := o.todo - {row})}), row)
    case OrphanEnds(o) => s.(orphans := s.orphans - {o})
  }

  function Initial(rows: set<Row>): State {
    State(rows, {}, None, map[], map[], {}, [], [])
  }

  // ---- the inductive invariant ---------------------------------------------------------------

  /** Who holds the lease is who is inside it, and a writer is alone. */
  ghost predicate LeaseInv(s: State) {
    && (s.writer.Some? ==> s.readers == {} && s.writer.value in s.launchers)
    && (forall l :: l in s.launchers ==> (s.launchers[l].pc.Probing? <==> Prober(l) in s.readers))
    && (forall l :: l in s.launchers ==> (InExclusive(s.launchers[l].pc) <==> s.writer == Some(l)))
    && (forall l :: Prober(l) in s.readers ==> l in s.launchers)
    && (forall id :: id in s.sims <==> Simulation(id) in s.readers)
  }

  ghost predicate PendingOrCovered(need: Needs, rows: set<Row>, configs: seq<Config>, pending: seq<Config>) {
    forall c :: c in configs ==> c in pending || Covered(need, rows, c)
  }

  ghost predicate AllCovered(need: Needs, rows: set<Row>, configs: seq<Config>) {
    forall c :: c in configs ==> Covered(need, rows, c)
  }

  /** What a launcher may rely on where it stands. */
  ghost predicate Progress(need: Needs, rows: set<Row>, launcher: Launcher) {
    var reps := Representatives(launcher.params);
    match launcher.pc
    case Ready => true
    case Probing(at, pending) => at <= |reps| && PendingOrCovered(need, rows, reps[..at], pending)
    case Waiting(pending) => PendingOrCovered(need, rows, reps, pending)
    case Rechecking(at, pending) =>
      at <= |pending| && PendingOrCovered(need, rows, reps, pending) && AllCovered(need, rows, pending[..at])
    case Deciding(at, pending, _) =>
      at < |pending| && PendingOrCovered(need, rows, reps, pending) && AllCovered(need, rows, pending[..at])
    case Filling(at, pending, _) =>
      at < |pending| && PendingOrCovered(need, rows, reps, pending) && AllCovered(need, rows, pending[..at])
    case Verifying(at, pending) =>
      at < |pending| && PendingOrCovered(need, rows, reps, pending) && AllCovered(need, rows, pending[..at])
    case Returned(ok) => ok ==> AllCovered(need, rows, launcher.params)
    case Dead => true
  }

  ghost predicate CoverInv(need: Needs, s: State) {
    && (forall l :: l in s.launchers ==> Progress(need, s.rows, s.launchers[l]))
    && (forall id :: id in s.sims ==> Covered(need, s.rows, s.sims[id].config) && s.sims[id].todo == {})
    && (forall o :: o in s.orphans && o.Simulator? ==> o.todo == {})
  }

  /** Work in hand is work to do: the count a launcher decides on is the truth, a builder's list
      holds rows of its key not yet written, and no orphan has anything left to write. */
  ghost predicate WorkInv(need: Needs, s: State) {
    && (forall l :: l in s.launchers ==> InHand(need, s.rows, s.launchers[l].pc))
    && (forall o :: o in s.orphans ==> o.todo == {})
  }

  ghost predicate InHand(need: Needs, rows: set<Row>, pc: Pc) {
    && (pc.Deciding? ==> pc.at < |pc.pending| && 0 < pc.missing == |MissingRows(need, rows, pc.pending[pc.at])|)
    && (pc.Filling? ==> pc.at < |pc.pending| && pc.todo <= MissingRows(need, rows, pc.pending[pc.at]))
  }

  /** Every row was there from the start or was built, once. */
  ghost predicate RowsInv(rows0: set<Row>, s: State) {
    && s.rows == rows0 + (set r | r in s.built)
    && (forall r :: r in s.built ==> r !in rows0)
    && Distinct(s.built)
  }

  ghost predicate Inv(need: Needs, rows0: set<Row>, s: State) {
    LeaseInv(s) && CoverInv(need, s) && WorkInv(need, s) && RowsInv(rows0, s)
  }

  lemma DeathKeepsLease(s: State, l: nat)
    requires LeaseInv(s) && l in s.launchers
    ensures LeaseInv(Died(s, l))
  {
    var gone := set id | id in SimsOf(s, l) :: Simulation(id);
    assert forall id :: Simulation(id) in gone <==> id in SimsOf(s, l);
  }

  lemma MoveKeepsLease(s: State, l: nat, pc: Pc)
    requires LeaseInv(s) && l in s.launchers
    requires pc.Probing? == s.launchers[l].pc.Probing? && InExclusive(pc) == InExclusive(s.launchers[l].pc)
    ensures LeaseInv(Move(s, l, pc))
  {
  }

  lemma LeaveKeepsLease(s: State, l: nat, pc: Pc)
    requires LeaseInv(s) && l in s.launchers && !pc.Probing? && !InExclusive(pc)
    ensures LeaseInv(Leave(s, l, pc))
  {
  }

  /** The steps that take a lease, or start and end a simulation. */
  lemma TakingKeepsLease(need: Needs, s: State, step: Step)
    requires LeaseInv(s) && Enabled(need, s, step)
    requires step.Arrive? || step.LeaseShared? || step.LeaseExclusive? || step.StartSim? || step.EndSim?
    ensures LeaseInv(Apply(need, s, step))
  {
  }

  lemma StepKeepsLease(need: Needs, s: State, step: Step)
    requires LeaseInv(s) && Enabled(need, s, step)
    ensures LeaseInv(Apply(need, s, step))
  {
    hide Representatives, Covered, MissingRows, KeyOf, LeaseInv, Died;
    var s' := Apply(need, s, step);
    match step
    case Dies(l) => DeathKeepsLease(s, l);
    case DiesAlone(l) =>
      DeathKeepsLease(s, l);
      SameLease(Died(s, l), s');
    case Arrive(_, _) => TakingKeepsLease(need, s, step);
    case LeaseShared(_) => TakingKeepsLease(need, s, step);
    case LeaseExclusive(_) => TakingKeepsLease(need, s, step);
    case StartSim(_, _, _) => TakingKeepsLease(need, s, step);
    case EndSim(_) => TakingKeepsLease(need, s, step);
    case FillRow(l, row) =>
      var pc := PcOf(s, l);
      MoveKeepsLease(s, l, pc.(todo := pc.todo - {row}));
      SameLease(Move(s, l, pc.(todo := pc.todo - {row})), s');
    case SimFills(_, _) => SameLease(s, s');
    case OrphanFills(_, _) => SameLease(s, s');
    case OrphanEnds(_) => SameLease(s, s');
    case StartFill(l) =>
      MoveKeepsLease(s, l, PcOf(s', l));
      SameLease(Move(s, l, PcOf(s', l)), s');
    case Probe(l, ok) => ReturnOrMove(s, l, s');
    case ProbesDone(l) => ReturnOrMove(s, l, s');
    case Recheck(l, ok) => ReturnOrMove(s, l, s');
    case NoGpu(l) => ReturnOrMove(s, l, s');
    case FillEnds(l, ok) => ReturnOrMove(s, l, s');
    case Verify(l, ok) => ReturnOrMove(s, l, s');
    case RechecksDone(l) => ReturnOrMove(s, l, s');
  }

  lemma SameLease(s: State, s': State)
    requires LeaseInv(s)
    requires s'.readers == s.readers && s'.writer == s.writer && s'.launchers == s.launchers
    requires s'.sims.Keys == s.sims.Keys
    ensures LeaseInv(s')
  {
  }

  lemma ReturnOrMove(s: State, l: nat, s': State)
    requires LeaseInv(s) && l in s.launchers && l in s'.launchers
    requires var pc := s'.launchers[l].pc;
      || (s' == Leave(s, l, pc) && !pc.Probing? && !InExclusive(pc))
      || (s' == Move(s, l, pc) && pc.Probing? == s.launchers[l].pc.Probing?
          && InExclusive(pc) == InExclusive(s.launchers[l].pc))
    ensures LeaseInv(s')
  {
    hide LeaseInv;
    var pc := s'.launchers[l].pc;
    if s' == Leave(s, l, pc) && !pc.Probing? && !InExclusive(pc) {
      LeaveKeepsLease(s, l, pc);
    } else {
      MoveKeepsLease(s, l, pc);
    }
  }

  // ---- coverage ----------------------------------------------------------------------------------

  lemma MoreRowsCoverMore(need: Needs, rows: set<Row>, more: set<Row>, launcher: Launcher)
    requires Progress(need, rows, launcher) && rows <= more
    ensures Progress(need, more, launcher)
  {
    hide Representatives, KeyOf;
  }

  /** Coverage is by key: a set whose representative is covered is covered. */
  lemma RepresentativesCoverAll(need: Needs, rows: set<Row>, params: seq<Config>)
    requires AllCovered(need, rows, Representatives(params))
    ensures AllCovered(need, rows, params)
  {
    hide Representatives, KeyOf;
    RepresentativesFacts(params);
    forall c | c in params ensures Covered(need, rows, c) {
      var i :| 0 <= i < |params| && params[i] == c;
      KeyIn(params, i);
      assert KeyOf(c) in Keys(Representatives(params));
      var j :| 0 <= j < |Representatives(params)| && KeyOf(Representatives(params)[j]) == KeyOf(c);
      assert Covered(need, rows, Representatives(params)[j]);
    }
  }

  lemma PcKeepsCover(need: Needs, s: State, l: nat, pc: Pc)
    requires CoverInv(need, s) && l in s.launchers && Progress(need, s.rows, s.launchers[l].(pc := pc))
    ensures CoverInv(need, Move(s, l, pc)) && CoverInv(need, Leave(s, l, pc))
  {
    hide Progress, Covered;
  }

  lemma ProbeKeepsCover(need: Needs, s: State, step: Step)
    requires CoverInv(need, s) && Enabled(need, s, step)
    requires step.LeaseShared? || step.Probe? || step.ProbesDone? || step.LeaseExclusive?
    ensures CoverInv(need, Apply(need, s, step))
  {
    hide Covered, Representatives, KeyOf;
    var reps, pc := RepsOf(s, step.l), PcOf(s, step.l);
    match step
    case LeaseShared(l) => PcKeepsCover(need, s, l, Probing(0, []));
    case Probe(l, ok) =>
      assert reps[..pc.at + 1] == reps[..pc.at] + [reps[pc.at]];
      PcKeepsCover(need, s, l, PcOf(Apply(need, s, step), l));
    case ProbesDone(l) =>
      assert reps[..pc.at] == reps;
      if pc.pending == [] {
        RepresentativesCoverAll(need, s.rows, s.launchers[l].params);
      }
      PcKeepsCover(need, s, l, PcOf(Apply(need, s, step), l));
    case LeaseExclusive(l) => PcKeepsCover(need, s, l, PcOf(Apply(need, s, step), l));
  }

  lemma FillKeepsCover(need: Needs, s: State, step: Step)
    requires CoverInv(need, s) && Enabled(need, s, step)
    requires step.Recheck? || step.NoGpu? || step.StartFill? || step.FillEnds? || step.Verify? || step.RechecksDone?
    ensures CoverInv(need, Apply(need, s, step))
  {
    hide Representatives, KeyOf;
    var pc := PcOf(s, step.l);
    if (step.Recheck? || step.Verify?) {
      assert pc.pending[..pc.at + 1] == pc.pending[..pc.at] + [pc.pending[pc.at]];
    }
    if step.RechecksDone? {
      assert pc.pending[..pc.at] == pc.pending;
      RepresentativesCoverAll(need, s.rows, s.launchers[step.l].params);
    }
    PcKeepsCover(need, s, step.l, PcOf(Apply(need, s, step), step.l));
  }

  /** Rows only ever come, so what is covered stays covered, whoever writes. */
  lemma RowKeepsCover(need: Needs, s: State, step: Step)
    requires CoverInv(need, s) && Enabled(need, s, step) && (step.FillRow? || step.SimFills? || step.OrphanFills?)
    ensures CoverInv(need, Apply(need, s, step))
  {
    hide Representatives, KeyOf;
    var more := s.rows + {step.row};
    forall l | l in s.launchers ensures Progress(need, more, s.launchers[l]) {
      MoreRowsCoverMore(need, s.rows, more, s.launchers[l]);
    }
    if step.FillRow? {
      var was := s.launchers[step.l];
      var now := was.(pc := was.pc.(todo := was.pc.todo - {step.row}));
      assert Progress(need, more, was) ==> Progress(need, more, now);
    }
  }

  lemma StepKeepsCover(need: Needs, s: State, step: Step)
    requires CoverInv(need, s) && Enabled(need, s, step)
    ensures CoverInv(need, Apply(need, s, step))
  {
    hide Enabled, Apply, CoverInv;
    if step.LeaseShared? || step.Probe? || step.ProbesDone? || step.LeaseExclusive? {
      ProbeKeepsCover(need, s, step);
    } else if step.FillRow? || step.SimFills? || step.OrphanFills? {
      RowKeepsCover(need, s, step);
    } else if step.Arrive? || step.StartSim? || step.EndSim? || step.Dies? || step.DiesAlone? || step.OrphanEnds? {
      ComingsKeepCover(need, s, step);
    } else {
      FillKeepsCover(need, s, step);
    }
  }

  lemma ComingsKeepCover(need: Needs, s: State, step: Step)
    requires CoverInv(need, s) && Enabled(need, s, step)
    requires step.Arrive? || step.StartSim? || step.EndSim? || step.Dies? || step.DiesAlone? || step.OrphanEnds?
    ensures CoverInv(need, Apply(need, s, step))
  {
    hide Representatives, KeyOf;
    if step.Dies? || step.DiesAlone? {
      PcKeepsCover(need, s, step.l, Dead);
    }
  }

  // ---- work in hand ----------------------------------------------------------------------------------

  /** A launcher that dies and leaves a builder with rows still to write. */
  predicate LeavesWork(s: State, step: Step) {
    step.DiesAlone? && step.l in s.launchers && s.launchers[step.l].pc.Filling? && s.launchers[step.l].pc.todo != {}
  }

  /** What is written was missing: the writer is alone under the exclusive lease, and checked. */
  lemma WriteIsNew(need: Needs, s: State, step: Step)
    requires LeaseInv(s) && CoverInv(need, s) && WorkInv(need, s)
    requires Enabled(need, s, step) && (step.FillRow? || step.SimFills? || step.OrphanFills?)
    ensures step.FillRow? && s.writer == Some(step.l) && step.row !in s.rows
  {
    hide Representatives, KeyOf, Progress, Covered;
  }

  lemma WriteKeepsWork(need: Needs, s: State, step: Step)
    requires LeaseInv(s) && CoverInv(need, s) && WorkInv(need, s)
    requires Enabled(need, s, step) && (step.FillRow? || step.SimFills? || step.OrphanFills?)
    ensures WorkInv(need, Apply(need, s, step))
  {
    WriteIsNew(need, s, step);
    hide Representatives, KeyOf, Progress, Covered, CoverInv;
    var s' := Apply(need, s, step);
    forall l | l in s'.launchers ensures InHand(need, s'.rows, s'.launchers[l].pc) {
      assert InHand(need, s.rows, s.launchers[l].pc);
      assert l != step.l ==> !InExclusive(s.launchers[l].pc);
    }
  }

  lemma MoveKeepsWork(need: Needs, s: State, step: Step)
    requires WorkInv(need, s) && Enabled(need, s, step)
    requires !step.FillRow? && !step.SimFills? && !step.OrphanFills? && !step.DiesAlone?
    ensures WorkInv(need, Apply(need, s, step))
  {
    hide Representatives, KeyOf, Covered;
  }

  /** What a death leaves behind: only a builder has anything to write. */
  lemma DeathKeepsWork(need: Needs, s: State, step: Step)
    requires CoverInv(need, s) && WorkInv(need, s) && Enabled(need, s, step) && step.DiesAlone?
    ensures WorkInv(need, Apply(need, s, step)) <==> !LeavesWork(s, step)
  {
    hide Representatives, KeyOf, Covered, Progress;
    var s' := Apply(need, s, step);
    assert forall l :: l in s'.launchers ==> InHand(need, s'.rows, s'.launchers[l].pc);
    if LeavesWork(s, step) {
      var pc := s.launchers[step.l].pc;
      assert Builder(step.l, KeyOf(pc.pending[pc.at]), pc.todo) in s'.orphans;
    }
  }

  lemma WriteKeepsRows(rows0: set<Row>, s: State, s': State, row: Row)
    requires RowsInv(rows0, s) && row !in s.rows && s'.rows == s.rows + {row} && s'.built == s.built + [row]
    ensures RowsInv(rows0, s')
  {
  }

  /** Steps that write nothing. */
  lemma RowsUntouched(need: Needs, s: State, step: Step)
    requires Enabled(need, s, step) && !step.FillRow? && !step.SimFills? && !step.OrphanFills?
    ensures Apply(need, s, step).rows == s.rows && Apply(need, s, step).built == s.built
  {
    hide Representatives, KeyOf, Covered;
  }

  lemma StepKeepsRows(need: Needs, rows0: set<Row>, s: State, step: Step)
    requires LeaseInv(s) && CoverInv(need, s) && WorkInv(need, s) && RowsInv(rows0, s) && Enabled(need, s, step)
    ensures RowsInv(rows0, Apply(need, s, step))
  {
    hide LeaseInv, CoverInv, WorkInv, RowsInv, Representatives, KeyOf, Covered;
    if step.FillRow? || step.SimFills? || step.OrphanFills? {
      WriteIsNew(need, s, step);
      WriteKeepsRows(rows0, s, Apply(need, s, step), step.row);
    } else {
      hide Apply, Enabled;
      RowsUntouched(need, s, step);
      SameRows(rows0, s, Apply(need, s, step));
    }
  }

  lemma SameRows(rows0: set<Row>, s: State, s': State)
    requires RowsInv(rows0, s) && s'.rows == s.rows && s'.built == s.built
    ensures RowsInv(rows0, s')
  {
  }

  /** Every step keeps the invariant, exactly but for a death that leaves rows to be written by a
      builder nobody's lease protects any more. */
  lemma StepKeepsInv(need: Needs, rows0: set<Row>, s: State, step: Step)
    requires Inv(need, rows0, s) && Enabled(need, s, step)
    ensures Inv(need, rows0, Apply(need, s, step)) <==> !LeavesWork(s, step)
  {
    hide Enabled, Apply, LeaseInv, CoverInv, WorkInv, RowsInv, LeavesWork;
    StepKeepsLease(need, s, step);
    StepKeepsCover(need, s, step);
    StepKeepsRows(need, rows0, s, step);
    if step.DiesAlone? {
      DeathKeepsWork(need, s, step);
    } else {
      OnlyDeathsLeaveWork(s, step);
      if step.FillRow? || step.SimFills? || step.OrphanFills? {
        WriteKeepsWork(need, s, step);
      } else {
        MoveKeepsWork(need, s, step);
      }
    }
  }

  lemma OnlyDeathsLeaveWork(s: State, step: Step)
    ensures LeavesWork(s, step) ==> step.DiesAlone?
  {
  }

  /** A launcher that dies and leaves any process behind. */
  predicate LeavesChild(s: State, step: Step) {
    step.DiesAlone? && step.l in s.launchers && Children(s, step.l) != {}
  }

  /** Nothing runs outside the leases after a step exactly when it is not a death that leaves a
      child; such a death is also the only one that can leave work. */
  lemma OrphansComeFromDeaths(need: Needs, s: State, step: Step)
    requires CoverInv(need, s) && Enabled(need, s, step) && s.orphans == {}
    ensures Apply(need, s, step).orphans == {} <==> !LeavesChild(s, step)
    ensures LeavesWork(s, step) ==> LeavesChild(s, step)
  {
    hide Representatives, KeyOf, Covered;
    if LeavesWork(s, step) {
      var pc := s.launchers[step.l].pc;
      assert Progress(need, s.rows, s.launchers[step.l]);
      assert Builder(step.l, KeyOf(pc.pending[pc.at]), pc.todo) in Children(s, step.l);
    }
  }

  // ---- whole runs ------------------------------------------------------------------------------------

  ghost predicate Executable(need: Needs, s: State, steps: seq<Step>)
    decreases |steps|
  {
    steps == [] || (Enabled(need, s, steps[0]) && Executable(need, Apply(need, s, steps[0]), steps[1..]))
  }

  ghost function After(need: Needs, s: State, steps: seq<Step>): State
    requires Executable(need, s, steps)
    decreases |steps|
  {
    if steps == [] then s else After(need, Apply(need, s, steps[0]), steps[1..])
  }

  ghost predicate NoWorkLeft(need: Needs, s: State, steps: seq<Step>)
    requires Executable(need, s, steps)
    decreases |steps|
  {
    steps == [] || (!LeavesWork(s, steps[0]) && NoWorkLeft(need, Apply(need, s, steps[0]), steps[1..]))
  }

  ghost predicate NoChildLeft(need: Needs, s: State, steps: seq<Step>)
    requires Executable(need, s, steps)
    decreases |steps|
  {
    steps == [] || (!LeavesChild(s, steps[0]) && NoChildLeft(need, Apply(need, s, steps[0]), steps[1..]))
  }

  lemma {:induction false} RunKeepsInv(need: Needs, rows0: set<Row>, s: State, steps: seq<Step>)
    requires Inv(need, rows0, s) && Executable(need, s, steps) && NoWorkLeft(need, s, steps)
    ensures Inv(need, rows0, After(need, s, steps))
    decreases |steps|
  {
    hide Inv, Enabled, Apply, LeavesWork;
    if steps != [] {
      StepKeepsInv(need, rows0, s, steps[0]);
      RunKeepsInv(need, rows0, Apply(need, s, steps[0]), steps[1..]);
    }
  }

  lemma {:induction false} RunKeepsAlone(need: Needs, rows0: set<Row>, s: State, steps: seq<Step>)
    requires Inv(need, rows0, s) && s.orphans == {} && Executable(need, s, steps) && NoChildLeft(need, s, steps)
    ensures Inv(need, rows0, After(need, s, steps)) && After(need, s, steps).orphans == {}
    decreases |steps|
  {
    hide CoverInv, LeaseInv, WorkInv, RowsInv, Enabled, Apply, LeavesWork, LeavesChild;
    if steps != [] {
      OrphansComeFromDeaths(need, s, steps[0]);
      StepKeepsInv(need, rows0, s, steps[0]);
      RunKeepsAlone(need, rows0, Apply(need, s, steps[0]), steps[1..]);
    }
  }

  lemma {:induction false} RunKeepsCover(need: Needs, s: State, steps: seq<Step>)
    requires LeaseInv(s) && CoverInv(need, s) && Executable(need, s, steps)
    ensures LeaseInv(After(need, s, steps)) && CoverInv(need, After(need, s, steps))
    decreases |steps|
  {
    hide LeaseInv, CoverInv, Enabled, Apply;
    if steps != [] {
      StepKeepsLease(need, s, steps[0]);
      StepKeepsCover(need, s, steps[0]);
      RunKeepsCover(need, Apply(need, s, steps[0]), steps[1..]);
    }
  }

  ghost predicate Building(s: State, l: nat) {
    l in s.launchers && s.launchers[l].pc.Filling?
  }

  lemma InitialInv(need: Needs, rows0: set<Row>)
    ensures Inv(need, rows0, Initial(rows0)) && Initial(rows0).orphans == {}
  {
  }

  /** In every run, whoever dies and whatever lives on: a True return means every parameter set
      of the call is covered, and a simulation that starts after it has nothing to build. */
  lemma TrueMeansCovered(need: Needs, rows0: set<Row>, steps: seq<Step>)
    requires Executable(need, Initial(rows0), steps)
    ensures var s := After(need, Initial(rows0), steps);
      && (forall l :: l in s.launchers && s.launchers[l].pc == Returned(true) ==>
           AllCovered(need, s.rows, s.launchers[l].params))
      && (forall id :: id in s.sims ==> Covered(need, s.rows, s.sims[id].config) && s.sims[id].todo == {})
  {
    InitialInv(need, rows0);
    RunKeepsCover(need, Initial(rows0), steps);
    hide Representatives, KeyOf, Covered;
    var s := After(need, Initial(rows0), steps);
    assert forall l :: l in s.launchers ==> Progress(need, s.rows, s.launchers[l]);
  }

  /** As long as no launcher dies leaving rows to write, no row is ever built twice, and none
      that was there: the writer holds the exclusive lease and found the row missing under it. */
  lemma NoRowIsBuiltTwice(need: Needs, rows0: set<Row>, steps: seq<Step>)
    requires Executable(need, Initial(rows0), steps) && NoWorkLeft(need, Initial(rows0), steps)
    ensures var s := After(need, Initial(rows0), steps);
      Distinct(s.built) && forall r :: r in s.built ==> r !in rows0
  {
    InitialInv(need, rows0);
    RunKeepsInv(need, rows0, Initial(rows0), steps);
  }

  /** As long as no launcher dies leaving a child, nothing runs beside a builder: no other
      builder, no prober, no simulation. */
  lemma BuildsRunAlone(need: Needs, rows0: set<Row>, steps: seq<Step>)
    requires Executable(need, Initial(rows0), steps) && NoChildLeft(need, Initial(rows0), steps)
    ensures var s := After(need, Initial(rows0), steps);
      forall l :: Building(s, l) ==>
        && s.orphans == {} && s.sims == map[]
        && (forall m :: m in s.launchers && m != l ==> !InExclusive(s.launchers[m].pc) && !s.launchers[m].pc.Probing?)
  {
    InitialInv(need, rows0);
    RunKeepsAlone(need, rows0, Initial(rows0), steps);
    BuildingAlone(After(need, Initial(rows0), steps));
  }

  lemma BuildingAlone(s: State)
    requires LeaseInv(s)
    ensures forall l :: Building(s, l) ==>
      && s.sims == map[]
      && (forall m :: m in s.launchers && m != l ==> !InExclusive(s.launchers[m].pc) && !s.launchers[m].pc.Probing?)
  {
    forall l | Building(s, l) ensures s.sims == map[] {
      assert forall id :: id in s.sims ==> Simulation(id) in s.readers;
    }
  }

  /** The count a launcher decides on is still the truth when it starts the builder, and the
      rows the builder finds missing are the ones counted. */
  lemma FillStartsWithRowsMissing(need: Needs, rows0: set<Row>, s: State, step: Step)
    requires Inv(need, rows0, s) && Enabled(need, s, step) && step.StartFill?
    ensures s.writer == Some(step.l) && s.readers == {} && s.sims == map[]
    ensures var pc := s.launchers[step.l].pc;
      && !Covered(need, s.rows, pc.pending[pc.at])
      && Apply(need, s, step).launchers[step.l].pc.todo == MissingRows(need, s.rows, pc.pending[pc.at])
      && |Apply(need, s, step).launchers[step.l].pc.todo| == pc.missing
  {
    hide Representatives, KeyOf, Progress;
    assert forall id :: id in s.sims ==> Simulation(id) in s.readers;
    assert InHand(need, s.rows, s.launchers[step.l].pc);
  }

  /** Once a key is covered no builder is started for it again: the launchers that waited for
      the exclusive lease with it pending see the rows and skip it. */
  lemma {:induction false} CoveredKeyIsNeverFilledAgain(need: Needs, rows0: set<Row>, s: State, steps: seq<Step>, c: Config)
    requires Inv(need, rows0, s) && Executable(need, s, steps) && NoWorkLeft(need, s, steps) && Covered(need, s.rows, c)
    ensures var t := After(need, s, steps);
      Covered(need, t.rows, c) && multiset(t.fills)[KeyOf(c)] == multiset(s.fills)[KeyOf(c)]
    decreases |steps|
  {
    hide Inv, Enabled, Apply, Covered, KeyOf, LeavesWork;
    if steps != [] {
      var next := Apply(need, s, steps[0]);
      StepKeepsInv(need, rows0, s, steps[0]);
      CoveredStep(need, rows0, s, steps[0], c);
      CoveredKeyIsNeverFilledAgain(need, rows0, next, steps[1..], c);
    }
  }

  lemma CoveredStep(need: Needs, rows0: set<Row>, s: State, step: Step, c: Config)
    requires Inv(need, rows0, s) && Enabled(need, s, step) && Covered(need, s.rows, c)
    ensures var t := Apply(need, s, step);
      Covered(need, t.rows, c) && multiset(t.fills)[KeyOf(c)] == multiset(s.fills)[KeyOf(c)]
  {
    hide KeyOf, Representatives, Inv, Apply, Enabled;
    RowsOnlyGrow(need, s, step);
    if step.StartFill? {
      FillStartsWithRowsMissing(need, rows0, s, step);
      FillIsRecorded(need, s, step);
      var pc := s.launchers[step.l].pc;
      AnotherKey(s.fills, KeyOf(pc.pending[pc.at]), KeyOf(c));
    }
  }

  lemma FillIsRecorded(need: Needs, s: State, step: Step)
    requires Enabled(need, s, step) && step.StartFill?
    ensures step.l in s.launchers && s.launchers[step.l].pc.Deciding?
    ensures var pc := s.launchers[step.l].pc;
      pc.at < |pc.pending| && Apply(need, s, step).fills == s.fills + [KeyOf(pc.pending[pc.at])]
  {
  }

  lemma AnotherKey(fills: seq<Key>, k: Key, other: Key)
    requires k != other
    ensures multiset(fills + [k])[other] == multiset(fills)[other]
  {
  }

  lemma RowsOnlyGrow(need: Needs, s: State, step: Step)
    requires Enabled(need, s, step)
    ensures s.rows <= Apply(need, s, step).rows
    ensures !step.StartFill? ==> Apply(need, s, step).fills == s.fills
  {
    hide KeyOf, Representatives, Covered;
  }

  // ---- nobody waits for ever ---------------------------------------------------------------------------

  predicate Finished(pc: Pc) {
    pc.Returned? || pc.Dead?
  }

  predicate Scheduled(step: Step) {
    !step.Arrive? && !step.Dies? && !step.DiesAlone? && !step.OrphanFills? && !step.OrphanEnds?
  }

  /** No deadlock: the shared lease is given up before the exclusive one is asked for, so while
      some launcher has not finished, some launcher or simulation can move. */
  lemma SomeoneCanMove(need: Needs, s: State, l: nat) returns (step: Step)
    requires LeaseInv(s) && CoverInv(need, s) && l in s.launchers && !Finished(s.launchers[l].pc)
    ensures Enabled(need, s, step) && Scheduled(step)
  {
    hide Representatives, KeyOf, Covered, PendingOrCovered, AllCovered;
    if s.writer.Some? {
      step := MoveInside(need, s, s.writer.value);
    } else if s.readers != {} {
      var h :| h in s.readers;
      match h {
        case Simulation(id) => step := EndSim(id);
        case Prober(p) => step := MoveInside(need, s, p);
      }
    } else {
      step := if s.launchers[l].pc.Ready? then LeaseShared(l) else LeaseExclusive(l);
    }
  }

  lemma MoveInside(need: Needs, s: State, l: nat) returns (step: Step)
    requires l in s.launchers && Progress(need, s.rows, s.launchers[l])
    requires InExclusive(s.launchers[l].pc) || s.launchers[l].pc.Probing?
    ensures Enabled(need, s, step) && Scheduled(step)
  {
    hide Representatives, KeyOf, Covered, PendingOrCovered, AllCovered;
    match s.launchers[l].pc
    case Probing(at, _) => step := if at < |RepsOf(s, l)| then Probe(l, true) else ProbesDone(l);
    case Rechecking(at, pending) => step := if at < |pending| then Recheck(l, true) else RechecksDone(l);
    case Deciding(_, _, _) => step := StartFill(l);
    case Filling(_, _, _) => step := FillEnds(l, true);
    case Verifying(_, _) => step := Verify(l, true);
  }

  // ---- what an orphan breaks ---------------------------------------------------------------------------

  ghost predicate Reaches(need: Needs, s0: State, steps: seq<Step>, s: State) {
    Executable(need, s0, steps) && After(need, s0, steps) == s
  }

  lemma {:induction false} Extend(need: Needs, s: State, steps: seq<Step>, step: Step)
    requires Executable(need, s, steps) && Enabled(need, After(need, s, steps), step)
    ensures Executable(need, s, steps + [step])
    ensures After(need, s, steps + [step]) == Apply(need, After(need, s, steps), step)
    decreases |steps|
  {
    hide Enabled, Apply;
    if steps == [] {
      assert [] + [step] == [step] && [step][1..] == [];
    } else {
      assert (steps + [step])[0] == steps[0] && (steps + [step])[1..] == steps[1..] + [step];
      Extend(need, Apply(need, s, steps[0]), steps[1..], step);
    }
  }

  lemma Take(need: Needs, s0: State, steps: seq<Step>, s: State, step: Step) returns (longer: seq<Step>, s': State)
    requires Reaches(need, s0, steps, s) && Enabled(need, s, step)
    ensures Reaches(need, s0, longer, s') && s' == Apply(need, s, step) && longer == steps + [step]
  {
    hide Enabled, Apply;
    Extend(need, s0, steps, step);
    longer, s' := steps + [step], Apply(need, s, step);
  }

  /** A launcher alone at the database finds rows missing and waits for the exclusive lease. */
  lemma ProbesAlone(need: Needs, s0: State, steps0: seq<Step>, s: State, l: nat, c: Config)
    returns (steps: seq<Step>, t: State)
    requires Reaches(need, s0, steps0, s)
    requires l !in s.launchers && s.writer == None && s.readers == {} && !Covered(need, s.rows, c)
    ensures Reaches(need, s0, steps, t)
    ensures t == s.(launchers := s.launchers[l := Launcher([c], Waiting([c]))])
    ensures Peaceful(steps0) ==> Peaceful(steps)
  {
    hide Reaches, KeyOf;
    assert Representatives([c]) == [c] by {
      assert [c][..0] == [] && Keys([]) == {};
    }
    hide Representatives;
    steps, t := Take(need, s0, steps0, s, Arrive(l, [c]));
    steps, t := Take(need, s0, steps, t, LeaseShared(l));
    steps, t := Take(need, s0, steps, t, Probe(l, true));
    steps, t := Take(need, s0, steps, t, ProbesDone(l));
  }

  /** It then starts a builder. */
  lemma FillsAlone(need: Needs, s0: State, steps0: seq<Step>, s: State, l: nat, c: Config)
    returns (steps: seq<Step>, t: State)
    requires Reaches(need, s0, steps0, s)
    requires l !in s.launchers && s.writer == None && s.readers == {} && !Covered(need, s.rows, c)
    ensures Reaches(need, s0, steps, t)
    ensures l in t.launchers && t.launchers[l].pc == Filling(0, [c], MissingRows(need, s.rows, c))
    ensures t.rows == s.rows && t.orphans == s.orphans && t.readers == {} && t.writer == Some(l)
    ensures t.sims == s.sims && t.launchers.Keys == s.launchers.Keys + {l}
    ensures Peaceful(steps0) ==> Peaceful(steps)
  {
    hide Reaches, KeyOf, Representatives;
    steps, t := ProbesAlone(need, s0, steps0, s, l, c);
    steps, t := Take(need, s0, steps, t, LeaseExclusive(l));
    steps, t := Take(need, s0, steps, t, Recheck(l, true));
    steps, t := Take(need, s0, steps, t, StartFill(l));
  }


  /** Launchers and simulations that hold the shared lease can all be gone. */
  lemma {:induction false} Drain(need: Needs, s0: State, steps0: seq<Step>, s: State)
    returns (steps: seq<Step>, t: State)
    requires Reaches(need, s0, steps0, s) && LeaseInv(s) && s.writer == None
    ensures Reaches(need, s0, steps, t) && LeaseInv(t) && t.writer == None && t.readers == {}
    ensures t.rows == s.rows && t.orphans == s.orphans && t.launchers.Keys == s.launchers.Keys
    decreases |s.readers|
  {
    steps, t := steps0, s;
    if s.readers != {} {
      var h :| h in s.readers;
      var step := if h.Prober? then Dies(h.launcher) else EndSim(h.id);
      StepKeepsLease(need, s, step);
      steps, t := Take(need, s0, steps0, s, step);
      assert h !in t.readers && t.readers <= s.readers;
      assert t.readers < s.readers;
      SubsetSize(t.readers, s.readers);
      steps, t := Drain(need, s0, steps, t);
    }
  }

  // ---- builders that overlap -----------------------------------------------------------------------------

  ghost predicate OverlapRun(need: Needs, s: State, o: Orphan, steps: seq<Step>, m: nat) {
    Executable(need, s, steps) && o in After(need, s, steps).orphans && Building(After(need, s, steps), m)
  }

  /** Some run from here has a launcher's builder running beside the orphan. */
  ghost predicate CanOverlap(need: Needs, s: State, o: Orphan) {
    exists steps, m :: OverlapRun(need, s, o, steps, m)
  }

  /** Nobody builds or is about to, and no key misses a row. */
  ghost predicate NothingToBuild(need: Needs, s: State) {
    && (forall l :: l in s.launchers ==> Idle(s.launchers[l].pc))
    && (forall c :: Covered(need, s.rows, c))
  }

  lemma {:induction false} NothingIsBuilt(need: Needs, s: State, steps: seq<Step>, m: nat)
    requires NothingToBuild(need, s) && Executable(need, s, steps)
    ensures !Building(After(need, s, steps), m)
    decreases |steps|
  {
    hide Enabled, Apply, NothingToBuild;
    if steps == [] {
      NotBuilding(need, s, m);
    } else {
      StaysBuilt(need, s, steps[0]);
      NothingIsBuilt(need, Apply(need, s, steps[0]), steps[1..], m);
    }
  }

  lemma NotBuilding(need: Needs, s: State, m: nat)
    requires NothingToBuild(need, s)
    ensures !Building(s, m)
  {
  }

  predicate Idle(pc: Pc) {
    !pc.Deciding? && !pc.Filling?
  }

  lemma CoveredIsSkipped(need: Needs, s: State, step: Step)
    requires Enabled(need, s, step) && step.Recheck?
    requires Covered(need, s.rows, PcOf(s, step.l).pending[PcOf(s, step.l).at])
    ensures Idle(PcOf(Apply(need, s, step), step.l))
  {
  }

  lemma IdleStays(need: Needs, s: State, step: Step)
    requires Enabled(need, s, step) && forall l :: l in s.launchers ==> Idle(s.launchers[l].pc)
    requires step.Recheck? ==> Idle(PcOf(Apply(need, s, step), step.l))
    ensures forall l :: l in Apply(need, s, step).launchers ==> Idle(Apply(need, s, step).launchers[l].pc)
  {
    hide Representatives, KeyOf, Covered, MissingRows;
  }

  lemma StaysBuilt(need: Needs, s: State, step: Step)
    requires NothingToBuild(need, s) && Enabled(need, s, step)
    ensures NothingToBuild(need, Apply(need, s, step))
  {
    hide Representatives, KeyOf, Apply, Covered;
    RowsOnlyGrow(need, s, step);
    if step.Recheck? {
      CoveredIsSkipped(need, s, step);
    }
    IdleStays(need, s, step);
    forall c ensures Covered(need, Apply(need, s, step).rows, c) {
      MoreRowsCover(need, s.rows, Apply(need, s, step).rows, c);
    }
  }

  lemma MoreRowsCover(need: Needs, rows: set<Row>, more: set<Row>, c: Config)
    requires Covered(need, rows, c) && rows <= more
    ensures Covered(need, more, c)
  {
  }

  /** A launcher with children holds them under a lease that its death frees. */
  lemma DeathFreesLease(need: Needs, s: State, l: nat)
    requires LeaseInv(s) && l in s.launchers && Children(s, l) != {}
    ensures var t := DiedAlone(s, l);
      && LeaseInv(t) && t.writer == None && t.rows == s.rows && t.orphans == s.orphans + Children(s, l)
      && (forall m :: m in t.launchers ==> !InExclusive(t.launchers[m].pc))
  {
    hide KeyOf;
    StepKeepsLease(need, s, DiesAlone(l));
    assert DiedAlone(s, l) == Apply(need, s, DiesAlone(l));
    if !s.launchers[l].pc.Filling? {
      var id :| id in SimsOf(s, l);
      assert Simulation(id) in s.readers;
    }
  }

  /** The exclusion is lost with the first child left behind: from any state that is still safe,
      another launcher's builder can be started beside it, exactly when some key misses a row. */
  lemma OrphanIsOverlapped(need: Needs, rows0: set<Row>, s: State, l: nat, o: Orphan)
    requires Inv(need, rows0, s) && l in s.launchers && o in Children(s, l)
    ensures CanOverlap(need, DiedAlone(s, l), o) <==> exists c :: !Covered(need, s.rows, c)
  {
    var s0 := DiedAlone(s, l);
    OrphanIsThere(need, s, l, o);
    if c :| !Covered(need, s.rows, c) {
      hide Apply, KeyOf, Covered, Inv, LeaseInv, CanOverlap;
      var steps := BuildsBeside(need, s0, o, c);
    } else {
      hide Apply, KeyOf, Covered, Inv, LeaseInv;
      forall steps, m ensures !OverlapRun(need, s0, o, steps, m) {
        NothingOverlaps(need, s0, o, steps, m);
      }
    }
  }

  lemma OrphanIsThere(need: Needs, s: State, l: nat, o: Orphan)
    requires LeaseInv(s) && l in s.launchers && o in Children(s, l)
    ensures var t := DiedAlone(s, l);
      && LeaseInv(t) && t.writer == None && t.rows == s.rows && o in t.orphans
      && (forall m :: m in t.launchers ==> !InExclusive(t.launchers[m].pc))
  {
    hide KeyOf;
    DeathFreesLease(need, s, l);
  }

  lemma NothingOverlaps(need: Needs, s0: State, o: Orphan, steps: seq<Step>, m: nat)
    requires forall l :: l in s0.launchers ==> !InExclusive(s0.launchers[l].pc)
    requires forall c :: Covered(need, s0.rows, c)
    ensures !OverlapRun(need, s0, o, steps, m)
  {
    hide Covered;
    if Executable(need, s0, steps) {
      NothingIsBuilt(need, s0, steps, m);
    }
  }

  lemma BuildsBeside(need: Needs, s0: State, o: Orphan, c: Config) returns (steps: seq<Step>)
    requires LeaseInv(s0) && s0.writer == None && o in s0.orphans && !Covered(need, s0.rows, c)
    ensures CanOverlap(need, s0, o)
  {
    assert Reaches(need, s0, [], s0);
    var t: State;
    steps, t := Drain(need, s0, [], s0);
    var m := FreshNumber(t.launchers.Keys);
    hide Executable, After;
    steps, t := FillsAlone(need, s0, steps, t, m, c);
    assert OverlapRun(need, s0, o, steps, m);
  }

  /** The overlap is reachable at all: the first launcher to fill the database dies alone. */
  lemma OrphanBreaksExclusion(need: Needs, c: Config) returns (steps: seq<Step>, t: State)
    requires need(KeyOf(c)) != {}
    ensures Executable(need, Initial({}), steps) && After(need, Initial({}), steps) == t
    ensures t.orphans == {Builder(0, KeyOf(c), need(KeyOf(c)))}
    ensures Building(t, 1) && t.launchers[1].pc.pending == [c]
  {
    var s0 := Initial({});
    var s := s0;
    assert Reaches(need, s0, [], s0);
    steps, s := FillsAlone(need, s0, [], s0, 0, c);
    var dying := s;
    steps, s := Take(need, s0, steps, s, DiesAlone(0));
    assert SimsOf(dying, 0) == {};
    assert MissingRows(need, {}, c) == need(KeyOf(c));
    steps, t := FillsAlone(need, s0, steps, s, 1, c);
  }

  // ---- rows built twice -------------------------------------------------------------------------------------

  ghost predicate TwiceRun(need: Needs, s: State, steps: seq<Step>) {
    Executable(need, s, steps) && NoWorkLeft(need, s, steps) && !Distinct(After(need, s, steps).built)
  }

  /** Some run from here, with no further work left behind, builds a row a second time. */
  ghost predicate CanBuildTwice(need: Needs, s: State) {
    exists steps :: TwiceRun(need, s, steps)
  }

  predicate Peaceful(steps: seq<Step>) {
    forall i :: 0 <= i < |steps| ==> !steps[i].DiesAlone?
  }

  lemma {:induction false} PeaceLeavesNoWork(need: Needs, s: State, steps: seq<Step>)
    requires Executable(need, s, steps) && Peaceful(steps)
    ensures NoWorkLeft(need, s, steps)
    decreases |steps|
  {
    hide Enabled, Apply;
    if steps != [] {
      PeaceLeavesNoWork(need, Apply(need, s, steps[0]), steps[1..]);
    }
  }

  /** After a launcher has died alone a row can be built twice exactly when its builder still had
      rows to write. */
  lemma OrphanBuildsTwice(need: Needs, rows0: set<Row>, s: State, l: nat)
    requires Inv(need, rows0, s) && l in s.launchers
    ensures CanBuildTwice(need, DiedAlone(s, l)) <==> LeavesWork(s, DiesAlone(l))
  {
    hide Inv, Apply, Enabled, LeavesWork, DiedAlone;
    var s0 := DiedAlone(s, l);
    if LeavesWork(s, DiesAlone(l)) {
      var steps := SecondBuild(need, rows0, s, l);
      assert TwiceRun(need, s0, steps);
    } else {
      InvAfterDeath(need, rows0, s, l);
      forall steps ensures !TwiceRun(need, s0, steps) {
        if Executable(need, s0, steps) && NoWorkLeft(need, s0, steps) {
          RunKeepsInv(need, rows0, s0, steps);
          InvIsDistinct(need, rows0, After(need, s0, steps));
        }
      }
    }
  }

  lemma InvAfterDeath(need: Needs, rows0: set<Row>, s: State, l: nat)
    requires Inv(need, rows0, s) && l in s.launchers && !LeavesWork(s, DiesAlone(l))
    ensures Inv(need, rows0, DiedAlone(s, l))
  {
    hide Inv, LeavesWork;
    StepKeepsInv(need, rows0, s, DiesAlone(l));
  }

  lemma InvIsDistinct(need: Needs, rows0: set<Row>, s: State)
    requires Inv(need, rows0, s)
    ensures Distinct(s.built)
  {
  }

  lemma SecondBuild(need: Needs, rows0: set<Row>, s: State, l: nat) returns (steps: seq<Step>)
    requires Inv(need, rows0, s) && l in s.launchers && LeavesWork(s, DiesAlone(l))
    ensures TwiceRun(need, DiedAlone(s, l), steps)
  {
    var s0, pc := DiedAlone(s, l), s.launchers[l].pc;
    assert InHand(need, s.rows, pc);
    var c := pc.pending[pc.at];
    var row :| row in pc.todo;
    var o := Builder(l, KeyOf(c), pc.todo);
    assert o in Children(s, l);
    DeathFreesLease(need, s, l);
    assert s.readers == {} && s0.readers == {};
    assert row in MissingRows(need, s.rows, c);
    hide Inv, LeaseInv, CoverInv, WorkInv, RowsInv, KeyOf, Covered, Progress, Children, InHand;
    assert !Covered(need, s0.rows, c) by {
      RowMeansUncovered(need, s.rows, c, row);
    }
    steps := BuiltByBoth(need, s0, o, c, row);
  }

  lemma RowMeansUncovered(need: Needs, rows: set<Row>, c: Config, row: Row)
    requires row in MissingRows(need, rows, c)
    ensures !Covered(need, rows, c)
  {
  }

  lemma BuiltByBoth(need: Needs, s0: State, o: Orphan, c: Config, row: Row) returns (steps: seq<Step>)
    requires s0.writer == None && s0.readers == {} && o in s0.orphans && row in o.todo
    requires !Covered(need, s0.rows, c) && row in MissingRows(need, s0.rows, c)
    ensures TwiceRun(need, s0, steps)
  {
    assert Reaches(need, s0, [], s0);
    var m := FreshNumber(s0.launchers.Keys);
    var t: State;
    hide KeyOf, Covered, MissingRows;
    steps, t := FillsAlone(need, s0, [], s0, m, c);
    var before := t.built;
    hide Reaches;
    steps, t := Take(need, s0, steps, t, FillRow(m, row));
    steps, t := Take(need, s0, steps, t, OrphanFills(o, row));
    assert t.built == before + [row, row];
    assert t.built[|before|] == t.built[|before| + 1];
    Reached(need, s0, steps, t);
    PeaceLeavesNoWork(need, s0, steps);
  }

  lemma Reached(need: Needs, s0: State, steps: seq<Step>, t: State)
    requires Reaches(need, s0, steps, t)
    ensures Executable(need, s0, steps) && After(need, s0, steps) == t
  {
  }
}
