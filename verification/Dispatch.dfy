/** Dispatching the units over a pool of GPUs, completions arriving in any order
    (profiling/plan.py:225-311). */
module Dispatch {
  import opened Allocation
  import opened Collector
  import opened Common
  import opened WorkUnits

  /** What `execute_profile_batch` did: it raised, or left None for some specs. */
  datatype Outcome = Raised | Returned(measured: seq<bool>)

  predicate Clean(outcome: Outcome) {
    outcome.Returned? && forall i :: 0 <= i < |outcome.measured| ==> outcome.measured[i]
  }

  datatype Event =
    | Refused(unit: WorkUnit, have: nat)
    | Started(unit: WorkUnit, cards: seq<int>)
    | Finished(unit: WorkUnit, cards: seq<int>, outcome: Outcome)

  datatype Job = Job(unit: WorkUnit, cards: seq<int>)

  /** Everything `issue` did, latest last. */
  datatype Trace = Start | Then(earlier: Trace, last: Event)

  // ---- reading a trace ------------------------------------------------------------

  /** What a trace amounts to so far: the cards in use, the measurements started, finished
      and refused, how many runs were started, and the failures to report. */
  datatype Ledger = Ledger(
    busy: multiset<int>,
    started: multiset<Item>,
    finished: multiset<Item>,
    refused: multiset<Item>,
    starts: nat,
    failures: seq<Failure>)

  function FailureOf(e: Event): seq<Failure>
    requires !e.Started?
  {
    match e
    case Refused(u, have) => [NeedsMoreGpus(u.kind, u.backend, u.gpuCount, have)]
    case Finished(u, _, outcome) => if Clean(outcome) then [] else [RunFailed(u.kind, u.backend)]
  }

  ghost function Enter(l: Ledger, e: Event): Ledger {
    match e
    case Started(u, cards) =>
      l.(busy := l.busy + multiset(cards), started := l.started + multiset(Tagged(u)), starts := l.starts + 1)
    case Finished(u, cards, _) =>
      l.(busy := l.busy - multiset(cards), finished := l.finished + multiset(Tagged(u)),
         failures := l.failures + FailureOf(e))
    case Refused(u, _) =>
      l.(refused := l.refused + multiset(Tagged(u)), failures := l.failures + FailureOf(e))
  }

  ghost function Read(t: Trace): Ledger {
    match t
    case Start => Ledger(multiset{}, multiset{}, multiset{}, multiset{}, 0, [])
    case Then(earlier, e) => Enter(Read(earlier), e)
  }

  /** No card is ever given to two running pieces; a multi-GPU unit has the pool to itself;
      a single-GPU piece holds exactly one card; results come one per spec. */
  ghost predicate WellScheduled(t: Trace, gpus: seq<int>) {
    t.Then? ==>
      && WellScheduled(t.earlier, gpus)
      && Read(t).busy <= multiset(gpus)
      && WellFormedEvent(Read(t.earlier).busy, t.last, gpus)
  }

  ghost predicate WellFormedEvent(busy: multiset<int>, e: Event, gpus: seq<int>) {
    e.unit.specs != [] &&
    match e
    case Refused(u, have) => u.gpuCount > 1 && u.gpuCount > have == |gpus|
    case Started(u, cards) =>
      if u.gpuCount == 1 then |cards| == 1
      else 1 < u.gpuCount <= |gpus| && cards == gpus[..u.gpuCount] && busy == multiset{}
    case Finished(u, cards, outcome) =>
      && multiset(cards) <= busy
      && (outcome.Returned? ==> |outcome.measured| == u.Size())
  }

  // ---- the oracle -----------------------------------------------------------------

  /** `run` inside `issue`: any outcome with one result per spec. */
  method Execute(unit: WorkUnit) returns (outcome: Outcome)
    ensures outcome.Returned? ==> |outcome.measured| == unit.Size()
  {
    outcome := *;
    if outcome.Returned? && |outcome.measured| != unit.Size() {
      outcome := Raised;
    }
  }

  /** A unit that raised, or left a spec unmeasured, is one failure. */
  method NoteOutcome(report: IssueReport, unit: WorkUnit, cards: seq<int>, outcome: Outcome)
    modifies report`failures
    ensures report.failures == old(report.failures) + FailureOf(Finished(unit, cards, outcome))
  {
    if !Clean(outcome) {
      report.failures := report.failures + [RunFailed(unit.kind, unit.backend)];
    }
  }

  method NoteRefusal(report: IssueReport, unit: WorkUnit, have: nat)
    modifies report`failures
    ensures report.failures == old(report.failures) + FailureOf(Refused(unit, have))
  {
    report.failures := report.failures + [NeedsMoreGpus(unit.kind, unit.backend, unit.gpuCount, have)];
  }

  // ---- the units by GPU count -------------------------------------------------------

  function Select(us: seq<WorkUnit>, keep: int -> bool): seq<WorkUnit> {
    if us == [] then []
    else Select(us[..|us|-1], keep) + (if keep(us[|us|-1].gpuCount) then [us[|us|-1]] else [])
  }

  function Multi(us: seq<WorkUnit>): seq<WorkUnit> {
    Select(us, (n: int) => n > 1)
  }

  function Single(us: seq<WorkUnit>): seq<WorkUnit> {
    Select(us, (n: int) => n == 1)
  }

  lemma TaggedCount(u: WorkUnit, i: Item)
    requires i.gpuCount != u.gpuCount
    ensures multiset(Tagged(u))[i] == 0
  {
    assert i !in Tagged(u);
  }

  lemma {:induction false} SelectItems(us: seq<WorkUnit>, keep: int -> bool)
    ensures forall i: Item :: Items(Select(us, keep))[i] == if keep(i.gpuCount) then Items(us)[i] else 0
  {
    if us != [] {
      var init, u := us[..|us|-1], us[|us|-1];
      SelectItems(init, keep);
      hide Items, Tagged;
      assert us == init + [u];
      ItemsSnoc(init, u);
      ItemsSnoc(Select(init, keep), u);
      assert Select(init, keep) + [] == Select(init, keep);
      forall i: Item ensures
        Items(Select(us, keep))[i] == (if keep(i.gpuCount) then Items(us)[i] else 0)
      {
        if i.gpuCount != u.gpuCount {
          TaggedCount(u, i);
        }
      }
    }
  }

  lemma {:induction false} SelectMembers(us: seq<WorkUnit>, keep: int -> bool)
    ensures forall u :: u in Select(us, keep) ==> keep(u.gpuCount) && u in us
    ensures |Select(us, keep)| <= |us|
  {
    if us != [] {
      SelectMembers(us[..|us|-1], keep);
    }
  }

  // ---- multi-GPU units, one at a time -------------------------------------------------

  lemma SelectSnoc(us: seq<WorkUnit>, u: WorkUnit, keep: int -> bool)
    ensures Items(Select(us + [u], keep)) ==
      Items(Select(us, keep)) + (if keep(u.gpuCount) then multiset(Tagged(u)) else multiset{})
  {
    assert (us + [u])[..|us|] == us;
    ItemsSnoc(Select(us, keep), u);
    assert Select(us, keep) + [] == Select(us, keep);
  }

  lemma PrefixOfPool(gpus: seq<int>, n: nat)
    requires n <= |gpus|
    ensures multiset(gpus[..n]) <= multiset(gpus)
  {
    assert gpus == gpus[..n] + gpus[n..];
  }

  lemma ReadAlone(t: Trace, unit: WorkUnit, cards: seq<int>, outcome: Outcome)
    requires Read(t).busy == multiset{}
    ensures Read(Then(t, Started(unit, cards))).busy == multiset(cards)
    ensures Read(Then(Then(t, Started(unit, cards)), Finished(unit, cards, outcome))).busy == multiset{}
  {
    hide Tagged, FailureOf;
  }

  lemma RunAlone(t: Trace, unit: WorkUnit, outcome: Outcome, gpus: seq<int>)
    requires WellScheduled(t, gpus) && Read(t).busy == multiset{} && 1 < unit.gpuCount <= |gpus|
    requires unit.specs != []
    requires outcome.Returned? ==> |outcome.measured| == unit.Size()
    ensures var cards := gpus[..unit.gpuCount];
      WellScheduled(Then(Then(t, Started(unit, cards)), Finished(unit, cards, outcome)), gpus)
  {
    hide Read, Tagged, FailureOf;
    var cards := gpus[..unit.gpuCount];
    PrefixOfPool(gpus, unit.gpuCount);
    ReadAlone(t, unit, cards, outcome);
    assert WellScheduled(Then(t, Started(unit, cards)), gpus);
  }

  lemma ReadRunAlone(t: Trace, unit: WorkUnit, cards: seq<int>, outcome: Outcome)
    requires Read(t).busy == multiset{}
    ensures var e := Finished(unit, cards, outcome);
      Read(Then(Then(t, Started(unit, cards)), e))
      == Read(t).(started := Read(t).started + multiset(Tagged(unit)),
                  finished := Read(t).finished + multiset(Tagged(unit)),
                  starts := Read(t).starts + 1,
                  failures := Read(t).failures + FailureOf(e))
  {
    hide Tagged, FailureOf;
    Regroup(multiset{}, multiset{}, multiset(cards));
  }

  lemma SelectNothing(keep: int -> bool)
    ensures Items(Select([], keep)) == multiset{}
  {
  }

  lemma ReadRefused(t: Trace, unit: WorkUnit, have: nat, gpus: seq<int>)
    requires WellScheduled(t, gpus) && Read(t).busy == multiset{}
    requires unit.gpuCount > 1 && unit.gpuCount > have == |gpus| && unit.specs != []
    ensures var t' := Then(t, Refused(unit, have));
      && WellScheduled(t', gpus)
      && Read(t') == Read(t).(refused := Read(t).refused + multiset(Tagged(unit)),
                              failures := Read(t).failures + FailureOf(Refused(unit, have)))
  {
  }

  lemma NothingRun(gpus: seq<int>)
    ensures WellScheduled(Start, gpus)
    ensures Read(Start) == Ledger(multiset{}, multiset{}, multiset{}, multiset{}, 0, [])
  {
  }

  method IssueMulti(multi: seq<WorkUnit>, gpus: seq<int>, report: IssueReport) returns (t: Trace)
    requires forall u :: u in multi ==> u.gpuCount > 1 && u.specs != []
    requires report.pieces == 0 && report.failures == []
    modifies report`pieces, report`failures
    ensures WellScheduled(t, gpus) && Read(t).busy == multiset{}
    ensures Read(t).finished == Read(t).started == Items(Select(multi, (n: int) => n <= |gpus|))
    ensures Read(t).refused == Items(Select(multi, (n: int) => n > |gpus|))
    ensures report.failures == Read(t).failures && report.pieces == Read(t).starts <= |multi|
  {
    hide Select, Items, Tagged, FailureOf, Clean, Read, WellScheduled;
    t := Start;
    NothingRun(gpus);
    SelectNothing((n: int) => n <= |gpus|);
    SelectNothing((n: int) => n > |gpus|);
    ghost var fits := (n: int) => n <= |gpus|;
    ghost var exceeds := (n: int) => n > |gpus|;
    for i := 0 to |multi|
      invariant WellScheduled(t, gpus) && Read(t).busy == multiset{}
      invariant Read(t).finished == Read(t).started == Items(Select(multi[..i], fits))
      invariant Read(t).refused == Items(Select(multi[..i], exceeds))
      invariant report.failures == Read(t).failures && report.pieces == Read(t).starts <= i
    {
      var unit := multi[i];
      TakeOneMore(multi, i);
      SelectSnoc(multi[..i], unit, fits);
      SelectSnoc(multi[..i], unit, exceeds);
      if unit.gpuCount > |gpus| {
        NoteRefusal(report, unit, |gpus|);
        ReadRefused(t, unit, |gpus|, gpus);
        t := Then(t, Refused(unit, |gpus|));
        continue;
      }
      report.pieces := report.pieces + 1;
      var cards := gpus[..unit.gpuCount];
      var outcome := Execute(unit);
      RunAlone(t, unit, outcome, gpus);
      ReadRunAlone(t, unit, cards, outcome);
      t := Then(Then(t, Started(unit, cards)), Finished(unit, cards, outcome));
      NoteOutcome(report, unit, cards, outcome);
    }
    assert multi[..|multi|] == multi;
  }

  // ---- single-GPU pieces over the free cards --------------------------------------------

  ghost function CardsOf(jobs: seq<Job>): multiset<int> {
    if jobs == [] then multiset{} else multiset(jobs[0].cards) + CardsOf(jobs[1..])
  }

  ghost function RunningItems(jobs: seq<Job>): multiset<Item> {
    if jobs == [] then multiset{} else multiset(Tagged(jobs[0].unit)) + RunningItems(jobs[1..])
  }

  ghost predicate HaveSpecs(jobs: seq<Job>) {
    jobs == [] || (jobs[0].unit.specs != [] && HaveSpecs(jobs[1..]))
  }

  lemma {:induction false} JobsAppend(a: seq<Job>, b: seq<Job>)
    ensures CardsOf(a + b) == CardsOf(a) + CardsOf(b)
    ensures RunningItems(a + b) == RunningItems(a) + RunningItems(b)
    ensures HaveSpecs(a + b) == (HaveSpecs(a) && HaveSpecs(b))
  {
    if a == [] {
      assert a + b == b;
    } else {
      assert (a + b)[1..] == a[1..] + b;
      JobsAppend(a[1..], b);
    }
  }

  lemma OneJob(job: Job)
    ensures CardsOf([job]) == multiset(job.cards) && RunningItems([job]) == multiset(Tagged(job.unit))
    ensures HaveSpecs([job]) == (job.unit.specs != [])
  {
    assert [job][1..] == [];
  }

  lemma RemoveJob(jobs: seq<Job>, k: nat)
    requires k < |jobs|
    ensures var rest := jobs[..k] + jobs[k+1..];
      && CardsOf(jobs) == CardsOf(rest) + multiset(jobs[k].cards)
      && RunningItems(jobs) == RunningItems(rest) + multiset(Tagged(jobs[k].unit))
      && HaveSpecs(jobs) == (HaveSpecs(rest) && jobs[k].unit.specs != [])
  {
    hide CardsOf, RunningItems, HaveSpecs, Tagged;
    var front, back := jobs[..k], jobs[k+1..];
    assert jobs == (front + [jobs[k]]) + back;
    JobsAppend(front + [jobs[k]], back);
    JobsAppend(front, [jobs[k]]);
    JobsAppend(front, back);
    OneJob(jobs[k]);
  }

  predicate OneCardUnit(u: WorkUnit) {
    u.gpuCount == 1 && u.specs != []
  }

  /** Free cards and the cards of running pieces make up the pool, no card held twice. */
  ghost predicate CardsBalanced(t: Trace, free: seq<int>, running: seq<Job>, gpus: seq<int>) {
    && WellScheduled(t, gpus)
    && multiset(free) + CardsOf(running) == multiset(gpus)
    && Read(t).busy == CardsOf(running)
  }

  /** Finished, running and pending measurements add up to what dispatch started from, and
      the tail-split budget covers the pieces started. */
  ghost predicate WorkBalanced(
      t: Trace, before: Trace, running: seq<Job>, pending: seq<WorkUnit>, queue: seq<WorkUnit>)
  {
    && (forall u :: u in pending ==> OneCardUnit(u))
    && Read(t).started + Items(pending) == Read(before).started + Items(queue)
    && Read(t).finished + RunningItems(running) == Read(t).started
    && HaveSpecs(running)
    && Read(t).refused == Read(before).refused
    && Read(t).starts + Budget(pending) <= Read(before).starts + Budget(queue)
  }

  lemma PiecesAreOneCard(pending: seq<WorkUnit>, freeCount: nat)
    requires pending != [] && forall u :: u in pending ==> OneCardUnit(u)
    ensures var next := NextPiece(pending, freeCount);
      OneCardUnit(next.piece) && forall u :: u in next.rest ==> OneCardUnit(u)
  {
    assert pending[0] in pending;
    if SplitsTail(pending, freeCount) {
      TailSplitSizes(pending, freeCount);
      var sliced := Slices(pending[0], TailPieces(pending, freeCount));
      forall u | u in sliced ensures OneCardUnit(u) {
        var j :| 0 <= j < |sliced| && sliced[j] == u;
        assert u == Piece(pending[0], j, TailPieces(pending, freeCount));
        assert u.Size() >= MIN_PIECE_SPECS;
      }
    }
  }

  lemma Regroup<T>(a: multiset<T>, b: multiset<T>, x: multiset<T>)
    ensures (a + x) + b == a + (b + x) == (a + b) + x == a + (x + b)
    ensures (b + x) - x == b
  {
  }

  lemma StartPiece(t: Trace, before: Trace, freeCount: nat, running: seq<Job>,
      pending: seq<WorkUnit>, cards: seq<int>, queue: seq<WorkUnit>)
    requires WorkBalanced(t, before, running, pending, queue) && pending != []
    ensures var next := NextPiece(pending, freeCount);
      && WorkBalanced(Then(t, Started(next.piece, cards)), before,
                      running + [Job(next.piece, cards)], next.rest, queue)
      && Budget(next.rest) < Budget(pending)
      && OneCardUnit(next.piece)
  {
    hide CardsOf, RunningItems, HaveSpecs, Items, Budget, NextPiece, Tagged, Read;
    var next := NextPiece(pending, freeCount);
    var job := Job(next.piece, cards);
    var before', after := Read(t), Read(Then(t, Started(next.piece, cards)));
    ReadStarted(t, next.piece, cards);
    NextPieceFacts(pending, freeCount);
    PiecesAreOneCard(pending, freeCount);
    JobsAppend(running, [job]);
    OneJob(job);
    var x := multiset(Tagged(next.piece));
    assert after.started + Items(next.rest) == before'.started + Items(pending) by {
      Regroup(before'.started, Items(next.rest), x);
    }
    assert after.finished + RunningItems(running + [job]) == after.started by {
      Regroup(before'.finished, RunningItems(running), x);
    }
  }

  lemma ReadStarted(t: Trace, unit: WorkUnit, cards: seq<int>)
    ensures var l := Read(Then(t, Started(unit, cards)));
      && l.started == Read(t).started + multiset(Tagged(unit))
      && l.finished == Read(t).finished && l.refused == Read(t).refused
      && l.starts == Read(t).starts + 1 && l.failures == Read(t).failures
  {
  }

  lemma TakeCard(t: Trace, free: seq<int>, running: seq<Job>, piece: WorkUnit, gpus: seq<int>)
    requires CardsBalanced(t, free, running, gpus) && free != [] && OneCardUnit(piece)
    ensures var cards := [free[|free|-1]];
      CardsBalanced(Then(t, Started(piece, cards)), free[..|free|-1], running + [Job(piece, cards)], gpus)
  {
    hide CardsOf, RunningItems, HaveSpecs, Tagged;
    var left, cards := free[..|free|-1], [free[|free|-1]];
    var t' := Then(t, Started(piece, cards));
    assert free == left + cards;
    JobsAppend(running, [Job(piece, cards)]);
    OneJob(Job(piece, cards));
    Regroup(multiset(left), CardsOf(running), multiset(cards));
    assert Read(t').busy == CardsOf(running) + multiset(cards);
    assert Read(t').busy <= multiset(gpus);
    assert WellScheduled(t', gpus);
  }

  lemma ReturnCards(t: Trace, free: seq<int>, running: seq<Job>, k: nat, outcome: Outcome, gpus: seq<int>)
    requires CardsBalanced(t, free, running, gpus) && k < |running| && running[k].unit.specs != []
    requires (outcome.Returned? ==> |outcome.measured| == running[k].unit.Size())
    ensures CardsBalanced(Then(t, Finished(running[k].unit, running[k].cards, outcome)),
                          free + running[k].cards, running[..k] + running[k+1..], gpus)
  {
    hide CardsOf, RunningItems, HaveSpecs, Tagged, FailureOf;
    var job, rest := running[k], running[..k] + running[k+1..];
    var t' := Then(t, Finished(job.unit, job.cards, outcome));
    RemoveJob(running, k);
    var held, returned := CardsOf(rest), multiset(job.cards);
    Regroup(multiset(free), held, returned);
    assert Read(t').busy == Read(t).busy - returned == held;
    assert multiset(free + job.cards) == multiset(free) + returned;
    assert returned <= Read(t).busy;
    assert held <= multiset(gpus);
    assert WellScheduled(t', gpus);
  }

  lemma FinishPiece(t: Trace, before: Trace, running: seq<Job>, k: nat,
      outcome: Outcome, pending: seq<WorkUnit>, queue: seq<WorkUnit>)
    requires WorkBalanced(t, before, running, pending, queue) && k < |running|
    ensures WorkBalanced(Then(t, Finished(running[k].unit, running[k].cards, outcome)), before,
                         running[..k] + running[k+1..], pending, queue)
  {
    hide CardsOf, RunningItems, HaveSpecs, Items, Budget, Tagged, FailureOf;
    var job, rest := running[k], running[..k] + running[k+1..];
    RemoveJob(running, k);
    Regroup(Read(t).finished, RunningItems(rest), multiset(Tagged(job.unit)));
  }

  lemma RunningUnitsHaveSpecs(t: Trace, before: Trace, running: seq<Job>, pending: seq<WorkUnit>,
      queue: seq<WorkUnit>, k: nat)
    requires WorkBalanced(t, before, running, pending, queue) && k < |running|
    ensures running[k].unit.specs != []
  {
    RemoveJob(running, k);
  }

  function LeftAfter(pending: seq<WorkUnit>, takes: seq<Taken>, k: nat): seq<WorkUnit>
    requires k <= |takes|
  {
    if k == 0 then pending else takes[k - 1].rest
  }

  /** One taking after the other, with one free card fewer each time. */
  ghost predicate Handed(pending: seq<WorkUnit>, freeCount: nat, takes: seq<Taken>) {
    |takes| <= freeCount && forall k :: 0 <= k < |takes| ==> TookAt(pending, freeCount, takes, k)
  }

  ghost predicate TookAt(pending: seq<WorkUnit>, freeCount: nat, takes: seq<Taken>, k: nat)
    requires k < |takes| <= freeCount
  {
    LeftAfter(pending, takes, k) != [] && IsTake(LeftAfter(pending, takes, k), freeCount - k, takes[k])
  }

  /** The pieces on the cards they are given, the last card first. */
  function JobsOf(takes: seq<Taken>, free: seq<int>): seq<Job>
    requires |takes| <= |free|
  {
    seq(|takes|, k requires 0 <= k < |takes| => Job(takes[k].piece, [free[|free| - 1 - k]]))
  }

  lemma NothingHanded(pending: seq<WorkUnit>, free: seq<int>)
    ensures Handed(pending, |free|, []) && LeftAfter(pending, [], 0) == pending && JobsOf([], free) == []
  {
  }

  lemma HandedOneMore(pending: seq<WorkUnit>, free: seq<int>, takes: seq<Taken>, t: Taken)
    requires Handed(pending, |free|, takes) && |takes| < |free|
    requires LeftAfter(pending, takes, |takes|) != []
    requires IsTake(LeftAfter(pending, takes, |takes|), |free| - |takes|, t)
    ensures Handed(pending, |free|, takes + [t]) && LeftAfter(pending, takes + [t], |takes| + 1) == t.rest
    ensures JobsOf(takes + [t], free) == JobsOf(takes, free) + [Job(t.piece, [free[|free| - 1 - |takes|]])]
  {
    hide IsTake;
    var more := takes + [t];
    forall k | 0 <= k < |more| ensures TookAt(pending, |free|, more, k) {
      assert k < |takes| ==> TookAt(pending, |free|, takes, k);
      assert LeftAfter(pending, more, k) == LeftAfter(pending, takes, k);
    }
  }

  /** `while free and pending`: hand every free card a piece. */
  method FillFreeCards(pending: PendingQueue, free0: seq<int>, running0: seq<Job>, t0: Trace,
      ghost before: Trace, ghost gpus: seq<int>, ghost queue: seq<WorkUnit>, report: IssueReport)
    returns (free: seq<int>, running: seq<Job>, t: Trace, ghost takes: seq<Taken>)
    requires CardsBalanced(t0, free0, running0, gpus)
    requires WorkBalanced(t0, before, running0, pending.items, queue)
    requires report.failures == Read(t0).failures && report.pieces == Read(t0).starts
    modifies report`pieces, report`splitUnits, pending
    ensures CardsBalanced(t, free, running, gpus)
    ensures WorkBalanced(t, before, running, pending.items, queue)
    ensures report.failures == Read(t).failures && report.pieces == Read(t).starts
    ensures free == [] || pending.items == []
    ensures Handed(old(pending.items), |free0|, takes) && pending.items == LeftAfter(old(pending.items), takes, |takes|)
    ensures running == running0 + JobsOf(takes, free0) && free == free0[..|free0| - |takes|]
    ensures 2 * Budget(pending.items) + |running| <= 2 * Budget(old(pending.items)) + |running0|
    ensures free0 == [] ==> t == t0 && running == running0 && free == []
    ensures old(report.splitUnits) <= report.splitUnits
  {
    hide CardsOf, RunningItems, HaveSpecs, Items, Budget, Tagged, NextPiece, Read, CardsBalanced, WorkBalanced;
    hide Handed, LeftAfter, JobsOf, IsTake;
    free, running, t, takes := free0, running0, t0, [];
    NothingHanded(pending.items, free0);
    ghost var bound := 2 * Budget(pending.items) + |running|;
    while free != [] && pending.items != []
      invariant CardsBalanced(t, free, running, gpus)
      invariant WorkBalanced(t, before, running, pending.items, queue)
      invariant report.failures == Read(t).failures && report.pieces == Read(t).starts
      invariant old(report.splitUnits) <= report.splitUnits
      invariant 2 * Budget(pending.items) + |running| <= bound
      invariant |takes| <= |free0| && free == free0[..|free0| - |takes|]
      invariant Handed(old(pending.items), |free0|, takes)
      invariant pending.items == LeftAfter(old(pending.items), takes, |takes|)
      invariant running == running0 + JobsOf(takes, free0)
      invariant free0 == [] ==> t == t0 && running == running0 && free == []
      decreases Budget(pending.items)
    {
      StartPiece(t, before, |free|, running, pending.items, [free[|free|-1]], queue);
      TakeCard(t, free, running, NextPiece(pending.items, |free|).piece, gpus);
      ghost var next := NextPiece(pending.items, |free|);
      NextPieceIsTake(pending.items, |free|);
      HandedOneMore(old(pending.items), free0, takes, next);
      takes := takes + [next];
      var piece := TakeNext(pending, |free|, report);
      var cards := [free[|free|-1]];
      ReadStarted(t, piece, cards);
      free := free[..|free|-1];
      running := running + [Job(piece, cards)];
      t := Then(t, Started(piece, cards));
      report.pieces := report.pieces + 1;
    }
  }

  lemma DispatchBegins(before: Trace, gpus: seq<int>, queue: seq<WorkUnit>)
    requires WellScheduled(before, gpus) && Read(before).busy == multiset{}
    requires Read(before).started == Read(before).finished
    requires forall u :: u in queue ==> OneCardUnit(u)
    ensures CardsBalanced(before, gpus, [], gpus) && WorkBalanced(before, before, [], queue, queue)
  {
  }

  lemma DispatchEnds(t: Trace, before: Trace, free: seq<int>, pending: seq<WorkUnit>,
      gpus: seq<int>, queue: seq<WorkUnit>)
    requires CardsBalanced(t, free, [], gpus) && WorkBalanced(t, before, [], pending, queue)
    requires free == [] || pending == []
    requires Read(before).started == Read(before).finished
    requires gpus == [] ==> t == before
    ensures WellScheduled(t, gpus) && Read(t).busy == multiset{}
    ensures Read(t).started == Read(t).finished
    ensures Read(t).finished == Read(before).finished + (if gpus == [] then multiset{} else Items(queue))
    ensures Read(t).refused == Read(before).refused
    ensures Read(t).starts <= Read(before).starts + Budget(queue)
  {
    if gpus != [] {
      assert multiset(free) == multiset(gpus) && gpus[0] in multiset(gpus);
      assert gpus[0] in multiset(free);
      assert free != [];
      assert pending == [] && Items(pending) == multiset{};
    }
  }

  /** The `while pending or running` loop. */
  method DispatchSingles(queue: seq<WorkUnit>, gpus: seq<int>, before: Trace, report: IssueReport)
    returns (t: Trace)
    requires WellScheduled(before, gpus) && Read(before).busy == multiset{}
    requires Read(before).started == Read(before).finished
    requires forall u :: u in queue ==> OneCardUnit(u)
    requires report.failures == Read(before).failures && report.pieces == Read(before).starts
    modifies report`pieces, report`failures, report`splitUnits
    ensures WellScheduled(t, gpus) && Read(t).busy == multiset{}
    ensures Read(t).started == Read(t).finished
    ensures Read(t).finished == Read(before).finished + (if gpus == [] then multiset{} else Items(queue))
    ensures Read(t).refused == Read(before).refused
    ensures report.failures == Read(t).failures && report.pieces == Read(t).starts
    ensures Read(t).starts <= Read(before).starts + Budget(queue)
    ensures old(report.splitUnits) <= report.splitUnits
  {
    hide CardsOf, RunningItems, HaveSpecs, Items, Budget, CardsBalanced, WorkBalanced, WellScheduled, Read;
    t := before;
    var pending := new PendingQueue(queue);
    var free := gpus;
    var running: seq<Job> := [];
    DispatchBegins(before, gpus, queue);
    while pending.items != [] || running != []
      modifies report`pieces, report`failures, report`splitUnits, pending
      invariant CardsBalanced(t, free, running, gpus)
      invariant WorkBalanced(t, before, running, pending.items, queue)
      invariant gpus == [] ==> t == before && running == [] && free == []
      invariant report.failures == Read(t).failures && report.pieces == Read(t).starts
      invariant old(report.splitUnits) <= report.splitUnits
      decreases 2 * Budget(pending.items) + |running|
    {
      ghost var takes;
      free, running, t, takes := FillFreeCards(pending, free, running, t, before, gpus, queue, report);
      if running == [] {
        break;
      }
      t, free, running := CollectDone(t, before, free, running, pending.items, gpus, queue, report);
    }
    DispatchEnds(t, before, free, pending.items, gpus, queue);
  }

  /** `wait(FIRST_COMPLETED)`: any non-empty set of running pieces, in any order. */
  method CollectDone(t0: Trace, ghost before: Trace, free0: seq<int>, running0: seq<Job>,
      ghost pending: seq<WorkUnit>, ghost gpus: seq<int>, ghost queue: seq<WorkUnit>, report: IssueReport)
    returns (t: Trace, free: seq<int>, running: seq<Job>)
    requires running0 != []
    requires CardsBalanced(t0, free0, running0, gpus)
    requires WorkBalanced(t0, before, running0, pending, queue)
    requires report.failures == Read(t0).failures && report.pieces == Read(t0).starts
    modifies report`failures
    ensures CardsBalanced(t, free, running, gpus) && WorkBalanced(t, before, running, pending, queue)
    ensures report.failures == Read(t).failures && report.pieces == Read(t).starts
    ensures |running| < |running0|
  {
    hide CardsOf, RunningItems, HaveSpecs, Items, Tagged, CardsBalanced, WorkBalanced, FailureOf;
    t, free, running := t0, free0, running0;
    var more := true;
    while more && running != []
      invariant CardsBalanced(t, free, running, gpus) && WorkBalanced(t, before, running, pending, queue)
      invariant report.failures == Read(t).failures && report.pieces == Read(t).starts
      invariant |running| <= |running0| && (!more ==> |running| < |running0|)
      decreases |running|
    {
      var k :| 0 <= k < |running|;
      var job := running[k];
      var outcome := Execute(job.unit);
      RunningUnitsHaveSpecs(t, before, running, pending, queue, k);
      ReturnCards(t, free, running, k, outcome, gpus);
      FinishPiece(t, before, running, k, outcome, pending, queue);
      NoteOutcome(report, job.unit, job.cards, outcome);
      t := Then(t, Finished(job.unit, job.cards, outcome));
      free := free + job.cards;
      running := running[..k] + running[k+1..];
      more := *;
    }
  }

  // ---- issue ------------------------------------------------------------------------

  /** The GPU counts a pool of `cards` runs. */
  predicate RunsOn(n: int, cards: nat) {
    if n > 1 then n <= cards else n == 1 && cards > 0
  }

  /** The GPU counts `issue` reports as not fitting. */
  predicate TooLarge(n: int, cards: nat) {
    n > 1 && n > cards
  }

  ghost function Only(items: multiset<Item>, keep: int -> bool): (r: multiset<Item>)
    ensures forall i: Item :: r[i] == if keep(i.gpuCount) then items[i] else 0
  {
    if items == multiset{} then multiset{}
    else
      var i :| i in items;
      Only(items - multiset{i}, keep) + (if keep(i.gpuCount) then multiset{i} else multiset{})
  }

  /** Every collected measurement, in the units `issue` makes of them. */
  ghost function AllItems(store: Store, gpuCount: GpuCountFn): multiset<Item> {
    Collected(store.order, store, gpuCount)
  }

  function AllUnits(store: Store, gpuCount: GpuCountFn): seq<WorkUnit> {
    LargestFirst(UnitsOf(store.order, store, gpuCount))
  }

  lemma UnitsByCount(units: seq<WorkUnit>, cards: nat)
    ensures Items(Select(Multi(units), (n: int) => n <= cards)) + (if cards == 0 then multiset{} else Items(Single(units)))
      == Only(Items(units), (n: int) => RunsOn(n, cards))
    ensures Items(Select(Multi(units), (n: int) => n > cards))
      == Only(Items(units), (n: int) => TooLarge(n, cards))
  {
    hide Select, Items, Only;
    SelectItems(units, (n: int) => n > 1);
    SelectItems(units, (n: int) => n == 1);
    SelectItems(Multi(units), (n: int) => n <= cards);
    SelectItems(Multi(units), (n: int) => n > cards);
    var fits := Items(Select(Multi(units), (n: int) => n <= cards));
    var single := if cards == 0 then multiset{} else Items(Single(units));
    var runs := Only(Items(units), (n: int) => RunsOn(n, cards));
    forall i: Item ensures (fits + single)[i] == runs[i] {
      assert Items(Single(units))[i] == if i.gpuCount == 1 then Items(units)[i] else 0;
    }
    var exceeds := Items(Select(Multi(units), (n: int) => n > cards));
    var large := Only(Items(units), (n: int) => TooLarge(n, cards));
    forall i: Item ensures exceeds[i] == large[i] {
    }
  }

  lemma MultiAndSingle(units: seq<WorkUnit>)
    ensures |Multi(units)| <= |units|
    ensures forall u :: u in Multi(units) ==> u.gpuCount > 1 && u in units
    ensures forall u :: u in Single(units) ==> u.gpuCount == 1 && u in units
  {
    SelectMembers(units, (n: int) => n > 1);
    SelectMembers(units, (n: int) => n == 1);
  }

  lemma QueueOfSingles(singles: seq<WorkUnit>, cards: nat)
    requires forall u :: u in singles ==> OneCardUnit(u)
    ensures forall u :: u in Queue(singles, cards) ==> OneCardUnit(u)
  {
    if cards >= 2 && singles != [] {
      var total := TotalSize(singles);
      LargestFirstSorts(CutAll(singles, cards, total));
      CutKeepsOneCard(singles, cards, total);
      forall u | u in Queue(singles, cards) ensures OneCardUnit(u) {
        assert u in multiset(Queue(singles, cards));
      }
    }
  }

  lemma CutOneKeepsOneCard(u: WorkUnit, cards: nat, total: nat)
    requires cards >= 2 && OneCardUnit(u)
    ensures forall p :: p in CutOne(u, cards, total) ==> OneCardUnit(p)
  {
    hide PiecesFor, EvenShare, Slices;
    if IsCut(u, cards, total) {
      SlicesAreShares(u, PiecesFor(u.Size(), cards, total));
    }
  }

  lemma {:induction false} CutKeepsOneCard(singles: seq<WorkUnit>, cards: nat, total: nat)
    requires cards >= 2 && forall u :: u in singles ==> OneCardUnit(u)
    ensures forall u :: u in CutAll(singles, cards, total) ==> OneCardUnit(u)
  {
    hide CutOne;
    if singles != [] {
      CutKeepsOneCard(singles[..|singles|-1], cards, total);
      CutOneKeepsOneCard(singles[|singles|-1], cards, total);
    }
  }

  /** For any collected work, any pool and any order of completions and failures: every
      collected measurement the pool can run is passed to exactly one run, those too large are
      reported, cards are never overcommitted, and the tail-split budget bounds the runs. */
  method Issue(collector: WorkCollector, gpus: seq<int>, gpuCount: GpuCountFn)
    returns (report: IssueReport, t: Trace)
    requires collector.Valid()
    ensures var store := collector.Contents();
      && WellScheduled(t, gpus) && Read(t).busy == multiset{}
      && Read(t).started == Read(t).finished
      && Read(t).finished == Only(AllItems(store, gpuCount), (n: int) => RunsOn(n, |gpus|))
      && Read(t).refused == Only(AllItems(store, gpuCount), (n: int) => TooLarge(n, |gpus|))
    ensures var units := AllUnits(collector.Contents(), gpuCount);
      && report.units == |units| && report.specs == TotalSize(units)
      && Read(t).starts <= |Multi(units)| + Budget(Queue(Single(units), |gpus|))
      && (|gpus| >= 2 ==>
           CutLabels(Single(units), |gpus|, TotalSize(Single(units))) <= report.splitUnits)
    ensures report.failures == Read(t).failures && report.pieces == Read(t).starts
  {
    hide Items, Tagged, Budget, Read, WellScheduled, UnitsOf, LargestFirst, Queue, CutLabels, Select, Only, Collected;
    var units := collector.Units(gpuCount);
    report := new IssueReport();
    report.units := |units|;
    report.specs := TotalSize(units);
    var multi, single := Multi(units), Single(units);
    UnitsSplitWithoutLoss(collector.Contents(), gpuCount);
    UnitsByCount(units, |gpus|);
    MultiAndSingle(units);
    t := IssueMulti(multi, gpus, report);
    var queue := SliceOversized(single, |gpus|, report);
    QueueFacts(single, |gpus|);
    QueueOfSingles(single, |gpus|);
    t := DispatchSingles(queue, gpus, t, report);
  }

  ghost function Flagged(items: seq<Item>, flags: seq<bool>): multiset<Item> {
    if items == [] || flags == [] then multiset{}
    else (if flags[0] then multiset{items[0]} else multiset{}) + Flagged(items[1..], flags[1..])
  }

  ghost function MeasuredBy(e: Event): multiset<Item> {
    if e.Finished? && e.outcome.Returned? then Flagged(Tagged(e.unit), e.outcome.measured) else multiset{}
  }

  /** The measurements that came back with metrics. */
  ghost function Measured(t: Trace): multiset<Item> {
    match t
    case Start => multiset{}
    case Then(earlier, e) => Measured(earlier) + MeasuredBy(e)
  }

  lemma {:induction false} FlaggedCount(items: seq<Item>, flags: seq<bool>)
    requires |items| == |flags|
    ensures Flagged(items, flags) <= multiset(items)
    ensures (forall i :: 0 <= i < |flags| ==> flags[i]) ==> Flagged(items, flags) == multiset(items)
  {
    if items != [] {
      FlaggedCount(items[1..], flags[1..]);
      assert items == [items[0]] + items[1..];
      assert multiset(items) == multiset{items[0]} + multiset(items[1..]);
    }
  }

  lemma {:induction false} UnflaggedIsMissing(items: seq<Item>, flags: seq<bool>, k: nat)
    requires |items| == |flags| && k < |flags| && !flags[k]
    ensures |Flagged(items, flags)| < |items|
  {
    FlaggedCount(items[1..], flags[1..]);
    if k > 0 {
      UnflaggedIsMissing(items[1..], flags[1..], k - 1);
    } else {
      FewerInSubset(Flagged(items[1..], flags[1..]), multiset(items[1..]));
    }
  }

  lemma FewerInSubset<T>(a: multiset<T>, b: multiset<T>)
    requires a <= b
    ensures |a| <= |b| && (|a| == |b| ==> a == b)
  {
    assert b == a + (b - a);
  }

  /** What a run measures is part of what it ran, and all of it exactly when it is clean. */
  lemma CleanRunMeasuresAll(e: Event)
    requires e.Finished? && e.unit.specs != []
    requires e.outcome.Returned? ==> |e.outcome.measured| == e.unit.Size()
    ensures MeasuredBy(e) <= multiset(Tagged(e.unit))
    ensures Clean(e.outcome) <==> MeasuredBy(e) == multiset(Tagged(e.unit))
  {
    assert |multiset(Tagged(e.unit))| == |Tagged(e.unit)| > 0;
    if e.outcome.Returned? {
      FlaggedCount(Tagged(e.unit), e.outcome.measured);
      if !Clean(e.outcome) {
        var k :| 0 <= k < |e.outcome.measured| && !e.outcome.measured[k];
        UnflaggedIsMissing(Tagged(e.unit), e.outcome.measured, k);
      }
    }
  }

  /** Over a whole trace: no failure is reported exactly when nothing was refused and
      everything that ran was measured. */
  lemma {:induction false} NoFailuresMeansMeasured(t: Trace, gpus: seq<int>)
    requires WellScheduled(t, gpus)
    ensures Measured(t) <= Read(t).finished
    ensures Read(t).failures == [] <==> Read(t).refused == multiset{} && Measured(t) == Read(t).finished
  {
    if t.Then? {
      var earlier, e := t.earlier, t.last;
      NoFailuresMeansMeasured(earlier, gpus);
      match e
      case Started(_, _) =>
      case Refused(u, _) =>
        assert multiset(Tagged(u))[Tagged(u)[0]] > 0;
        assert Read(t).refused[Tagged(u)[0]] > 0;
      case Finished(u, _, _) =>
        CleanRunMeasuresAll(e);
        SumsOfParts(Measured(earlier), Read(earlier).finished, MeasuredBy(e), multiset(Tagged(u)));
    }
  }

  lemma SumsOfParts<T>(a: multiset<T>, b: multiset<T>, x: multiset<T>, y: multiset<T>)
    requires a <= b && x <= y
    ensures a + x <= b + y
    ensures a + x == b + y <==> a == b && x == y
  {
    FewerInSubset(a, b);
    FewerInSubset(x, y);
    if a + x == b + y {
      assert |a + x| == |a| + |x| && |b + y| == |b| + |y|;
    }
  }

  /** The counts `issue` neither runs nor reports: below 1, or a single card of an empty pool. */
  predicate SilentlyDropped(n: int, cards: nat) {
    !RunsOn(n, cards) && !TooLarge(n, cards)
  }

  /** `issue` reports no failure although something collected was not measured exactly when
      some spec's GPU count is below 1, or the pool is empty: with those excluded, an empty
      failure list means every collected spec was measured, and conversely. */
  lemma NoFailuresVerdict(t: Trace, gpus: seq<int>, all: multiset<Item>)
    requires WellScheduled(t, gpus)
    requires Read(t).finished == Only(all, (n: int) => RunsOn(n, |gpus|))
    requires Read(t).refused == Only(all, (n: int) => TooLarge(n, |gpus|))
    ensures Measured(t) == all <==>
      Read(t).failures == [] && forall i :: i in all ==> !SilentlyDropped(i.gpuCount, |gpus|)
  {
    hide Read, Measured, WellScheduled;
    NoFailuresMeansMeasured(t, gpus);
    var finished, refused := Read(t).finished, Read(t).refused;
    assert forall i: Item :: finished[i] == if RunsOn(i.gpuCount, |gpus|) then all[i] else 0;
    assert forall i: Item :: refused[i] == if TooLarge(i.gpuCount, |gpus|) then all[i] else 0;
    if Measured(t) == all {
      EverythingRan(all, finished, refused, |gpus|);
    } else if refused == multiset{} && forall i :: i in all ==> !SilentlyDropped(i.gpuCount, |gpus|) {
      NothingLeftOut(all, finished, refused, |gpus|);
    }
  }

  lemma EverythingRan(all: multiset<Item>, finished: multiset<Item>, refused: multiset<Item>, cards: nat)
    requires forall i: Item :: finished[i] == if RunsOn(i.gpuCount, cards) then all[i] else 0
    requires forall i: Item :: refused[i] == if TooLarge(i.gpuCount, cards) then all[i] else 0
    requires all <= finished
    ensures finished == all && refused == multiset{}
    ensures forall i :: i in all ==> !SilentlyDropped(i.gpuCount, cards)
  {
    forall i | i in all ensures RunsOn(i.gpuCount, cards) {
      assert all[i] <= finished[i];
    }
    forall i: Item ensures refused[i] == 0 {
    }
  }

  lemma NothingLeftOut(all: multiset<Item>, finished: multiset<Item>, refused: multiset<Item>, cards: nat)
    requires forall i: Item :: finished[i] == if RunsOn(i.gpuCount, cards) then all[i] else 0
    requires forall i: Item :: refused[i] == if TooLarge(i.gpuCount, cards) then all[i] else 0
    requires refused == multiset{} && forall i :: i in all ==> !SilentlyDropped(i.gpuCount, cards)
    ensures finished == all
  {
    forall i: Item ensures finished[i] == all[i] {
      assert refused[i] == 0;
    }
  }

  /** The drop is real: one collected spec with GPU count 0 is neither run nor reported. */
  lemma ZeroCountSpecIsDropped(spec: Spec, gpus: seq<int>)
    ensures var store := Recorded(EMPTY_STORE, Key("kind", "backend", None), [spec]);
      var zero: GpuCountFn := (_, _, _) => 0;
      && AllItems(store, zero) != multiset{}
      && Only(AllItems(store, zero), (n: int) => RunsOn(n, |gpus|)) == multiset{}
      && Only(AllItems(store, zero), (n: int) => TooLarge(n, |gpus|)) == multiset{}
  {
    var key := Key("kind", "backend", None);
    var store := Recorded(EMPTY_STORE, key, [spec]);
    var zero: GpuCountFn := (_, _, _) => 0;
    assert Bucket(store, key) == [spec] by {
      assert [spec][1..] == [];
      assert Unseen([spec], {}) == [spec];
      assert SpecSet([]) == {};
    }
    assert store.order == [key];
    assert [key][..0] == [];
    ItemsOfKeyCons(key, spec, [], zero);
    assert ItemOf(key, spec, zero) in ItemsOfKey(key, [spec] + [], zero);
    assert [spec] + [] == [spec];
    assert AllItems(store, zero) == Collected([], store, zero) + ItemsOfKey(key, [spec], zero);
    BucketCounts(key, [spec], zero);
  }

  lemma BucketCounts(key: Key, specs: seq<Spec>, gpuCount: GpuCountFn)
    ensures forall i :: i in ItemsOfKey(key, specs, gpuCount) ==>
      exists s :: s in specs && i == ItemOf(key, s, gpuCount)
  {
    var items := seq(|specs|, i requires 0 <= i < |specs| => ItemOf(key, specs[i], gpuCount));
    forall i | i in ItemsOfKey(key, specs, gpuCount)
      ensures exists s :: s in specs && i == ItemOf(key, s, gpuCount)
    {
      assert i in items;
      var k :| 0 <= k < |items| && items[k] == i;
      assert specs[k] in specs;
    }
  }

  // ---- what the report says ----------------------------------------------------------------------------------

  predicate Happened(t: Trace, e: Event) {
    t.Then? && (t.last == e || Happened(t.earlier, e))
  }

  /** A refusal is reported with the GPUs its unit needs and those there are; a run under its kind and
      backend, if it raised or came back with a spec unmeasured. */
  predicate Names(f: Failure, e: Event) {
    match e
    case Refused(u, have) =>
      f.NeedsMoreGpus? && f.kind == u.kind && f.backend == u.backend && f.needs == u.gpuCount && f.have == have
    case Started(_, _) => false
    case Finished(u, _, outcome) =>
      && f.RunFailed? && f.kind == u.kind && f.backend == u.backend
      && (outcome.Raised? || exists i :: 0 <= i < |outcome.measured| && !outcome.measured[i])
  }

  function Failing(t: Trace): nat {
    match t
    case Start => 0
    case Then(earlier, Started(_, _)) => Failing(earlier)
    case Then(earlier, Refused(_, _)) => Failing(earlier) + 1
    case Then(earlier, Finished(_, _, outcome)) =>
      Failing(earlier) + if outcome.Raised? || false in outcome.measured then 1 else 0
  }

  lemma FailureNames(e: Event)
    requires !e.Started?
    ensures forall f :: f in FailureOf(e) <==> Names(f, e)
    ensures |FailureOf(e)| == if e.Refused? || e.outcome.Raised? || false in e.outcome.measured then 1 else 0
  {
    if e.Finished? && e.outcome.Returned? {
      assert Clean(e.outcome) <==> false !in e.outcome.measured;
    }
  }

  /** The failures reported are one for each refusal and each run that failed, and name it. */
  lemma {:induction false} FailuresName(t: Trace)
    ensures forall f :: f in Read(t).failures <==> exists e :: Happened(t, e) && Names(f, e)
    ensures |Read(t).failures| == Failing(t)
  {
    if t.Then? {
      FailuresName(t.earlier);
      if !t.last.Started? {
        FailureNames(t.last);
      }
      hide Names, FailureOf, Clean, Tagged;
      forall f ensures f in Read(t).failures <==> exists e :: Happened(t, e) && Names(f, e) {
        if e :| Happened(t, e) && Names(f, e) {
          OnlyEnds(f, t.last);
        }
        if f in Read(t.earlier).failures {
          var e :| Happened(t.earlier, e) && Names(f, e);
          assert Happened(t, e);
        } else if f in Read(t).failures {
          assert Happened(t, t.last) && Names(f, t.last);
        }
      }
    }
  }

  lemma OnlyEnds(f: Failure, e: Event)
    ensures e.Started? ==> !Names(f, e)
  {
  }
}
