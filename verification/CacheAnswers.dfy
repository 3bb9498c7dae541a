/** What an answer of the cache prebuild means, and when one needs no exclusive lease
    (launcher/cache_build.py:141-145, 164-191, 287). */
module CacheAnswers {
  import opened Common
  import opened CacheKey
  import opened CachePrebuild

  /** A probe, the GPU check, a build or its verification goes wrong in launcher `l`'s call. */
  ghost predicate Fails(need: Needs, s: State, step: Step, l: nat) {
    match step
    case Probe(m, ok) => m == l && !ok
    case Recheck(m, ok) => m == l && !ok
    case NoGpu(m) => m == l
    case FillEnds(m, ok) => m == l && !ok
    case Verify(m, ok) => m == l && (!ok || RowStillMissing(need, s, m))
    case _ => false
  }

  /** The build a launcher verifies has left a row of its key unwritten. */
  ghost predicate RowStillMissing(need: Needs, s: State, l: nat) {
    var pc := PcOf(s, l);
    pc.Verifying? && pc.at < |pc.pending| && exists row :: row in need(KeyOf(pc.pending[pc.at])) && row !in s.rows
  }

  ghost predicate HasFailed(need: Needs, s: State, steps: seq<Step>, l: nat)
    requires Executable(need, s, steps)
    decreases |steps|
  {
    steps != [] && (Fails(need, s, steps[0], l) || HasFailed(need, Apply(need, s, steps[0]), steps[1..], l))
  }

  predicate Answers(s: State, l: nat, ok: bool) {
    l in s.launchers && s.launchers[l].pc == Returned(ok)
  }

  predicate IsDead(s: State, l: nat) {
    l in s.launchers && s.launchers[l].pc.Dead?
  }

  lemma MissingMeansRow(need: Needs, rows: set<Row>, c: Config)
    ensures !Covered(need, rows, c) <==> exists row :: row in need(KeyOf(c)) && row !in rows
  {
    hide KeyOf;
    if !Covered(need, rows, c) {
      var row :| row in MissingRows(need, rows, c);
      assert row in need(KeyOf(c)) && row !in rows;
    } else {
      assert forall row :: row in need(KeyOf(c)) ==> row !in MissingRows(need, rows, c);
    }
  }

  lemma StepAnswers(need: Needs, s: State, step: Step, l: nat)
    requires Enabled(need, s, step)
    ensures Answers(Apply(need, s, step), l, false) ==> Answers(s, l, false) || Fails(need, s, step, l)
    ensures Fails(need, s, step, l) ==> Answers(Apply(need, s, step), l, false)
    ensures Answers(s, l, false) || IsDead(s, l) ==>
      Answers(Apply(need, s, step), l, false) || IsDead(Apply(need, s, step), l)
  {
    hide KeyOf, Representatives;
    if step.Verify? {
      var pc := PcOf(s, step.l);
      MissingMeansRow(need, s.rows, pc.pending[pc.at]);
    }
    hide Covered;
  }

  lemma {:induction false} RunAnswers(need: Needs, s: State, steps: seq<Step>, l: nat)
    requires Executable(need, s, steps)
    ensures var t := After(need, s, steps);
      && (Answers(t, l, false) ==> Answers(s, l, false) || HasFailed(need, s, steps, l))
      && (HasFailed(need, s, steps, l) || Answers(s, l, false) || IsDead(s, l) ==> Answers(t, l, false) || IsDead(t, l))
    decreases |steps|
  {
    hide Enabled, Apply, Fails, Answers, IsDead;
    if steps != [] {
      StepAnswers(need, s, steps[0], l);
      RunAnswers(need, Apply(need, s, steps[0]), steps[1..], l);
    }
  }

  /** In every run: a call that has answered, answered False exactly when one of its probes, its GPU
      check, a build of its or a verification failed, and True exactly when none did. */
  lemma AnswerExactlyWhen(need: Needs, rows0: set<Row>, steps: seq<Step>, l: nat)
    requires Executable(need, Initial(rows0), steps)
    ensures var s := After(need, Initial(rows0), steps);
      && (Answers(s, l, false) <==> HasFailed(need, Initial(rows0), steps, l) && !IsDead(s, l))
      && (Answers(s, l, true) ==> !HasFailed(need, Initial(rows0), steps, l))
  {
    RunAnswers(need, Initial(rows0), steps, l);
  }

  // ---- a warm cache ------------------------------------------------------------------------------

  /** A launcher that has found nothing missing so far, and holds at most the shared lease. */
  predicate Warm(s: State, l: nat) {
    l in s.launchers && match s.launchers[l].pc
                        case Ready => true
                        case Probing(_, pending) => pending == []
                        case Returned(_) => true
                        case Dead => true
                        case _ => false
  }

  lemma StepKeepsWarm(need: Needs, s: State, step: Step, l: nat)
    requires LeaseInv(s) && CoverInv(need, s) && Enabled(need, s, step)
    requires Warm(s, l) && AllCovered(need, s.rows, s.launchers[l].params)
    ensures Warm(Apply(need, s, step), l) && s.rows <= Apply(need, s, step).rows
    ensures Apply(need, s, step).launchers[l].params == s.launchers[l].params
  {
    hide KeyOf, LeaseInv, CoverInv;
    if step.Probe? && step.l == l {
      RepresentativesFacts(s.launchers[l].params);
      assert RepsOf(s, l)[PcOf(s, l).at] in RepsOf(s, l);
    }
    hide Representatives, Covered;
  }

  /** A launcher that finds every row there when it arrives never wants the exclusive lease and
      never builds, whatever others do; of its steps only a probe can then fail. */
  lemma {:induction false} WarmCacheNeedsNoExclusiveLease(need: Needs, s: State, steps: seq<Step>, l: nat)
    requires LeaseInv(s) && CoverInv(need, s) && Executable(need, s, steps)
    requires Warm(s, l) && AllCovered(need, s.rows, s.launchers[l].params)
    ensures Warm(After(need, s, steps), l)
    decreases |steps|
  {
    hide LeaseInv, CoverInv, Enabled, Apply;
    if steps != [] {
      var t := Apply(need, s, steps[0]);
      StepKeepsWarm(need, s, steps[0], l);
      StepKeepsLease(need, s, steps[0]);
      StepKeepsCover(need, s, steps[0]);
      forall c | c in t.launchers[l].params ensures Covered(need, t.rows, c) {
        assert Covered(need, s.rows, c);
      }
      WarmCacheNeedsNoExclusiveLease(need, t, steps[1..], l);
    }
  }
}
