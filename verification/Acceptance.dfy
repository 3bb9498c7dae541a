/** Conditional acceptance counters for speculative decoding, and the rates made of them
    (alignment/workload_input.py:15-41, 69-84). Rates are exact fractions. */
module Acceptance {
  import opened Common

  /** One request's progress in one decode step, as a metrics record tells it. */
  datatype Progress = Progress(requestId: string, finishedBefore: bool, drafted: int, accepted: int)

  datatype Fault = BadDraftTokens | OutsideTrace(requestId: string) | BadChain

  /** Per draft position: trials that reached it, and those of them that were accepted. */
  datatype Counters = Counters(numerator: seq<nat>, denominator: seq<nat>)

  // ---- what is counted -------------------------------------------------------------------------

  predicate Chain(s: Progress, draftTokens: int) {
    0 <= s.accepted <= s.drafted <= draftTokens
  }

  predicate Reaches(s: Progress, i: nat) {
    i < s.drafted && s.accepted >= i
  }

  predicate Passes(s: Progress, i: nat) {
    i < s.drafted && s.accepted > i
  }

  function Den(trials: seq<Progress>, i: nat): nat {
    if trials == [] then 0
    else Den(trials[..|trials| - 1], i) + if Reaches(trials[|trials| - 1], i) then 1 else 0
  }

  function Num(trials: seq<Progress>, i: nat): nat {
    if trials == [] then 0
    else Num(trials[..|trials| - 1], i) + if Passes(trials[|trials| - 1], i) then 1 else 0
  }

  /** The steps that advance output. */
  function Trials(steps: seq<Progress>): seq<Progress> {
    if steps == [] then []
    else
      var s := steps[|steps| - 1];
      Trials(steps[..|steps| - 1]) + if s.finishedBefore then [] else [s]
  }

  function TrialsOf(steps: seq<Progress>, requestId: string): seq<Progress> {
    if steps == [] then []
    else
      var s := steps[|steps| - 1];
      TrialsOf(steps[..|steps| - 1], requestId) + if s.finishedBefore || s.requestId != requestId then [] else [s]
  }

  function FaultOf(s: Progress, known: map<string, string>, draftTokens: int): Option<Fault> {
    if s.requestId !in known then Some(OutsideTrace(s.requestId))
    else if !s.finishedBefore && !Chain(s, draftTokens) then Some(BadChain)
    else None
  }

  /** The fault of the first step that has one. */
  function FirstFault(steps: seq<Progress>, known: map<string, string>, draftTokens: int): Option<Fault> {
    if steps == [] then None
    else
      var before := FirstFault(steps[..|steps| - 1], known, draftTokens);
      if before.Some? then before else FaultOf(steps[|steps| - 1], known, draftTokens)
  }

  function Encoded(ids: set<string>, prefix: string): map<string, string> {
    map key | key in (set id | id in ids :: prefix + id) :: if |prefix| <= |key| then key[|prefix|..] else key
  }

  lemma EncodedFacts(ids: set<string>, prefix: string)
    ensures var known := Encoded(ids, prefix);
      forall key :: (key in known ==> known[key] in ids && key == prefix + known[key])
    ensures forall id :: id in ids ==> prefix + id in Encoded(ids, prefix) && Encoded(ids, prefix)[prefix + id] == id
  {
    assert forall id: string :: (prefix + id)[|prefix|..] == id;
  }

  ghost predicate Counts(c: Counters, trials: seq<Progress>, draftTokens: nat) {
    && |c.numerator| == |c.denominator| == draftTokens
    && (forall i :: 0 <= i < draftTokens ==> c.numerator[i] == Num(trials, i))
    && (forall i :: 0 <= i < draftTokens ==> c.denominator[i] == Den(trials, i))
  }

  method CountStep(c: Counters, s: Progress, ghost trials: seq<Progress>, draftTokens: nat) returns (c': Counters)
    requires Counts(c, trials, draftTokens) && Chain(s, draftTokens)
    ensures Counts(c', trials + [s], draftTokens)
  {
    var numerator, denominator := c.numerator, c.denominator;
    for position := 0 to s.drafted
      invariant |numerator| == |denominator| == draftTokens
      invariant forall i :: 0 <= i < draftTokens ==>
        numerator[i] == c.numerator[i] + (if i < position && s.accepted > i then 1 else 0)
      invariant forall i :: 0 <= i < draftTokens ==>
        denominator[i] == c.denominator[i] + (if i < position && s.accepted >= i then 1 else 0)
    {
      denominator := denominator[position := denominator[position] + if s.accepted >= position then 1 else 0];
      numerator := numerator[position := numerator[position] + if s.accepted > position then 1 else 0];
    }
    c' := Counters(numerator, denominator);
    assert (trials + [s])[..|trials|] == trials;
  }

  ghost predicate AllCount(counts: map<string, Counters>, ids: set<string>, prefix: string, steps: seq<Progress>, draftTokens: nat) {
    counts.Keys == ids && forall id :: id in ids ==> Counts(counts[id], TrialsOf(steps, prefix + id), draftTokens)
  }

  /** Every request's counters count its own trials; the first fault, and no other, is raised. */
  method AcceptanceCounts(steps: seq<Progress>, ids: set<string>, draftTokens: int, prefix: string)
    returns (r: Result<map<string, Counters>, Fault>)
    ensures draftTokens <= 0 ==> r == Err(BadDraftTokens)
    ensures draftTokens > 0 ==>
      match FirstFault(steps, Encoded(ids, prefix), draftTokens)
      case Some(fault) => r == Err(fault)
      case None => r.Ok? && AllCount(r.value, ids, prefix, steps, draftTokens)
  {
    if draftTokens <= 0 {
      return Err(BadDraftTokens);
    }
    var encoded := Encoded(ids, prefix);
    var zeros: seq<nat> := seq(draftTokens, _ => 0);
    EncodedFacts(ids, prefix);
    hide Encoded, Chain, Counts;
    var counts := map id | id in ids :: Counters(zeros, zeros);
    NothingCounted(counts, ids, prefix, draftTokens, zeros);
    hide AllCount;
    assert steps[..0] == [];
    for k := 0 to |steps|
      invariant FirstFault(steps[..k], encoded, draftTokens) == None
      invariant AllCount(counts, ids, prefix, steps[..k], draftTokens)
    {
      var step := steps[k];
      assert steps[..k + 1][..k] == steps[..k];
      FaultIsFirst(steps, k, encoded, draftTokens);
      if step.requestId !in encoded {
        return Err(OutsideTrace(step.requestId));
      }
      if !step.finishedBefore {
        if !Chain(step, draftTokens) {
          return Err(BadChain);
        }
        var id := encoded[step.requestId];
        CountsOf(counts, id, ids, prefix, steps[..k], draftTokens);
        var c := CountStep(counts[id], step, TrialsOf(steps[..k], step.requestId), draftTokens);
        OneMoreCounted(counts, id, c, ids, prefix, steps, k, draftTokens);
        counts := counts[id := c];
      } else {
        NoneCounted(counts, ids, prefix, steps, k, draftTokens);
      }
    }
    assert steps[..|steps|] == steps;
    return Ok(counts);
  }

  lemma OneMoreCounted(counts: map<string, Counters>, x: string, c: Counters, ids: set<string>, prefix: string,
      steps: seq<Progress>, k: nat, draftTokens: nat)
    requires k < |steps| && x in ids && steps[k].requestId == prefix + x && !steps[k].finishedBefore
    requires AllCount(counts, ids, prefix, steps[..k], draftTokens)
    requires Counts(c, TrialsOf(steps[..k], prefix + x) + [steps[k]], draftTokens)
    ensures AllCount(counts[x := c], ids, prefix, steps[..k + 1], draftTokens)
  {
    hide Counts;
    assert steps[..k + 1][..k] == steps[..k];
    forall id | id in ids
      ensures Counts(counts[x := c][id], TrialsOf(steps[..k + 1], prefix + id), draftTokens)
    {
      if id != x {
        SamePrefix(prefix, id, x);
        assert TrialsOf(steps[..k + 1], prefix + id) == TrialsOf(steps[..k], prefix + id);
      }
    }
  }

  lemma CountsOf(counts: map<string, Counters>, id: string, ids: set<string>, prefix: string, steps: seq<Progress>, draftTokens: nat)
    requires AllCount(counts, ids, prefix, steps, draftTokens) && id in ids
    ensures id in counts && Counts(counts[id], TrialsOf(steps, prefix + id), draftTokens)
  {
  }

  lemma SamePrefix(prefix: string, a: string, b: string)
    requires a != b
    ensures prefix + a != prefix + b
  {
    assert (prefix + a)[|prefix|..] == a && (prefix + b)[|prefix|..] == b;
  }

  lemma NoneCounted(counts: map<string, Counters>, ids: set<string>, prefix: string,
      steps: seq<Progress>, k: nat, draftTokens: nat)
    requires k < |steps| && steps[k].finishedBefore && AllCount(counts, ids, prefix, steps[..k], draftTokens)
    ensures AllCount(counts, ids, prefix, steps[..k + 1], draftTokens)
  {
    hide Counts;
    assert steps[..k + 1][..k] == steps[..k];
    forall id | id in ids ensures Counts(counts[id], TrialsOf(steps[..k + 1], prefix + id), draftTokens) {
      assert TrialsOf(steps[..k + 1], prefix + id) == TrialsOf(steps[..k], prefix + id);
    }
  }

  lemma NothingCounted(counts: map<string, Counters>, ids: set<string>, prefix: string, draftTokens: nat, zeros: seq<nat>)
    requires |zeros| == draftTokens && forall i :: 0 <= i < draftTokens ==> zeros[i] == 0
    requires counts.Keys == ids && forall id :: id in ids ==> counts[id] == Counters(zeros, zeros)
    ensures AllCount(counts, ids, prefix, [], draftTokens)
  {
  }

  lemma {:induction false} FaultIsFirst(steps: seq<Progress>, k: nat, known: map<string, string>, draftTokens: int)
    requires k < |steps| && FirstFault(steps[..k], known, draftTokens) == None
    ensures FaultOf(steps[k], known, draftTokens).Some? ==> FirstFault(steps, known, draftTokens) == FaultOf(steps[k], known, draftTokens)
    decreases |steps|
  {
    if k == |steps| - 1 {
    } else {
      var init := steps[..|steps| - 1];
      assert init[..k] == steps[..k];
      FaultIsFirst(init, k, known, draftTokens);
    }
  }

  // ---- what the counters say -----------------------------------------------------------------------

  predicate AllChains(trials: seq<Progress>, draftTokens: int) {
    forall s :: s in trials ==> Chain(s, draftTokens)
  }

  /** A position is tried only by those that passed the one before. */
  lemma {:induction false} Conditional(trials: seq<Progress>, i: nat)
    ensures Den(trials, i + 1) <= Num(trials, i) <= Den(trials, i)
  {
    if trials != [] {
      Conditional(trials[..|trials| - 1], i);
    }
  }

  lemma {:induction false} Antitone(trials: seq<Progress>, i: nat, j: nat)
    requires i <= j
    ensures Den(trials, j) <= Den(trials, i)
    decreases j - i
  {
    if i < j {
      Conditional(trials, i);
      Antitone(trials, i + 1, j);
    }
  }

  function AcceptedTokens(trials: seq<Progress>): int {
    if trials == [] then 0 else AcceptedTokens(trials[..|trials| - 1]) + trials[|trials| - 1].accepted
  }

  function SumNum(trials: seq<Progress>, n: nat): nat {
    if n == 0 then 0 else SumNum(trials, n - 1) + Num(trials, n - 1)
  }

  lemma {:induction false} SumOneMore(init: seq<Progress>, s: Progress, n: nat)
    requires 0 <= s.accepted <= s.drafted
    ensures SumNum(init + [s], n) == SumNum(init, n) + Min(s.accepted, n)
  {
    if n > 0 {
      SumOneMore(init, s, n - 1);
      assert (init + [s])[..|init|] == init;
    }
  }

  /** The numerators sum to the accepted tokens counted. */
  lemma {:induction false} NumeratorsSumToAccepted(trials: seq<Progress>, draftTokens: nat)
    requires AllChains(trials, draftTokens)
    ensures SumNum(trials, draftTokens) == AcceptedTokens(trials)
  {
    if trials == [] {
      NothingSums(draftTokens);
    } else {
      var init, s := trials[..|trials| - 1], trials[|trials| - 1];
      assert trials == init + [s];
      assert s in trials;
      NumeratorsSumToAccepted(init, draftTokens);
      SumOneMore(init, s, draftTokens);
    }
  }

  lemma {:induction false} NothingSums(n: nat)
    ensures SumNum([], n) == 0
  {
    if n > 0 {
      NothingSums(n - 1);
    }
  }

  predicate FullDepth(trials: seq<Progress>, draftTokens: nat) {
    forall s :: s in trials ==> s.drafted == draftTokens && 0 <= s.accepted
  }

  lemma {:induction false} FullDepthChains(trials: seq<Progress>, draftTokens: nat, i: nat)
    requires FullDepth(trials, draftTokens) && i < draftTokens
    ensures i + 1 < draftTokens ==> Den(trials, i + 1) == Num(trials, i)
    ensures i == 0 ==> Den(trials, i) == |trials|
  {
    if trials != [] {
      var init := trials[..|trials| - 1];
      assert trials == init + [trials[|trials| - 1]];
      FullDepthChains(init, draftTokens, i);
      assert trials[|trials| - 1] in trials;
    }
  }

  /** The product of the first `i + 1` rates. */
  function Product(rates: seq<real>, i: nat): real
    requires i < |rates|
  {
    if i == 0 then rates[0] else Product(rates, i - 1) * rates[i]
  }

  /** The rates are the trials' own, up to position `i`. */
  ghost predicate RatesOf(rates: seq<real>, trials: seq<Progress>, i: nat) {
    i < |rates| && forall k :: 0 <= k <= i ==>
      Den(trials, k) > 0 && rates[k] == Num(trials, k) as real / Den(trials, k) as real
  }

  lemma Cancel(a: real, b: real, c: real)
    requires b != 0.0 && c != 0.0
    ensures (b / c) * (a / b) == a / c
  {
    var x, y := b / c, a / b;
    assert x * c == b && y * b == a;
    assert (x * y) * c == y * (x * c);
    assert (x * y) * c == a;
  }

  /** When every trial drafts the full depth the product telescopes to the fraction of trials
      that accept more than `i` tokens. */
  lemma {:induction false} ProductTelescopes(rates: seq<real>, trials: seq<Progress>, draftTokens: nat, i: nat)
    requires FullDepth(trials, draftTokens) && i < draftTokens && RatesOf(rates, trials, i)
    ensures |trials| > 0 && Product(rates, i) == Num(trials, i) as real / |trials| as real
  {
    FullDepthChains(trials, draftTokens, 0);
    assert Den(trials, 0) > 0;
    if i > 0 {
      ProductTelescopes(rates, trials, draftTokens, i - 1);
      FullDepthChains(trials, draftTokens, i - 1);
      var n, d, all := Num(trials, i) as real, Den(trials, i) as real, |trials| as real;
      hide Num, Den, FullDepth;
      assert Product(rates, i - 1) == d / all && rates[i] == n / d;
      Cancel(n, d, all);
      assert Product(rates, i) == Product(rates, i - 1) * rates[i];
      hide Product;
    }
  }

  // ---- the pool ---------------------------------------------------------------------------------------

  /** `sum(value[0][i] for value in counts.values())`, the requests in any order. */
  function PooledNum(steps: seq<Progress>, ids: seq<string>, prefix: string, i: nat): nat {
    if ids == [] then 0 else PooledNum(steps, ids[1..], prefix, i) + Num(TrialsOf(steps, prefix + ids[0]), i)
  }

  function PooledDen(steps: seq<Progress>, ids: seq<string>, prefix: string, i: nat): nat {
    if ids == [] then 0 else PooledDen(steps, ids[1..], prefix, i) + Den(TrialsOf(steps, prefix + ids[0]), i)
  }

  lemma {:induction false} PoolOneMore(init: seq<Progress>, s: Progress, ids: seq<string>, prefix: string, i: nat)
    requires Distinct(ids)
    ensures var hit := !s.finishedBefore && exists id :: id in ids && prefix + id == s.requestId;
      && PooledNum(init + [s], ids, prefix, i) == PooledNum(init, ids, prefix, i) + (if hit && Passes(s, i) then 1 else 0)
      && PooledDen(init + [s], ids, prefix, i) == PooledDen(init, ids, prefix, i) + (if hit && Reaches(s, i) then 1 else 0)
  {
    if ids != [] {
      PoolOneMore(init, s, ids[1..], prefix, i);
      OneTrialMore(init, s, prefix + ids[0], i);
      forall id | id in ids[1..] ensures prefix + id != prefix + ids[0] {
        SamePrefix(prefix, id, ids[0]);
      }
    }
  }

  lemma OneTrialMore(init: seq<Progress>, s: Progress, requestId: string, i: nat)
    ensures var hit := !s.finishedBefore && s.requestId == requestId;
      && Num(TrialsOf(init + [s], requestId), i) == Num(TrialsOf(init, requestId), i) + (if hit && Passes(s, i) then 1 else 0)
      && Den(TrialsOf(init + [s], requestId), i) == Den(TrialsOf(init, requestId), i) + (if hit && Reaches(s, i) then 1 else 0)
  {
    assert (init + [s])[..|init|] == init;
    var was := TrialsOf(init, requestId);
    assert (was + [s])[..|was|] == was && was + [] == was;
  }

  lemma AllTrialsMore(init: seq<Progress>, s: Progress, i: nat)
    ensures var hit := !s.finishedBefore;
      && Num(Trials(init + [s]), i) == Num(Trials(init), i) + (if hit && Passes(s, i) then 1 else 0)
      && Den(Trials(init + [s]), i) == Den(Trials(init), i) + (if hit && Reaches(s, i) then 1 else 0)
  {
    assert (init + [s])[..|init|] == init;
    var was := Trials(init);
    assert (was + [s])[..|was|] == was && was + [] == was;
  }

  lemma {:induction false} NothingPooled(ids: seq<string>, prefix: string, i: nat)
    ensures PooledNum([], ids, prefix, i) == 0 && PooledDen([], ids, prefix, i) == 0
  {
    if ids != [] {
      NothingPooled(ids[1..], prefix, i);
    }
  }

  lemma NothingTried(i: nat)
    ensures Trials([]) == [] && Num([], i) == 0 && Den([], i) == 0
  {
  }

  predicate Known(s: Progress, ids: seq<string>, prefix: string) {
    exists id :: id in ids && prefix + id == s.requestId
  }

  predicate AllKnown(steps: seq<Progress>, ids: seq<string>, prefix: string) {
    forall s :: s in steps ==> Known(s, ids, prefix)
  }

  /** The pool counts every trial of every request once. */
  lemma {:induction false} PoolCountsAllTrials(steps: seq<Progress>, ids: seq<string>, prefix: string, i: nat)
    requires Distinct(ids) && AllKnown(steps, ids, prefix)
    ensures PooledNum(steps, ids, prefix, i) == Num(Trials(steps), i)
    ensures PooledDen(steps, ids, prefix, i) == Den(Trials(steps), i)
  {
    hide Num, Den, Trials, PooledNum, PooledDen, Passes, Reaches;
    if steps == [] {
      NothingPooled(ids, prefix, i);
      NothingTried(i);
    } else {
      var init, s := steps[..|steps| - 1], steps[|steps| - 1];
      assert steps == init + [s] && s in steps;
      PoolCountsAllTrials(init, ids, prefix, i);
      PoolOneMore(init, s, ids, prefix, i);
      AllTrialsMore(init, s, i);
    }
  }

  // ---- the rates -----------------------------------------------------------------------------------------

  datatype Fallback = Fallback(requestId: string, position: nat)

  datatype Missing = Missing(requestId: string, position: nat)

  datatype Prepared = Prepared(rates: seq<seq<real>>, fallbacks: seq<Fallback>)

  /** None where no trial reached the position. */
  function Rate(n: nat, d: nat): Option<real> {
    if d == 0 then None else Some(n as real / d as real)
  }

  predicate CanRate(c: Counters, aggregate: seq<Option<real>>, fallBack: bool, i: nat)
    requires i < |c.denominator| && i < |aggregate|
  {
    c.denominator[i] > 0 || (fallBack && aggregate[i].Some?)
  }

  function RateAt(c: Counters, aggregate: seq<Option<real>>, i: nat): real
    requires i < |c.denominator| == |c.numerator| && i < |aggregate|
  {
    if c.denominator[i] > 0 then c.numerator[i] as real / c.denominator[i] as real
    else if aggregate[i].Some? then aggregate[i].value else 0.0
  }

  /** The positions of a request with no trial of its own, in order. */
  function FallbacksOf(row: string, c: Counters, n: nat): seq<Fallback>
    requires n <= |c.denominator|
  {
    if n == 0 then [] else FallbacksOf(row, c, n - 1) + if c.denominator[n - 1] == 0 then [Fallback(row, n - 1)] else []
  }

  predicate SameLength(c: Counters, draftTokens: nat) {
    |c.numerator| == |c.denominator| == draftTokens
  }

  /** One row of the loop: all its rates, or the first position that cannot have one. */
  method RowRates(row: string, c: Counters, aggregate: seq<Option<real>>, fallBack: bool)
    returns (r: Result<(seq<real>, seq<Fallback>), Missing>)
    requires SameLength(c, |aggregate|)
    ensures r.Ok? <==> forall i :: 0 <= i < |aggregate| ==> CanRate(c, aggregate, fallBack, i)
    ensures r.Ok? ==> |r.value.0| == |aggregate| && r.value.1 == FallbacksOf(row, c, |aggregate|)
    ensures r.Ok? ==> forall i :: 0 <= i < |aggregate| ==> r.value.0[i] == RateAt(c, aggregate, i)
    ensures r.Err? ==>
      && r.error.requestId == row && r.error.position < |aggregate|
      && !CanRate(c, aggregate, fallBack, r.error.position)
      && forall i :: 0 <= i < r.error.position ==> CanRate(c, aggregate, fallBack, i)
  {
    var rates, fallbacks := [], [];
    for position := 0 to |aggregate|
      invariant |rates| == position && fallbacks == FallbacksOf(row, c, position)
      invariant forall i :: 0 <= i < position ==> CanRate(c, aggregate, fallBack, i) && rates[i] == RateAt(c, aggregate, i)
    {
      var n, d := c.numerator[position], c.denominator[position];
      var rate: real;
      if d > 0 {
        rate := n as real / d as real;
      } else if fallBack && aggregate[position].Some? {
        rate := aggregate[position].value;
        fallbacks := fallbacks + [Fallback(row, position)];
      } else {
        assert !CanRate(c, aggregate, fallBack, position);
        return Err(Missing(row, position));
      }
      rates := rates + [rate];
    }
    return Ok((rates, fallbacks));
  }

  predicate Fit(rows: seq<string>, counts: map<string, Counters>, n: nat) {
    forall k :: 0 <= k < |rows| ==> rows[k] in counts && SameLength(counts[rows[k]], n)
  }

  ghost predicate CanRateAll(rows: seq<string>, counts: map<string, Counters>, aggregate: seq<Option<real>>, fallBack: bool)
    requires Fit(rows, counts, |aggregate|)
  {
    forall k, i :: 0 <= k < |rows| && 0 <= i < |aggregate| ==> CanRate(counts[rows[k]], aggregate, fallBack, i)
  }

  function AllFallbacks(rows: seq<string>, counts: map<string, Counters>, n: nat): seq<Fallback>
    requires Fit(rows, counts, n)
  {
    if rows == [] then []
    else
      var row := rows[|rows| - 1];
      AllFallbacks(rows[..|rows| - 1], counts, n) + FallbacksOf(row, counts[row], n)
  }

  /** The first row that cannot have all its rates, and its first position without. */
  ghost predicate IsFirstMissing(missing: Missing, rows: seq<string>, counts: map<string, Counters>,
    aggregate: seq<Option<real>>, fallBack: bool, k: nat)
    requires Fit(rows, counts, |aggregate|)
  {
    && k < |rows| && missing.requestId == rows[k] && missing.position < |aggregate|
    && !CanRate(counts[rows[k]], aggregate, fallBack, missing.position)
    && (forall i :: 0 <= i < missing.position ==> CanRate(counts[rows[k]], aggregate, fallBack, i))
    && (forall j, i :: 0 <= j < k && 0 <= i < |aggregate| ==> CanRate(counts[rows[j]], aggregate, fallBack, i))
  }

  lemma FirstMissingIs(missing: Missing, rows: seq<string>, counts: map<string, Counters>, aggregate: seq<Option<real>>,
      fallBack: bool, k: nat)
    requires Fit(rows, counts, |aggregate|) && IsFirstMissing(missing, rows, counts, aggregate, fallBack, k)
    ensures k < |rows| && missing.requestId == rows[k] && missing.position < |aggregate|
    ensures !CanRate(counts[rows[k]], aggregate, fallBack, missing.position)
  {
  }

  method PrepareRates(rows: seq<string>, counts: map<string, Counters>, aggregate: seq<Option<real>>, fallBack: bool)
    returns (r: Result<Prepared, Missing>)
    requires Fit(rows, counts, |aggregate|)
    ensures r.Ok? <==> CanRateAll(rows, counts, aggregate, fallBack)
    ensures r.Ok? ==> |r.value.rates| == |rows| && r.value.fallbacks == AllFallbacks(rows, counts, |aggregate|)
    ensures r.Ok? ==> forall k :: 0 <= k < |rows| ==> |r.value.rates[k]| == |aggregate|
    ensures r.Ok? ==> forall k, i :: 0 <= k < |rows| && 0 <= i < |aggregate| ==>
      r.value.rates[k][i] == RateAt(counts[rows[k]], aggregate, i)
    ensures r.Err? ==> exists k: nat :: IsFirstMissing(r.error, rows, counts, aggregate, fallBack, k)
  {
    var rates, fallbacks := [], [];
    for k := 0 to |rows|
      invariant |rates| == k && fallbacks == AllFallbacks(rows[..k], counts, |aggregate|)
      invariant forall j :: 0 <= j < k ==> |rates[j]| == |aggregate|
      invariant forall j, i :: 0 <= j < k && 0 <= i < |aggregate| ==>
        CanRate(counts[rows[j]], aggregate, fallBack, i) && rates[j][i] == RateAt(counts[rows[j]], aggregate, i)
    {
      var row := RowRates(rows[k], counts[rows[k]], aggregate, fallBack);
      if row.Err? {
        assert IsFirstMissing(row.error, rows, counts, aggregate, fallBack, k);
        return Err(row.error);
      }
      assert rows[..k + 1][..k] == rows[..k];
      rates, fallbacks := rates + [row.value.0], fallbacks + row.value.1;
    }
    assert rows[..|rows|] == rows;
    return Ok(Prepared(rates, fallbacks));
  }

  // ---- when a workload can be prepared ---------------------------------------------------------------

  function Aggregate(steps: seq<Progress>, ids: seq<string>, prefix: string, draftTokens: nat): (rates: seq<Option<real>>)
    ensures |rates| == draftTokens
    ensures forall i :: 0 <= i < draftTokens ==>
      rates[i] == Rate(PooledNum(steps, ids, prefix, i), PooledDen(steps, ids, prefix, i))
  {
    seq(draftTokens, i requires 0 <= i => Rate(PooledNum(steps, ids, prefix, i), PooledDen(steps, ids, prefix, i)))
  }

  lemma {:induction false} OwnIsPooled(steps: seq<Progress>, ids: seq<string>, prefix: string, id: string, i: nat)
    requires id in ids
    ensures Den(TrialsOf(steps, prefix + id), i) <= PooledDen(steps, ids, prefix, i)
  {
    if ids[0] != id {
      assert id in ids[1..];
      OwnIsPooled(steps, ids[1..], prefix, id, i);
    }
  }

  lemma PooledAntitone(steps: seq<Progress>, ids: seq<string>, prefix: string, i: nat, j: nat)
    requires Distinct(ids) && AllKnown(steps, ids, prefix) && i <= j
    ensures PooledDen(steps, ids, prefix, j) <= PooledDen(steps, ids, prefix, i)
  {
    PoolCountsAllTrials(steps, ids, prefix, i);
    PoolCountsAllTrials(steps, ids, prefix, j);
    Antitone(Trials(steps), i, j);
  }

  /** What the rows' counters must be for the rate loop: `acceptance_counts`' own. */
  ghost predicate Counted(rows: seq<string>, counts: map<string, Counters>, steps: seq<Progress>, ids: seq<string>,
    prefix: string, draftTokens: nat)
  {
    && Distinct(ids) && AllKnown(steps, ids, prefix)
    && (forall k :: 0 <= k < |rows| ==> rows[k] in ids)
    && AllCount(counts, (set id | id in ids), prefix, steps, draftTokens)
  }

  lemma CountedFits(rows: seq<string>, counts: map<string, Counters>, steps: seq<Progress>, ids: seq<string>,
      prefix: string, draftTokens: nat)
    requires Counted(rows, counts, steps, ids, prefix, draftTokens)
    ensures Fit(rows, counts, draftTokens)
    ensures forall k, i :: 0 <= k < |rows| && 0 <= i < draftTokens ==>
      counts[rows[k]].denominator[i] == Den(TrialsOf(steps, prefix + rows[k]), i)
  {
    forall k | 0 <= k < |rows| ensures rows[k] in counts && Counts(counts[rows[k]], TrialsOf(steps, prefix + rows[k]), draftTokens) {
      assert rows[k] in (set id | id in ids);
    }
  }

  lemma AggregateHas(steps: seq<Progress>, ids: seq<string>, prefix: string, draftTokens: nat)
    ensures forall i :: 0 <= i < draftTokens ==>
      (Aggregate(steps, ids, prefix, draftTokens)[i].Some? <==> PooledDen(steps, ids, prefix, i) > 0)
  {
  }

  /** The last draft position decides. Without the fallback every request needs a trial that
      reached it; with the fallback one trial of any request is enough, and is needed. */
  lemma PreparedExactlyWhen(rows: seq<string>, counts: map<string, Counters>, steps: seq<Progress>, ids: seq<string>,
      prefix: string, draftTokens: nat, fallBack: bool)
    requires draftTokens > 0 && Counted(rows, counts, steps, ids, prefix, draftTokens)
    ensures Fit(rows, counts, draftTokens)
    ensures CanRateAll(rows, counts, Aggregate(steps, ids, prefix, draftTokens), fallBack) <==>
      if fallBack then rows == [] || PooledDen(steps, ids, prefix, draftTokens - 1) > 0
      else forall k :: 0 <= k < |rows| ==> Den(TrialsOf(steps, prefix + rows[k]), draftTokens - 1) > 0
  {
    CountedFits(rows, counts, steps, ids, prefix, draftTokens);
    var aggregate, last := Aggregate(steps, ids, prefix, draftTokens), draftTokens - 1;
    AggregateHas(steps, ids, prefix, draftTokens);
    hide Counted, Fit, Den, PooledDen, PooledNum, TrialsOf, Rate, Aggregate;
    forall k, i | 0 <= k < |rows| && 0 <= i < draftTokens
      ensures Den(TrialsOf(steps, prefix + rows[k]), last) <= Den(TrialsOf(steps, prefix + rows[k]), i)
    {
      Antitone(TrialsOf(steps, prefix + rows[k]), i, last);
    }
    if CanRateAll(rows, counts, aggregate, fallBack) {
      forall k | 0 <= k < |rows|
        ensures if fallBack then PooledDen(steps, ids, prefix, last) > 0 else Den(TrialsOf(steps, prefix + rows[k]), last) > 0
      {
        assert CanRate(counts[rows[k]], aggregate, fallBack, last);
        RowIsKnown(rows, counts, steps, ids, prefix, draftTokens, k);
        OwnIsPooled(steps, ids, prefix, rows[k], last);
        assert counts[rows[k]].denominator[last] == Den(TrialsOf(steps, prefix + rows[k]), last);
      }
      if fallBack && rows != [] {
        RowIsKnown(rows, counts, steps, ids, prefix, draftTokens, 0);
        OwnIsPooled(steps, ids, prefix, rows[0], last);
        assert CanRate(counts[rows[0]], aggregate, fallBack, last);
      }
    } else if fallBack && PooledDen(steps, ids, prefix, last) > 0 {
      forall i | 0 <= i < draftTokens ensures aggregate[i].Some? {
        RowsAreKnown(rows, counts, steps, ids, prefix, draftTokens);
        PooledAntitone(steps, ids, prefix, i, last);
      }
    }
  }

  lemma RowIsKnown(rows: seq<string>, counts: map<string, Counters>, steps: seq<Progress>, ids: seq<string>,
      prefix: string, draftTokens: nat, k: nat)
    requires Counted(rows, counts, steps, ids, prefix, draftTokens) && k < |rows|
    ensures rows[k] in ids
  {
  }

  lemma RowsAreKnown(rows: seq<string>, counts: map<string, Counters>, steps: seq<Progress>, ids: seq<string>,
      prefix: string, draftTokens: nat)
    requires Counted(rows, counts, steps, ids, prefix, draftTokens)
    ensures Distinct(ids) && AllKnown(steps, ids, prefix)
  {
  }

  /** The positions a request has no evidence for are a suffix of the chain, and exactly those
      are reported as fallbacks. */
  lemma {:induction false} FallbacksAreASuffix(row: string, c: Counters, trials: seq<Progress>, draftTokens: nat, n: nat)
    returns (first: nat)
    requires Counts(c, trials, draftTokens) && n <= draftTokens
    ensures first <= n && forall i :: 0 <= i < n ==> (c.denominator[i] > 0 <==> i < first)
    ensures FallbacksOf(row, c, n) == seq(n - first, k requires k >= 0 => Fallback(row, first + k))
  {
    if n == 0 {
      first := 0;
    } else {
      first := FallbacksAreASuffix(row, c, trials, draftTokens, n - 1);
      if c.denominator[n - 1] > 0 {
        forall i | 0 <= i < n ensures c.denominator[i] > 0 {
          Antitone(trials, i, n - 1);
        }
        first := n;
      }
    }
  }

  /** Every rate is a probability. */
  lemma RatesAreProbabilities(c: Counters, trials: seq<Progress>, steps: seq<Progress>, ids: seq<string>,
      prefix: string, draftTokens: nat, i: nat)
    requires Counts(c, trials, draftTokens) && i < draftTokens && Distinct(ids) && AllKnown(steps, ids, prefix)
    ensures 0.0 <= RateAt(c, Aggregate(steps, ids, prefix, draftTokens), i) <= 1.0
  {
    Conditional(trials, i);
    PoolCountsAllTrials(steps, ids, prefix, i);
    Conditional(Trials(steps), i);
    var n, d := c.numerator[i], c.denominator[i];
    if d > 0 {
      Fraction(n, d);
    } else if PooledDen(steps, ids, prefix, i) > 0 {
      Fraction(PooledNum(steps, ids, prefix, i), PooledDen(steps, ids, prefix, i));
    }
  }

  lemma Fraction(n: nat, d: nat)
    requires n <= d && d > 0
    ensures 0.0 <= n as real / d as real <= 1.0
  {
    var q := n as real / d as real;
    assert q * d as real == n as real;
    ScaledDown(q, d as real);
  }

  lemma ScaledDown(q: real, d: real)
    requires d > 0.0 && 0.0 <= q * d <= d
    ensures 0.0 <= q <= 1.0
  {
    assert q > 1.0 ==> (q - 1.0) * d > 0.0;
    assert q < 0.0 ==> (0.0 - q) * d > 0.0;
  }

  /** The pooled rates telescope to the fraction of all trials that accept more than `i`. */
  lemma PooledProductTelescopes(rates: seq<real>, steps: seq<Progress>, ids: seq<string>, prefix: string, draftTokens: nat, i: nat)
    requires Distinct(ids) && AllKnown(steps, ids, prefix) && FullDepth(Trials(steps), draftTokens) && i < draftTokens
    requires |rates| == draftTokens
    requires forall k :: 0 <= k <= i ==> Aggregate(steps, ids, prefix, draftTokens)[k] == Some(rates[k])
    ensures |Trials(steps)| > 0
    ensures Product(rates, i) == PooledNum(steps, ids, prefix, i) as real / |Trials(steps)| as real
  {
    forall k | 0 <= k <= i
      ensures Den(Trials(steps), k) > 0 && rates[k] == Num(Trials(steps), k) as real / Den(Trials(steps), k) as real
    {
      PoolCountsAllTrials(steps, ids, prefix, k);
      assert Aggregate(steps, ids, prefix, draftTokens)[k] == Some(rates[k]);
    }
    PoolCountsAllTrials(steps, ids, prefix, i);
    ProductTelescopes(rates, Trials(steps), draftTokens, i);
  }

  // ---- which steps are trials, and which are faults -----------------------------------------------------

  /** A request's trials are its own steps that advance output, each as often as it was recorded,
      and all trials are those of any request. */
  lemma {:induction false} TrialsAre(steps: seq<Progress>, requestId: string, s: Progress)
    ensures multiset(TrialsOf(steps, requestId))[s] ==
      if s.finishedBefore || s.requestId != requestId then 0 else multiset(steps)[s]
    ensures multiset(Trials(steps))[s] == if s.finishedBefore then 0 else multiset(steps)[s]
  {
    if steps != [] {
      var init, last := steps[..|steps| - 1], steps[|steps| - 1];
      assert steps == init + [last];
      TrialsAre(init, requestId, s);
    }
  }

  /** A step of a request of the trace, which advances no output or accepts no more than it drafts. */
  ghost predicate Sound(s: Progress, ids: set<string>, prefix: string, draftTokens: int) {
    && (exists id :: id in ids && s.requestId == prefix + id)
    && (s.finishedBefore || 0 <= s.accepted <= s.drafted <= draftTokens)
  }

  lemma FaultOfMeans(s: Progress, ids: set<string>, prefix: string, draftTokens: int)
    ensures FaultOf(s, Encoded(ids, prefix), draftTokens) ==
      if Sound(s, ids, prefix, draftTokens) then None
      else if exists id :: id in ids && s.requestId == prefix + id then Some(BadChain)
      else Some(OutsideTrace(s.requestId))
  {
    EncodedFacts(ids, prefix);
    hide Encoded;
    if s.requestId in Encoded(ids, prefix) {
      assert s.requestId == prefix + Encoded(ids, prefix)[s.requestId];
    }
  }

  /** There is no fault exactly when every step is sound; else it is that of the first that is not. */
  lemma {:induction false} FirstFaultMeans(steps: seq<Progress>, ids: set<string>, prefix: string, draftTokens: int)
    returns (k: nat)
    ensures k <= |steps| && forall j :: 0 <= j < k ==> Sound(steps[j], ids, prefix, draftTokens)
    ensures FirstFault(steps, Encoded(ids, prefix), draftTokens) ==
      if k == |steps| then None else FaultOf(steps[k], Encoded(ids, prefix), draftTokens)
    ensures k < |steps| ==> !Sound(steps[k], ids, prefix, draftTokens)
  {
    hide Encoded, FaultOf, Sound;
    if steps == [] {
      k := 0;
    } else {
      var init := steps[..|steps| - 1];
      k := FirstFaultMeans(init, ids, prefix, draftTokens);
      FaultOfMeans(steps[|steps| - 1], ids, prefix, draftTokens);
      if k < |init| {
        FaultOfMeans(steps[k], ids, prefix, draftTokens);
      } else if Sound(steps[k], ids, prefix, draftTokens) {
        k := k + 1;
      }
    }
  }

  // ---- the whole preparation -----------------------------------------------------------------------------

  /** `sum(value[0][i] for value in counts.values())`. */
  function SumOfNumerators(counts: map<string, Counters>, ids: seq<string>, i: nat): nat
    requires forall id :: id in ids ==> id in counts && i < |counts[id].numerator|
  {
    if ids == [] then 0 else SumOfNumerators(counts, ids[1..], i) + counts[ids[0]].numerator[i]
  }

  function SumOfDenominators(counts: map<string, Counters>, ids: seq<string>, i: nat): nat
    requires forall id :: id in ids ==> id in counts && i < |counts[id].denominator|
  {
    if ids == [] then 0 else SumOfDenominators(counts, ids[1..], i) + counts[ids[0]].denominator[i]
  }

  ghost predicate CountedIn(counts: map<string, Counters>, ids: seq<string>, steps: seq<Progress>, prefix: string, n: nat) {
    forall id :: id in ids ==> id in counts && Counts(counts[id], TrialsOf(steps, prefix + id), n)
  }

  lemma {:induction false} SumsArePooled(counts: map<string, Counters>, ids: seq<string>, steps: seq<Progress>,
      prefix: string, n: nat, i: nat)
    requires CountedIn(counts, ids, steps, prefix, n) && i < n
    ensures SumOfNumerators(counts, ids, i) == PooledNum(steps, ids, prefix, i)
    ensures SumOfDenominators(counts, ids, i) == PooledDen(steps, ids, prefix, i)
  {
    if ids != [] {
      SumsArePooled(counts, ids[1..], steps, prefix, n, i);
    }
  }

  /** What a row's rates say: at each position the fraction of its own trials that passed, or of
      all requests' trials where it has none. */
  ghost predicate RowSays(rates: seq<real>, own: seq<Progress>, all: seq<Progress>, draftTokens: nat) {
    |rates| == draftTokens && forall i :: 0 <= i < draftTokens ==> RateSays(rates[i], own, all, i)
  }

  ghost predicate RateSays(rate: real, own: seq<Progress>, all: seq<Progress>, i: nat) {
    if Den(own, i) > 0 then rate * Den(own, i) as real == Num(own, i) as real
    else Den(all, i) > 0 && rate * Den(all, i) as real == Num(all, i) as real
  }

  lemma {:induction false} NoFaultFacts(steps: seq<Progress>, ids: seq<string>, prefix: string, draftTokens: int)
    requires FirstFault(steps, Encoded(set id | id in ids :: id, prefix), draftTokens) == None
    ensures AllKnown(steps, ids, prefix) && AllChains(Trials(steps), draftTokens)
  {
    if steps != [] {
      var init, s := steps[..|steps| - 1], steps[|steps| - 1];
      NoFaultFacts(init, ids, prefix, draftTokens);
      NoFaultOf(s, ids, prefix, draftTokens);
      hide Encoded, FaultOf, Chain, Known;
      assert steps == init + [s];
      assert forall t :: t in Trials(steps) ==> t in Trials(init) || (t == s && !s.finishedBefore);
    }
  }

  lemma NoFaultOf(s: Progress, ids: seq<string>, prefix: string, draftTokens: int)
    requires FaultOf(s, Encoded(set id | id in ids :: id, prefix), draftTokens) == None
    ensures Known(s, ids, prefix) && (s.finishedBefore || Chain(s, draftTokens))
  {
    var known := set id | id in ids :: id;
    EncodedFacts(known, prefix);
    hide Encoded;
    assert Encoded(known, prefix)[s.requestId] in ids;
  }

  lemma CountsOfRows(counts: map<string, Counters>, ids: seq<string>, steps: seq<Progress>, prefix: string, draftTokens: nat)
    requires AllCount(counts, set id | id in ids :: id, prefix, steps, draftTokens)
    ensures CountedIn(counts, ids, steps, prefix, draftTokens)
  {
    hide Counts;
    forall id | id in ids ensures id in counts && Counts(counts[id], TrialsOf(steps, prefix + id), draftTokens) {
      assert id in (set x | x in ids :: x);
    }
  }

  lemma Fractions(q: real, n: nat, d: nat)
    requires d > 0 && q == n as real / d as real
    ensures q * d as real == n as real
  {
  }

  lemma RateAtSays(c: Counters, own: seq<Progress>, aggregate: seq<Option<real>>, steps: seq<Progress>, ids: seq<string>,
      prefix: string, fallBack: bool, i: nat)
    requires i < |aggregate| && Counts(c, own, |aggregate|) && CanRate(c, aggregate, fallBack, i)
    requires Distinct(ids) && AllKnown(steps, ids, prefix)
    requires aggregate[i] == Rate(PooledNum(steps, ids, prefix, i), PooledDen(steps, ids, prefix, i))
    ensures RateSays(RateAt(c, aggregate, i), own, Trials(steps), i)
  {
    hide Num, Den, PooledNum, PooledDen, Trials;
    PoolCountsAllTrials(steps, ids, prefix, i);
    if c.denominator[i] > 0 {
      Fractions(RateAt(c, aggregate, i), c.numerator[i], c.denominator[i]);
    } else {
      Fractions(RateAt(c, aggregate, i), PooledNum(steps, ids, prefix, i), PooledDen(steps, ids, prefix, i));
    }
  }

  /** No fault, and evidence for the last draft position: of each row, or with the fallback of any. */
  ghost predicate CanPrepare(steps: seq<Progress>, rows: seq<string>, ids: seq<string>, draftTokens: int, prefix: string,
    fallBack: bool)
  {
    && draftTokens > 0 && FirstFault(steps, Encoded(set id | id in ids :: id, prefix), draftTokens) == None
    && (forall k :: 0 <= k < |rows| ==>
         Den(if fallBack then Trials(steps) else TrialsOf(steps, prefix + rows[k]), draftTokens - 1) > 0)
  }

  lemma {:induction false} FallbacksAre(row: string, c: Counters, n: nat)
    requires n <= |c.denominator|
    ensures forall f :: f in FallbacksOf(row, c, n) <==>
      f.requestId == row && f.position < n && c.denominator[f.position] == 0
  {
    if n > 0 {
      FallbacksAre(row, c, n - 1);
    }
  }

  lemma {:induction false} AllFallbacksAre(rows: seq<string>, counts: map<string, Counters>, n: nat)
    requires Fit(rows, counts, n)
    ensures forall f :: f in AllFallbacks(rows, counts, n) <==>
      f.requestId in rows && f.position < n && counts[f.requestId].denominator[f.position] == 0
  {
    if rows != [] {
      var init, row := rows[..|rows| - 1], rows[|rows| - 1];
      assert rows == init + [row];
      AllFallbacksAre(init, counts, n);
      FallbacksAre(row, counts[row], n);
    }
  }

  /** Reported are exactly the positions a row has no trial of its own for. */
  ghost predicate FallbacksSay(fallbacks: seq<Fallback>, steps: seq<Progress>, rows: seq<string>, prefix: string, n: nat) {
    forall f :: f in fallbacks <==>
      f.requestId in rows && f.position < n && Den(TrialsOf(steps, prefix + f.requestId), f.position) == 0
  }

  lemma FallbacksTell(rows: seq<string>, counts: map<string, Counters>, ids: seq<string>, steps: seq<Progress>,
      prefix: string, n: nat)
    requires Fit(rows, counts, n) && CountedIn(counts, ids, steps, prefix, n) && forall id :: id in rows ==> id in ids
    ensures FallbacksSay(AllFallbacks(rows, counts, n), steps, rows, prefix, n)
  {
    AllFallbacksAre(rows, counts, n);
    hide AllFallbacks, Den, TrialsOf;
  }

  function AggregateOf(counts: map<string, Counters>, ids: seq<string>, n: nat): (rates: seq<Option<real>>)
    requires forall id :: id in ids ==> id in counts && SameLength(counts[id], n)
    ensures |rates| == n
  {
    seq(n, i requires 0 <= i < n && (forall id :: id in ids ==> id in counts && SameLength(counts[id], n)) =>
      Rate(SumOfNumerators(counts, ids, i), SumOfDenominators(counts, ids, i)))
  }

  lemma AggregateOfPooled(counts: map<string, Counters>, ids: seq<string>, steps: seq<Progress>, prefix: string, n: nat)
    requires CountedIn(counts, ids, steps, prefix, n)
    ensures AggregateOf(counts, ids, n) == Aggregate(steps, ids, prefix, n)
  {
    forall i | 0 <= i < n
      ensures AggregateOf(counts, ids, n)[i] == Rate(PooledNum(steps, ids, prefix, i), PooledDen(steps, ids, prefix, i))
    {
      SumsArePooled(counts, ids, steps, prefix, n, i);
    }
  }

  lemma RowOfRates(rates: seq<real>, c: Counters, own: seq<Progress>, steps: seq<Progress>, ids: seq<string>,
      prefix: string, fallBack: bool, n: nat)
    requires |rates| == n && Counts(c, own, n) && Distinct(ids) && AllKnown(steps, ids, prefix)
    requires forall i :: 0 <= i < n ==>
      CanRate(c, Aggregate(steps, ids, prefix, n), fallBack, i) && rates[i] == RateAt(c, Aggregate(steps, ids, prefix, n), i)
    ensures RowSays(rates, own, Trials(steps), n)
  {
    hide AllKnown, RateSays, RateAt;
    forall i | 0 <= i < n ensures RateSays(rates[i], own, Trials(steps), i) {
      RateAtSays(c, own, Aggregate(steps, ids, prefix, n), steps, ids, prefix, fallBack, i);
    }
  }

  lemma RowsOfRates(rates: seq<seq<real>>, rows: seq<string>, counts: map<string, Counters>, steps: seq<Progress>,
      ids: seq<string>, prefix: string, fallBack: bool, n: nat)
    requires |rates| == |rows| && Fit(rows, counts, n) && Distinct(ids) && AllKnown(steps, ids, prefix)
    requires CountedIn(counts, ids, steps, prefix, n) && forall id :: id in rows ==> id in ids
    requires CanRateAll(rows, counts, Aggregate(steps, ids, prefix, n), fallBack)
    requires forall k :: 0 <= k < |rows| ==> |rates[k]| == n
    requires forall k, i :: 0 <= k < |rows| && 0 <= i < n ==>
      rates[k][i] == RateAt(counts[rows[k]], Aggregate(steps, ids, prefix, n), i)
    ensures forall k :: 0 <= k < |rows| ==> RowSays(rates[k], TrialsOf(steps, prefix + rows[k]), Trials(steps), n)
  {
    hide AllKnown, RowSays, RateAt, TrialsOf, Counts, Aggregate;
    forall k | 0 <= k < |rows| ensures RowSays(rates[k], TrialsOf(steps, prefix + rows[k]), Trials(steps), n) {
      RowOfRates(rates[k], counts[rows[k]], TrialsOf(steps, prefix + rows[k]), steps, ids, prefix, fallBack, n);
    }
  }

  /** No trial of the request reached the position, and none of any may stand in. */
  ghost predicate LacksEvidence(missing: Missing, steps: seq<Progress>, rows: seq<string>, n: int, prefix: string,
    fallBack: bool)
  {
    && missing.requestId in rows && missing.position < n
    && Den(TrialsOf(steps, prefix + missing.requestId), missing.position) == 0
    && (fallBack ==> Den(Trials(steps), missing.position) == 0)
  }

  lemma MissingLacksEvidence(missing: Missing, rows: seq<string>, counts: map<string, Counters>, ids: seq<string>,
      steps: seq<Progress>, prefix: string, fallBack: bool, n: nat, k: nat)
    requires k < |rows| && rows[k] in ids && CountedIn(counts, ids, steps, prefix, n)
    requires Distinct(ids) && AllKnown(steps, ids, prefix)
    requires missing.requestId == rows[k] && missing.position < n
    requires !CanRate(counts[rows[k]], Aggregate(steps, ids, prefix, n), fallBack, missing.position)
    ensures LacksEvidence(missing, steps, rows, n, prefix, fallBack)
  {
    PoolCountsAllTrials(steps, ids, prefix, missing.position);
    hide Den, Num, TrialsOf, Trials, AllKnown, PooledDen, PooledNum;
    assert Counts(counts[rows[k]], TrialsOf(steps, prefix + rows[k]), n);
    var rate := Aggregate(steps, ids, prefix, n)[missing.position];
    assert rate == Rate(PooledNum(steps, ids, prefix, missing.position), PooledDen(steps, ids, prefix, missing.position));
  }

  datatype Refusal = Faulty(fault: Fault) | Unrated(missing: Missing)

  /** `prepare_workload`: count, pool, rate. `ids` are the rows' ids, in any order. */
  method PrepareWorkload(steps: seq<Progress>, rows: seq<string>, ids: seq<string>, draftTokens: int, prefix: string,
      fallBack: bool) returns (r: Result<Prepared, Refusal>)
    requires Distinct(ids) && forall id :: id in ids <==> id in rows
    ensures r.Ok? <==> CanPrepare(steps, rows, ids, draftTokens, prefix, fallBack)
    ensures r.Ok? ==> |r.value.rates| == |rows|
    ensures r.Ok? ==> forall k :: 0 <= k < |rows| ==>
      RowSays(r.value.rates[k], TrialsOf(steps, prefix + rows[k]), Trials(steps), draftTokens)
    ensures r.Ok? ==> FallbacksSay(r.value.fallbacks, steps, rows, prefix, draftTokens)
    ensures r.Err? && r.error.Faulty? ==>
      if draftTokens <= 0 then r.error.fault == BadDraftTokens
      else FirstFault(steps, Encoded(set id | id in ids :: id, prefix), draftTokens) == Some(r.error.fault)
    ensures r.Err? && r.error.Unrated? ==>
      LacksEvidence(r.error.missing, steps, rows, draftTokens, prefix, fallBack)
  {
    var known := set id | id in ids :: id;
    var counted := AcceptanceCounts(steps, known, draftTokens, prefix);
    if counted.Err? {
      return Err(Faulty(counted.error));
    }
    var counts := counted.value;
    CountsOfRows(counts, ids, steps, prefix, draftTokens);
    NoFaultFacts(steps, ids, prefix, draftTokens);
    hide AllCount, AllFallbacks, FallbacksSay, Encoded, TrialsOf, Trials, AllKnown, Den, Num;
    hide RowSays, Rate, CanRateAll, RateAt, LacksEvidence, IsFirstMissing;
    var aggregate := AggregateOf(counts, ids, draftTokens);
    AggregateOfPooled(counts, ids, steps, prefix, draftTokens);
    PreparedExactlyWhen(rows, counts, steps, ids, prefix, draftTokens, fallBack);
    PoolCountsAllTrials(steps, ids, prefix, draftTokens - 1);
    var prepared := PrepareRates(rows, counts, aggregate, fallBack);
    if prepared.Err? {
      ghost var k: nat :| IsFirstMissing(prepared.error, rows, counts, aggregate, fallBack, k);
      FirstMissingIs(prepared.error, rows, counts, aggregate, fallBack, k);
      MissingLacksEvidence(prepared.error, rows, counts, ids, steps, prefix, fallBack, draftTokens, k);
      return Err(Unrated(prepared.error));
    }
    RowsOfRates(prepared.value.rates, rows, counts, steps, ids, prefix, fallBack, draftTokens);
    FallbacksTell(rows, counts, ids, steps, prefix, draftTokens);
    return Ok(prepared.value);
  }

  lemma RowSaysOwn(rates: seq<real>, own: seq<Progress>, all: seq<Progress>, draftTokens: nat, i: nat)
    requires RowSays(rates, own, all, draftTokens) && i < draftTokens && Den(own, i) > 0
    ensures RatesOf(rates, own, i)
  {
    hide Num, Den, RateSays;
    forall k | 0 <= k <= i ensures Den(own, k) > 0 && rates[k] == Num(own, k) as real / Den(own, k) as real {
      Antitone(own, k, i);
      OwnRate(rates[k], own, all, k);
    }
  }

  lemma OwnRate(rate: real, own: seq<Progress>, all: seq<Progress>, i: nat)
    requires RateSays(rate, own, all, i) && Den(own, i) > 0
    ensures rate == Num(own, i) as real / Den(own, i) as real
  {
    hide Num, Den;
    QuotientOf(rate, Num(own, i), Den(own, i));
  }

  lemma QuotientOf(q: real, n: nat, d: nat)
    requires d > 0 && q * d as real == n as real
    ensures q == n as real / d as real
  {
  }

  /** A prepared row's own rates telescope: where its trials draft the full depth, the product of
      its first `i + 1` rates is the fraction of them that accept more than `i` tokens. */
  lemma PreparedProductTelescopes(rates: seq<real>, own: seq<Progress>, all: seq<Progress>, draftTokens: nat, i: nat)
    requires RowSays(rates, own, all, draftTokens) && FullDepth(own, draftTokens) && i < draftTokens && Den(own, i) > 0
    ensures |own| > 0 && Product(rates, i) == Num(own, i) as real / |own| as real
  {
    RowSaysOwn(rates, own, all, draftTokens, i);
    ProductTelescopes(rates, own, draftTokens, i);
  }

  function SumDen(trials: seq<Progress>, n: nat): nat {
    if n == 0 then 0 else SumDen(trials, n - 1) + Den(trials, n - 1)
  }

  function Tried(trials: seq<Progress>): int {
    if trials == [] then 0
    else Tried(trials[..|trials| - 1]) + Min(trials[|trials| - 1].accepted + 1, trials[|trials| - 1].drafted)
  }

  lemma {:induction false} TriedOneMore(init: seq<Progress>, s: Progress, n: nat)
    requires 0 <= s.accepted <= s.drafted
    ensures SumDen(init + [s], n) == SumDen(init, n) + Min(Min(s.accepted + 1, s.drafted), n)
  {
    if n > 0 {
      TriedOneMore(init, s, n - 1);
      assert (init + [s])[..|init|] == init;
    }
  }

  lemma {:induction false} NothingTriedSums(n: nat)
    ensures SumDen([], n) == 0
  {
    if n > 0 {
      NothingTriedSums(n - 1);
    }
  }

  /** The denominators sum to the draft tokens tried: of each trial those accepted and the first
      rejected. */
  lemma {:induction false} DenominatorsSumToTried(trials: seq<Progress>, draftTokens: nat)
    requires AllChains(trials, draftTokens)
    ensures SumDen(trials, draftTokens) == Tried(trials)
  {
    if trials == [] {
      NothingTriedSums(draftTokens);
    } else {
      var init, s := trials[..|trials| - 1], trials[|trials| - 1];
      assert trials == init + [s];
      assert s in trials;
      DenominatorsSumToTried(init, draftTokens);
      TriedOneMore(init, s, draftTokens);
    }
  }
}
