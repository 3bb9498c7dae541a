/** Work units, the multiset of measurements they stand for, and round-robin slicing
    (profiling/plan.py:54-104). */
module WorkUnits {
  import opened Arithmetic
  import opened Common

  datatype Value = IntValue(i: int) | TextValue(t: string) | FlagValue(b: bool)

  /** A spec is a dict; two specs are the same measurement iff their sorted items are. */
  type Spec = map<string, Value>

  datatype WorkUnit = WorkUnit(
    kind: string,
    backend: string,
    specs: seq<Spec>,
    gpuCount: int,
    gpuName: Option<string>)
  {
    function Size(): nat { |specs| }
  }

  /** One measurement a unit asks for. */
  datatype Item = Item(kind: string, backend: string, gpuName: Option<string>, gpuCount: int, spec: Spec)

  ghost function Tagged(u: WorkUnit): seq<Item> {
    seq(|u.specs|, i requires 0 <= i < |u.specs| =>
      Item(u.kind, u.backend, u.gpuName, u.gpuCount, u.specs[i]))
  }

  /** Every measurement a list of units asks for, with multiplicity. */
  ghost function Items(us: seq<WorkUnit>): multiset<Item> {
    if us == [] then multiset{} else multiset(Tagged(us[0])) + Items(us[1..])
  }

  function TotalSize(us: seq<WorkUnit>): nat {
    if us == [] then 0 else us[0].Size() + TotalSize(us[1..])
  }

  lemma {:induction false} ItemsAppend(a: seq<WorkUnit>, b: seq<WorkUnit>)
    ensures Items(a + b) == Items(a) + Items(b)
  {
    if a == [] {
      assert a + b == b;
    } else {
      assert (a + b)[1..] == a[1..] + b;
      ItemsAppend(a[1..], b);
    }
  }

  lemma {:induction false} TotalSizeIsItemCount(us: seq<WorkUnit>)
    ensures TotalSize(us) == |Items(us)|
  {
    if us != [] {
      TotalSizeIsItemCount(us[1..]);
    }
  }

  lemma {:induction false} ItemsSnoc(us: seq<WorkUnit>, u: WorkUnit)
    ensures Items(us + [u]) == Items(us) + multiset(Tagged(u))
  {
    ItemsAppend(us, [u]);
    ItemsOfOne(u);
  }

  lemma ItemsOfOne(u: WorkUnit)
    ensures Items([u]) == multiset(Tagged(u))
  {
    assert [u][1..] == [];
  }

  lemma ItemsWithout(us: seq<WorkUnit>, k: nat)
    requires k < |us|
    ensures Items(us) == multiset(Tagged(us[k])) + Items(us[..k] + us[k+1..])
  {
    hide Items, Tagged;
    var front, back := us[..k], us[k+1..];
    assert us == (front + [us[k]]) + back;
    ItemsAppend(front + [us[k]], back);
    ItemsSnoc(front, us[k]);
    ItemsAppend(front, back);
  }

  lemma {:induction false} ItemsOfPermutation(us: seq<WorkUnit>, vs: seq<WorkUnit>)
    requires multiset(us) == multiset(vs)
    ensures Items(us) == Items(vs)
    decreases |us|
  {
    hide Items, Tagged;
    if us == [] {
      NothingElse(vs);
    } else {
      var k := PlaceOf(vs, us);
      RestsAgree(us, vs, k);
      ItemsWithout(us, 0);
      ItemsWithout(vs, k);
      assert us[..0] + us[1..] == us[1..];
      ItemsOfPermutation(us[1..], vs[..k] + vs[k+1..]);
    }
  }

  // ---- round-robin slicing --------------------------------------------------

  /** Python's `s[start::step]`. */
  function Strided<T>(s: seq<T>, start: nat, step: nat): seq<T>
    requires step > 0
    decreases |s| - start
  {
    if start >= |s| then [] else [s[start]] + Strided(s, start + step, step)
  }

  lemma {:induction false} StridedLength<T>(s: seq<T>, start: nat, step: nat)
    requires step > 0
    ensures |Strided(s, start, step)| == if start >= |s| then 0 else (|s| - 1 - start) / step + 1
    decreases |s| - start
  {
    if start < |s| {
      StridedLength(s, start + step, step);
      if start + step < |s| {
        DivStep(|s| - 1 - start, step);
      } else {
        SmallDivMod(|s| - 1 - start, step);
      }
    }
  }

  lemma {:induction false} StridedElement<T>(s: seq<T>, start: nat, step: nat, k: nat)
    requires step > 0 && k < |Strided(s, start, step)|
    ensures start + step * k < |s| && Strided(s, start, step)[k] == s[start + step * k]
    decreases |s| - start
  {
    if k > 0 {
      StridedElement(s, start + step, step, k - 1);
      Distribute(step, k, 1);
    }
  }

  /** `s[start::step]` holds exactly the elements start, start + step, ... of s. */
  lemma StridedAt<T>(s: seq<T>, start: nat, step: nat)
    requires step > 0
    ensures |Strided(s, start, step)| == if start >= |s| then 0 else (|s| - 1 - start) / step + 1
    ensures forall k :: 0 <= k < |Strided(s, start, step)| ==>
      start + step * k < |s| && Strided(s, start, step)[k] == s[start + step * k]
  {
    StridedLength(s, start, step);
    forall k | 0 <= k < |Strided(s, start, step)|
      ensures start + step * k < |s| && Strided(s, start, step)[k] == s[start + step * k]
    {
      StridedElement(s, start, step, k);
    }
  }

  lemma {:induction false} StridedAppend<T>(s: seq<T>, x: T, start: nat, step: nat)
    requires step > 0
    ensures Strided(s + [x], start, step) ==
      Strided(s, start, step) + (if start <= |s| && (|s| - start) % step == 0 then [x] else [])
    decreases |s| - start
  {
    if start < |s| {
      StridedAppend(s, x, start + step, step);
      assert Strided(s + [x], start, step) == [s[start]] + Strided(s + [x], start + step, step);
      if start + step <= |s| {
        DivStep(|s| - start, step);
      }
    } else if start == |s| {
      assert Strided(s + [x], start, step) == [x] + Strided(s + [x], start + step, step);
    }
  }

  /** The elements of the first `n` strides, stride by stride. */
  ghost function Dealt<T>(s: seq<T>, step: nat, n: nat): multiset<T>
    requires step > 0
  {
    if n == 0 then multiset{} else Dealt(s, step, n - 1) + multiset(Strided(s, n - 1, step))
  }

  lemma StrideGains<T>(s: seq<T>, x: T, start: nat, step: nat)
    requires start < step
    ensures multiset(Strided(s + [x], start, step)) ==
      multiset(Strided(s, start, step)) + (if |s| % step == start then multiset{x} else multiset{})
  {
    StridedAppend(s, x, start, step);
    TurnComes(|s|, start, step);
    hide Strided;
    var was := Strided(s, start, step);
    assert multiset(was + [x]) == multiset(was) + multiset{x};
    assert was + [] == was;
  }

  /** Whether the n-th element is dealt to `start`. */
  lemma TurnComes(n: nat, start: nat, step: nat)
    requires start < step
    ensures start <= n && (n - start) % step == 0 <==> n % step == start
  {
    if start <= n {
      SameResidue(n, start, step);
    } else {
      SmallDivMod(n, step);
    }
  }

  /** If only stride r gains x, the first n strides together gain x once n exceeds r. */
  lemma {:induction false} DealtGains<T>(s: seq<T>, t: seq<T>, x: T, step: nat, n: nat, r: nat)
    requires 0 < step && n <= step
    requires forall j: nat :: j < step ==>
      multiset(Strided(t, j, step)) == multiset(Strided(s, j, step)) + (if r == j then multiset{x} else multiset{})
    ensures Dealt(t, step, n) == Dealt(s, step, n) + (if r < n then multiset{x} else multiset{})
  {
    if n > 0 {
      DealtGains(s, t, x, step, n - 1, r);
    }
  }

  /** Dealing a list round-robin loses nothing and invents nothing. */
  lemma {:induction false} DealtIsWhole<T>(s: seq<T>, step: nat)
    requires step > 0
    ensures Dealt(s, step, step) == multiset(s)
  {
    if s == [] {
      DealtOfNothing<T>(step, step);
    } else {
      var init, x := s[..|s|-1], s[|s|-1];
      assert s == init + [x];
      DealtIsWhole(init, step);
      var r := |init| % step;
      forall j: nat | j < step
        ensures multiset(Strided(s, j, step)) ==
          multiset(Strided(init, j, step)) + (if r == j then multiset{x} else multiset{})
      {
        StrideGains(init, x, j, step);
      }
      DealtGains(init, s, x, step, step, r);
    }
  }

  lemma {:induction false} DealtOfNothing<T>(step: nat, n: nat)
    requires step > 0
    ensures Dealt<T>([], step, n) == multiset{}
  {
    if n > 0 {
      DealtOfNothing<T>(step, n - 1);
    }
  }

  function Piece(u: WorkUnit, index: nat, pieces: nat): WorkUnit
    requires pieces > 0
  {
    u.(specs := Strided(u.specs, index, pieces))
  }

  /** The pieces `u.sliced(pieces)` returns. */
  function Slices(u: WorkUnit, pieces: int): seq<WorkUnit> {
    if pieces <= 0 then []
    else seq(Min(pieces, u.Size()), i requires 0 <= i => Piece(u, i, pieces))
  }

  /** Every piece is a share of the unit, none empty, and spec i of the unit is spec i div pieces
      of piece i mod pieces. */
  ghost predicate RoundRobin(u: WorkUnit, pieces: int, out: seq<WorkUnit>) {
    && (forall p :: p in out ==> p.specs != [] && p == u.(specs := p.specs))
    && (pieces > 0 ==> forall i :: 0 <= i < |u.specs| ==> DealtTo(u, pieces, out, i))
  }

  ghost predicate DealtTo(u: WorkUnit, pieces: nat, out: seq<WorkUnit>, i: nat)
    requires pieces > 0 && i < |u.specs|
  {
    && i % pieces < |out| && i / pieces < |out[i % pieces].specs|
    && out[i % pieces].specs[i / pieces] == u.specs[i]
  }

  /** `sliced` drops empty shares, so it yields min(pieces, size) pieces, dealt round-robin. */
  method Sliced(u: WorkUnit, pieces: int) returns (out: seq<WorkUnit>)
    ensures out == Slices(u, pieces) && |out| == Max(0, Min(pieces, u.Size()))
    ensures RoundRobin(u, pieces, out)
  {
    hide RoundRobin;
    out := [];
    var index := 0;
    while index < pieces
      invariant 0 <= index <= Max(0, pieces)
      invariant out == if pieces <= 0 then [] else Slices(u, pieces)[..Min(index, u.Size())]
    {
      ShareIsEmpty(u.specs, index, pieces);
      var share := Strided(u.specs, index, pieces);
      if share != [] {
        out := out + [u.(specs := share)];
      }
      index := index + 1;
    }
    if pieces > 0 {
      assert Slices(u, pieces)[..|Slices(u, pieces)|] == Slices(u, pieces);
    }
    SlicesAreRoundRobin(u, pieces);
  }

  lemma SlicesAreRoundRobin(u: WorkUnit, pieces: int)
    ensures RoundRobin(u, pieces, Slices(u, pieces))
  {
    hide Slices;
    if pieces > 0 {
      SlicesAreShares(u, pieces);
      hide DealtTo;
      forall i | 0 <= i < |u.specs| ensures DealtTo(u, pieces, Slices(u, pieces), i) {
        SliceIsDealt(u, pieces, i);
      }
    } else {
      NoSlices(u, pieces);
    }
  }

  lemma SliceIsDealt(u: WorkUnit, pieces: nat, i: nat)
    requires pieces > 0 && i < |u.specs|
    ensures DealtTo(u, pieces, Slices(u, pieces), i)
  {
    hide Slices;
    SliceHolds(u, pieces, i);
  }

  lemma NoSlices(u: WorkUnit, pieces: int)
    requires pieces <= 0
    ensures Slices(u, pieces) == []
  {
  }

  lemma ShareIsEmpty<T>(s: seq<T>, start: nat, step: nat)
    requires step > 0
    ensures Strided(s, start, step) == [] <==> start >= |s|
  {
  }

  lemma SlicesAreShares(u: WorkUnit, pieces: nat)
    requires pieces > 0
    ensures forall p :: p in Slices(u, pieces) ==> p.specs != [] && p == u.(specs := p.specs)
  {
    var out := Slices(u, pieces);
    forall p | p in out ensures p.specs != [] && p == u.(specs := p.specs) {
      var i :| 0 <= i < |out| && out[i] == p;
      assert p == Piece(u, i, pieces);
      ShareIsEmpty(u.specs, i, pieces);
    }
  }

  lemma SliceHolds(u: WorkUnit, pieces: nat, i: nat)
    requires pieces > 0 && i < u.Size()
    ensures var out := Slices(u, pieces);
      && i % pieces < |out| && i / pieces < |out[i % pieces].specs|
      && out[i % pieces].specs[i / pieces] == u.specs[i]
  {
    var r, q := i % pieces, i / pieces;
    assert i == pieces * q + r;
    assert r <= i by { assert pieces * q >= 0; }
    StridedAt(u.specs, r, pieces);
    DivIsGreatest(u.Size() - 1 - r, pieces, q);
  }

  /** Sizes of round-robin pieces: at least floor(size/pieces), at most its ceiling. */
  lemma SliceSizes(u: WorkUnit, pieces: nat, j: nat)
    requires 0 < pieces && j < Min(pieces, u.Size())
    ensures var cuts := Min(pieces, u.Size());
      && |Slices(u, pieces)| == cuts
      && u.Size() / cuts <= Slices(u, pieces)[j].Size() <= (u.Size() - 1) / cuts + 1
  {
    if pieces > u.Size() {
      OneSpecEach(u, pieces, j);
    } else {
      EvenSizes(u, pieces, j);
    }
  }

  lemma OneSpecEach(u: WorkUnit, pieces: nat, j: nat)
    requires j < u.Size() < pieces
    ensures Slices(u, pieces)[j].Size() == 1 == u.Size() / u.Size() == (u.Size() - 1) / u.Size() + 1
  {
    StridedAt(u.specs, j, pieces);
    SmallDivMod(u.Size() - 1 - j, pieces);
    SmallDivMod(u.Size() - 1, u.Size());
    QuotientUnique(u.Size(), u.Size(), 1, 0);
  }

  lemma EvenSizes(u: WorkUnit, pieces: nat, j: nat)
    requires 0 < pieces <= u.Size() && j < pieces
    ensures u.Size() / pieces <= Slices(u, pieces)[j].Size() <= (u.Size() - 1) / pieces + 1
  {
    StridedAt(u.specs, j, pieces);
    var n := u.Size();
    assert Slices(u, pieces)[j].Size() == (n - 1 - j) / pieces + 1;
    DivMonotone(n - 1 - j, n - 1, pieces);
    DivMonotone(n - pieces, n - 1 - j, pieces);
    DivStep(n, pieces);
  }

  /** Slicing conserves the measurements whenever at least one piece is asked for. */
  lemma SlicesConserve(u: WorkUnit, pieces: int)
    requires pieces > 0
    ensures Items(Slices(u, pieces)) == multiset(Tagged(u))
  {
    var n := Min(pieces, u.Size());
    SlicesDealt(u, pieces, n);
    assert Slices(u, pieces)[..n] == Slices(u, pieces);
    DealtBeyond(Tagged(u), pieces, n, pieces);
    DealtIsWhole(Tagged(u), pieces);
  }

  lemma TaggedPiece(u: WorkUnit, index: nat, pieces: nat)
    requires pieces > 0
    ensures Tagged(Piece(u, index, pieces)) == Strided(Tagged(u), index, pieces)
  {
    StridedAt(u.specs, index, pieces);
    StridedAt(Tagged(u), index, pieces);
  }

  lemma {:induction false} SlicesDealt(u: WorkUnit, pieces: nat, n: nat)
    requires pieces > 0 && n <= Min(pieces, u.Size())
    ensures Items(Slices(u, pieces)[..n]) == Dealt(Tagged(u), pieces, n)
  {
    if n > 0 {
      var out := Slices(u, pieces);
      var last := out[n-1];
      SlicesDealt(u, pieces, n - 1);
      TakeOneMore(out, n - 1);
      ItemsAppend(out[..n-1], [last]);
      ItemsOfOne(last);
      TaggedPiece(u, n - 1, pieces);
    }
  }

  lemma {:induction false} DealtBeyond<T>(s: seq<T>, step: nat, lo: nat, hi: nat)
    requires step > 0 && lo <= hi && (lo == hi || |s| <= lo)
    ensures Dealt(s, step, hi) == Dealt(s, step, lo)
  {
    if lo < hi {
      DealtBeyond(s, step, lo, hi - 1);
    }
  }

  /** A list of pieces re-interleaved: element i comes from piece i mod n. */
  ghost function Interleaved(pieces: seq<WorkUnit>, total: nat): seq<Spec>
    requires |pieces| > 0
    requires forall i :: 0 <= i < total ==> i / |pieces| < |pieces[i % |pieces|].specs|
  {
    seq(total, i requires 0 <= i < total => pieces[i % |pieces|].specs[i / |pieces|])
  }

  /** Re-interleaving the pieces rebuilds the unit's own spec order. */
  lemma SlicesInterleaveBack(u: WorkUnit, pieces: nat)
    requires pieces > 0 && u.specs != []
    ensures var out := Slices(u, pieces);
      && |out| > 0
      && (forall i :: 0 <= i < u.Size() ==> i / |out| < |out[i % |out|].specs|)
      && Interleaved(out, u.Size()) == u.specs
  {
    var out := Slices(u, pieces);
    forall i | 0 <= i < u.Size()
      ensures i / |out| < |out[i % |out|].specs|
      ensures out[i % |out|].specs[i / |out|] == u.specs[i]
    {
      SliceHolds(u, pieces, i);
      if pieces > u.Size() {
        SmallDivMod(i, pieces);
        SmallDivMod(i, u.Size());
      }
    }
  }

  // ---- sorted(units, key=lambda unit: -unit.size) -----------------------------

  function InsertBySize(u: WorkUnit, us: seq<WorkUnit>): seq<WorkUnit> {
    if us == [] || us[0].Size() <= u.Size() then [u] + us
    else [us[0]] + InsertBySize(u, us[1..])
  }

  function LargestFirst(us: seq<WorkUnit>): seq<WorkUnit> {
    if us == [] then [] else InsertBySize(us[0], LargestFirst(us[1..]))
  }

  ghost predicate Descending(us: seq<WorkUnit>) {
    forall i, j :: 0 <= i < j < |us| ==> us[i].Size() >= us[j].Size()
  }

  ghost function OfSize(us: seq<WorkUnit>, n: nat): seq<WorkUnit> {
    if us == [] then []
    else (if us[0].Size() == n then [us[0]] else []) + OfSize(us[1..], n)
  }

  lemma {:induction false} InsertBySizePermutes(u: WorkUnit, us: seq<WorkUnit>)
    ensures multiset(InsertBySize(u, us)) == multiset(us) + multiset{u}
  {
    if us == [] || us[0].Size() <= u.Size() {
      assert multiset([u] + us) == multiset(us) + multiset{u};
    } else {
      InsertBySizePermutes(u, us[1..]);
      assert us == [us[0]] + us[1..];
    }
  }

  lemma {:induction false} InsertBySizeDescends(u: WorkUnit, us: seq<WorkUnit>)
    requires Descending(us)
    ensures Descending(InsertBySize(u, us))
  {
    if us != [] && us[0].Size() > u.Size() {
      InsertBySizeDescends(u, us[1..]);
      InsertedMembers(u, us[1..]);
      forall x | x in InsertBySize(u, us[1..]) ensures x.Size() <= us[0].Size() {
        if x != u {
          var k :| 0 <= k < |us[1..]| && us[1..][k] == x;
          assert us[k + 1] == x;
        }
      }
    }
  }

  lemma {:induction false} InsertedMembers(u: WorkUnit, us: seq<WorkUnit>)
    ensures forall x :: x in InsertBySize(u, us) ==> x == u || x in us
  {
    if us != [] && us[0].Size() > u.Size() {
      InsertedMembers(u, us[1..]);
    }
  }

  lemma {:induction false} InsertBySizeStable(u: WorkUnit, us: seq<WorkUnit>, n: nat)
    ensures OfSize(InsertBySize(u, us), n) == OfSize([u] + us, n)
  {
    assert ([u] + us)[1..] == us;
    if us != [] && us[0].Size() > u.Size() {
      InsertBySizeStable(u, us[1..], n);
      assert ([u] + us[1..])[1..] == us[1..];
    }
  }

  lemma NothingIsSorted()
    ensures Descending([])
  {
  }

  /** The sort is a permutation, largest first, and stable. */
  lemma {:induction false} LargestFirstSorts(us: seq<WorkUnit>)
    ensures Descending(LargestFirst(us))
    ensures multiset(LargestFirst(us)) == multiset(us)
    ensures forall n: nat :: OfSize(LargestFirst(us), n) == OfSize(us, n)
  {
    hide InsertBySize, Descending;
    if us == [] {
      NothingIsSorted();
    } else {
      var tail := LargestFirst(us[1..]);
      LargestFirstSorts(us[1..]);
      InsertBySizePermutes(us[0], tail);
      InsertBySizeDescends(us[0], tail);
      assert us == [us[0]] + us[1..];
      forall n: nat ensures OfSize(LargestFirst(us), n) == OfSize(us, n) {
        InsertBySizeStable(us[0], tail, n);
        assert ([us[0]] + tail)[1..] == tail;
      }
    }
  }
}
