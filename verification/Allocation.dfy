/** How units are cut: before dispatch when one dominates, and at the tail when cards would
    idle (profiling/plan.py:43-51, 216-222, 314-402). */
module Allocation {
  import opened Arithmetic
  import opened Common
  import opened WorkUnits

  const MIN_PIECE_SPECS := 16
  const PIECES_PER_CARD := 4

  datatype SplitLabel = SplitLabel(kind: string, backend: string, pieces: nat)

  datatype Failure =
    | NeedsMoreGpus(kind: string, backend: string, needs: int, have: nat)
    | RunFailed(kind: string, backend: string)

  class IssueReport {
    var units: nat
    var pieces: nat
    var specs: nat
    var splitUnits: seq<SplitLabel>
    var failures: seq<Failure>

    constructor ()
      ensures units == pieces == specs == 0 && splitUnits == [] && failures == []
    {
      units, pieces, specs := 0, 0, 0;
      splitUnits, failures := [], [];
    }
  }

  /** The list `issue` pops from and splices into. */
  class PendingQueue {
    var items: seq<WorkUnit>

    constructor (items: seq<WorkUnit>)
      ensures this.items == items
    {
      this.items := items;
    }
  }

  // ---- cutting dominant units before dispatch -----------------------------------

  function EvenShare(total: nat, cards: nat): nat
    requires cards > 0
  {
    DivNonNegative(total, cards);
    Max(MIN_PIECE_SPECS, total / cards)
  }

  lemma DivNonNegative(n: int, d: int)
    requires n >= 0 && d > 0
    ensures n / d >= 0
  {
    DivMonotone(0, n, d);
    SmallDivMod(0, d);
  }

  function Target(total: nat, cards: nat): nat
    requires cards > 0
  {
    Max(MIN_PIECE_SPECS, EvenShare(total, cards) / PIECES_PER_CARD)
  }

  /** Python's `-(-n // d)`. */
  function CeilDiv(n: nat, d: nat): int
    requires d > 0
  {
    -((0 - n) / d)
  }

  function PiecesFor(size: nat, cards: nat, total: nat): int
    requires cards > 0
  {
    Min(Min(cards, CeilDiv(size, Target(total, cards))), Max(1, size / MIN_PIECE_SPECS))
  }

  predicate IsCut(u: WorkUnit, cards: nat, total: nat)
    requires cards > 0
  {
    u.Size() > EvenShare(total, cards) && PiecesFor(u.Size(), cards, total) >= 2
  }

  function CutOne(u: WorkUnit, cards: nat, total: nat): seq<WorkUnit>
    requires cards > 0
  {
    if IsCut(u, cards, total) then Slices(u, PiecesFor(u.Size(), cards, total)) else [u]
  }

  function CutAll(us: seq<WorkUnit>, cards: nat, total: nat): seq<WorkUnit>
    requires cards > 0
  {
    if us == [] then []
    else CutAll(us[..|us|-1], cards, total) + CutOne(us[|us|-1], cards, total)
  }

  function CutLabels(us: seq<WorkUnit>, cards: nat, total: nat): seq<SplitLabel>
    requires cards > 0
  {
    if us == [] then []
    else
      var u := us[|us|-1];
      CutLabels(us[..|us|-1], cards, total)
      + (if IsCut(u, cards, total)
         then [SplitLabel(u.kind, u.backend, |CutOne(u, cards, total)|)] else [])
  }

  /** The queue dispatch starts from. */
  function Queue(us: seq<WorkUnit>, cards: nat): seq<WorkUnit> {
    if cards < 2 || us == [] then us else LargestFirst(CutAll(us, cards, TotalSize(us)))
  }

  method SliceOversized(us: seq<WorkUnit>, cards: nat, report: IssueReport) returns (out: seq<WorkUnit>)
    modifies report`splitUnits
    ensures out == Queue(us, cards)
    ensures report.splitUnits == old(report.splitUnits) +
      (if cards < 2 then [] else CutLabels(us, cards, TotalSize(us)))
  {
    if cards < 2 || us == [] {
      return us;
    }
    hide Slices, CeilDiv, LargestFirst, TotalSize;
    var total := TotalSize(us);
    var evenShare := EvenShare(total, cards);
    var target := Target(total, cards);
    out := [];
    for i := 0 to |us|
      invariant out == CutAll(us[..i], cards, total)
      invariant report.splitUnits == old(report.splitUnits) + CutLabels(us[..i], cards, total)
    {
      var unit := us[i];
      TakeOneMore(us, i);
      assert us[..i+1][..i] == us[..i];
      if unit.Size() <= evenShare {
        out := out + [unit];
        continue;
      }
      var pieces := Min(cards, CeilDiv(unit.Size(), target));
      pieces := Min(pieces, Max(1, unit.Size() / MIN_PIECE_SPECS));
      if pieces < 2 {
        out := out + [unit];
        continue;
      }
      var sliced := Sliced(unit, pieces);
      report.splitUnits := report.splitUnits + [SplitLabel(unit.kind, unit.backend, |sliced|)];
      out := out + sliced;
    }
    assert us[..|us|] == us;
    out := LargestFirst(out);
  }

  lemma CeilDivBounds(n: nat, d: nat)
    requires d > 0
    ensures d * CeilDiv(n, d) >= n > d * CeilDiv(n, d) - d
  {
    DivLower(0 - n, d);
    var q := (0 - n) / d;
    assert d * (-q) == -(d * q) by { Distribute(d, 0, q); }
  }

  /** With a dominance gate the cut never leaves fewer than 16 specs in a piece, and what
      it leaves whole or cuts fits in a card's even share, rounded up, or under 32 specs. */
  lemma CutOneBounds(u: WorkUnit, cards: nat, total: nat)
    requires cards >= 2 && u.Size() <= total
    ensures forall p :: p in CutOne(u, cards, total) ==> p.Size() <= Max(31, total / cards + 1)
    ensures IsCut(u, cards, total) ==>
      2 <= |CutOne(u, cards, total)| <= cards
      && forall p :: p in CutOne(u, cards, total) ==> p.Size() >= MIN_PIECE_SPECS
    ensures Items(CutOne(u, cards, total)) == multiset(Tagged(u))
  {
    var size, share, target := u.Size(), EvenShare(total, cards), Target(total, cards);
    var pieces := PiecesFor(size, cards, total);
    if IsCut(u, cards, total) {
      SlicesConserve(u, pieces);
      DivIsGreatestInverse(size, MIN_PIECE_SPECS, pieces);
      forall p | p in CutOne(u, cards, total)
        ensures MIN_PIECE_SPECS <= p.Size() <= Max(31, total / cards + 1)
      {
        var j :| 0 <= j < |Slices(u, pieces)| && Slices(u, pieces)[j] == p;
        SliceSizes(u, pieces, j);
        DivIsGreatest(size, pieces, MIN_PIECE_SPECS);
        PieceUpperBound(size, cards, total);
      }
      SliceSizes(u, pieces, 0);
    } else {
      ItemsOfOne(u);
      if size > share {
        CeilDivBounds(size, target);
        assert CeilDiv(size, target) >= 2;
      }
    }
  }

  /** `q` is n / d, said without dividing. */
  predicate IsQuotient(q: int, n: int, d: nat) {
    d * q <= n < d * (q + 1)
  }

  lemma DivIsQuotient(n: int, d: nat)
    requires d > 0
    ensures IsQuotient(n / d, n, d)
  {
    DivLower(n, d);
    Distribute(d, n / d, 1);
  }

  /** A card's even share of `total` specs, but at least 16; and a quarter of that, but at least 16. */
  predicate IsShare(share: int, total: nat, cards: nat) {
    share >= 16 && (IsQuotient(share, total, cards) || (share == 16 && total < cards * 16))
  }

  predicate IsQuarter(target: int, share: int) {
    target >= 16 && (IsQuotient(target, share, 4) || (target == 16 && share < 64))
  }

  /** As few pieces as bring a unit down to the target, but no more than there are cards, and none
      under 16 specs. */
  predicate IsFinestCut(n: int, size: nat, cards: nat, target: int) {
    && 1 <= n <= cards && (n == 1 || 16 * n <= size)
    && target * (n - 1) < size
    && (n == cards || size <= target * n || size < 16 * (n + 1))
  }

  lemma OnlyQuotient(q: int, n: int, d: nat)
    requires d > 0 && IsQuotient(q, n, d)
    ensures q == n / d
  {
    Distribute(d, q, 1);
    QuotientUnique(n, d, q, n - d * q);
  }

  lemma OnlyShare(share: int, total: nat, cards: nat)
    requires cards > 0 && IsShare(share, total, cards)
    ensures share == EvenShare(total, cards)
  {
    if IsQuotient(share, total, cards) {
      OnlyQuotient(share, total, cards);
    } else {
      BoundedQuotient(total, cards, 15);
    }
  }

  lemma OnlyQuarter(target: int, share: int)
    requires share >= 16 && IsQuarter(target, share)
    ensures target == Max(MIN_PIECE_SPECS, share / PIECES_PER_CARD)
  {
    if IsQuotient(target, share, 4) {
      OnlyQuotient(target, share, 4);
    }
  }

  lemma PiecesAreFinest(size: nat, cards: nat, total: nat)
    requires cards >= 2 && size > EvenShare(total, cards)
    ensures IsFinestCut(PiecesFor(size, cards, total), size, cards, Target(total, cards))
  {
    var target, n := Target(total, cards), PiecesFor(size, cards, total);
    var most := CeilDiv(size, target);
    CeilDivBounds(size, target);
    DivIsQuotient(size, 16);
    if most < 1 {
      ProductOrder(target, most, 0);
      assert false;
    }
    ProductOrder(target, n - 1, most - 1);
    Distribute(target, most, 1);
  }

  /** A unit above the even share is cut into that many pieces, dealt round-robin, if that is more
      than one; any other stays whole. */
  lemma CutExactlyWhenDominant(u: WorkUnit, cards: nat, total: nat, share: int, target: int)
    requires cards >= 2 && IsShare(share, total, cards) && IsQuarter(target, share)
    ensures var out := CutOne(u, cards, total);
      && |out| >= 1
      && (|out| == 1 ==> out == [u])
      && (|out| > 1 ==> u.Size() > share && RoundRobin(u, |out|, out))
      && (u.Size() > share ==> IsFinestCut(|out|, u.Size(), cards, target))
  {
    OnlyShare(share, total, cards);
    OnlyQuarter(target, share);
    hide RoundRobin, IsShare, IsQuarter;
    if u.Size() > share {
      PiecesAreFinest(u.Size(), cards, total);
      hide EvenShare, Target, PiecesFor;
      SlicesAreRoundRobin(u, PiecesFor(u.Size(), cards, total));
    }
  }

  lemma DivIsGreatestInverse(n: nat, d: nat, q: nat)
    requires d > 0 && q <= Max(1, n / d) && q >= 2
    ensures d * q <= n && q * d <= n && q <= n
  {
    DivLower(n, d);
    ProductOrder(d, q, n / d);
    ProductOrder(q, 1, d);
  }

  /** ceil(size / pieces) for the three ways `pieces` can be capped. */
  lemma PieceUpperBound(size: nat, cards: nat, total: nat)
    requires cards >= 2 && size <= total && size > EvenShare(total, cards)
    requires PiecesFor(size, cards, total) >= 2
    ensures (size - 1) / PiecesFor(size, cards, total) + 1 <= Max(31, total / cards + 1)
  {
    var pieces, target := PiecesFor(size, cards, total), Target(total, cards);
    if pieces == cards {
      DivMonotone(size - 1, total, cards);
    } else if pieces == CeilDiv(size, target) {
      CeilDivBounds(size, target);
      BoundedQuotient(size - 1, pieces, target - 1);
    } else {
      assert pieces == size / MIN_PIECE_SPECS;
      assert size == MIN_PIECE_SPECS * pieces + size % MIN_PIECE_SPECS;
      BoundedQuotient(size - 1, pieces, 30);
    }
  }

  lemma BoundedQuotient(n: nat, d: nat, q: nat)
    requires d > 0 && n < d * (q + 1)
    ensures n / d <= q
  {
    DivLower(n, d);
    if n / d > q {
      ProductOrder(d, q + 1, n / d);
      assert false;
    }
  }

  lemma {:induction false} CutAllConserves(us: seq<WorkUnit>, cards: nat, total: nat)
    requires cards >= 2 && forall u :: u in us ==> u.Size() <= total
    ensures Items(CutAll(us, cards, total)) == Items(us)
    ensures forall p :: p in CutAll(us, cards, total) ==> p.Size() <= Max(31, total / cards + 1)
  {
    if us != [] {
      var init, u := us[..|us|-1], us[|us|-1];
      assert us == init + [u];
      CutAllConserves(init, cards, total);
      CutOneBounds(u, cards, total);
      ItemsAppend(CutAll(init, cards, total), CutOne(u, cards, total));
      ItemsAppend(init, [u]);
      ItemsOfOne(u);
    }
  }

  lemma {:induction false} CutUnitsAreLarge(us: seq<WorkUnit>, cards: nat, total: nat, share: nat)
    requires cards >= 2 && share == EvenShare(total, cards)
    ensures (share + 1) * |CutLabels(us, cards, total)| <= TotalSize(us)
  {
    if us != [] {
      var init, u := us[..|us|-1], us[|us|-1];
      assert us == init + [u];
      CutUnitsAreLarge(init, cards, total, share);
      TotalSizeAppend(init, u);
      Distribute(share + 1, |CutLabels(init, cards, total)|, 1);
    }
  }

  lemma {:induction false} TotalSizeAppend(us: seq<WorkUnit>, u: WorkUnit)
    ensures TotalSize(us + [u]) == TotalSize(us) + u.Size()
  {
    if us != [] {
      assert (us + [u])[1..] == us[1..] + [u];
      TotalSizeAppend(us[1..], u);
    }
  }

  lemma {:induction false} SizeWithinTotal(us: seq<WorkUnit>)
    ensures forall u :: u in us ==> u.Size() <= TotalSize(us)
  {
    if us != [] {
      SizeWithinTotal(us[1..]);
      assert us == [us[0]] + us[1..];
    }
  }

  /** The dominance cut as a whole: specs conserved, fewer than `cards` units cut, no unit
      over max(31, total/cards + 1) specs, largest first. */
  lemma QueueFacts(us: seq<WorkUnit>, cards: nat)
    ensures Items(Queue(us, cards)) == Items(us)
    ensures cards >= 2 && us != [] ==>
      && |CutLabels(us, cards, TotalSize(us))| < cards
      && Descending(Queue(us, cards))
      && forall p :: p in Queue(us, cards) ==> p.Size() <= Max(31, TotalSize(us) / cards + 1)
  {
    hide CutAll, CutLabels, EvenShare, Items, TotalSize, LargestFirst;
    if cards >= 2 && us != [] {
      var total := TotalSize(us);
      var cut := CutAll(us, cards, total);
      SizeWithinTotal(us);
      CutAllConserves(us, cards, total);
      CutUnitsAreLarge(us, cards, total, EvenShare(total, cards));
      LargestFirstSorts(cut);
      ItemsOfPermutation(LargestFirst(cut), cut);
      forall p | p in Queue(us, cards) ensures p in cut {
        assert p in multiset(LargestFirst(cut));
      }
      FewAreDominant(total, cards, |CutLabels(us, cards, total)|);
    }
  }

  lemma FewAreDominant(total: nat, cards: nat, n: nat)
    requires cards >= 2 && (EvenShare(total, cards) + 1) * n <= total
    ensures n < cards
  {
    DivLower(total, cards);
    var share := total / cards;
    Distribute(cards, share, 1);
    if n >= cards {
      ProductOrder(EvenShare(total, cards) + 1, cards, n);
      ProductOrder(cards, share + 1, EvenShare(total, cards) + 1);
      assert false;
    }
  }

  // ---- the tail split ---------------------------------------------------------------

  datatype Taken = Taken(piece: WorkUnit, rest: seq<WorkUnit>, labels: seq<SplitLabel>)

  predicate SplitsTail(pending: seq<WorkUnit>, freeCount: nat)
    requires pending != []
  {
    |pending| < freeCount && pending[0].Size() >= MIN_PIECE_SPECS * 2
  }

  function TailPieces(pending: seq<WorkUnit>, freeCount: nat): int
    requires pending != []
  {
    Min(freeCount, Max(1, pending[0].Size() / MIN_PIECE_SPECS))
  }

  /** The gate asks for a free card more than there are units, and for two pieces' worth of specs. */
  lemma TailIsReallySplit(pending: seq<WorkUnit>, freeCount: nat)
    requires pending != [] && SplitsTail(pending, freeCount)
    ensures TailPieces(pending, freeCount) >= 2
  {
    DivIsGreatest(pending[0].Size(), MIN_PIECE_SPECS, 2);
  }

  /** The piece handed out, what stays pending, and the split recorded. */
  function NextPiece(pending: seq<WorkUnit>, freeCount: nat): Taken
    requires pending != []
  {
    if !SplitsTail(pending, freeCount) then Taken(pending[0], pending[1..], [])
    else
      TailIsReallySplit(pending, freeCount);
      var unit := pending[0];
      var sliced := Slices(unit, TailPieces(pending, freeCount));
      Taken(sliced[0], sliced[1..] + pending[1..], [SplitLabel(unit.kind, unit.backend, |sliced|)])
  }

  /** One taking, told by what it does: with fewer units than free cards and 32 specs in the head,
      the head becomes as many pieces of 16 specs as it holds, but no more than there are free
      cards, dealt round-robin, the first handed out and the others in its place; otherwise the
      head goes out whole. */
  ghost predicate IsTake(pending: seq<WorkUnit>, freeCount: nat, t: Taken)
    requires pending != []
  {
    var head := pending[0];
    if |pending| < freeCount && head.Size() >= 32 then
      && |t.labels| == 1 && t.labels[0] == SplitLabel(head.kind, head.backend, t.labels[0].pieces)
      && (var n := t.labels[0].pieces;
          && 2 <= n <= freeCount && 16 * n <= head.Size() && (n == freeCount || head.Size() < 16 * (n + 1))
          && |t.rest| == |pending| + n - 2 && t.rest[n - 1..] == pending[1..]
          && RoundRobin(head, n, [t.piece] + t.rest[..n - 1])
          && Items([t.piece] + t.rest[..n - 1]) == multiset(Tagged(head)))
    else
      t == Taken(head, pending[1..], [])
  }

  lemma NextPieceIsTake(pending: seq<WorkUnit>, freeCount: nat)
    requires pending != []
    ensures IsTake(pending, freeCount, NextPiece(pending, freeCount))
  {
    if SplitsTail(pending, freeCount) {
      var t, head, n := NextPiece(pending, freeCount), pending[0], TailPieces(pending, freeCount);
      var sliced := Slices(head, n);
      TailIsReallySplit(pending, freeCount);
      DivIsQuotient(head.Size(), 16);
      SlicesAreRoundRobin(head, n);
      SlicesConserve(head, n);
      hide RoundRobin, Items, Tagged;
      assert |sliced| == n == t.labels[0].pieces;
      hide Slices;
      assert t.rest[..n - 1] == sliced[1..] && t.rest[n - 1..] == pending[1..];
      assert [t.piece] + t.rest[..n - 1] == sliced;
    }
  }

  /** The source's `pieces < 2` exit after the gate is dead: it would need the gate to pass
      with fewer than two free cards or fewer than 32 specs. */
  method TakeNext(pending: PendingQueue, freeCount: nat, report: IssueReport) returns (piece: WorkUnit)
    requires pending.items != []
    modifies pending, report`splitUnits
    ensures var t := NextPiece(old(pending.items), freeCount);
      && piece == t.piece && pending.items == t.rest
      && report.splitUnits == old(report.splitUnits) + t.labels
      && IsTake(old(pending.items), freeCount, t)
  {
    NextPieceIsTake(pending.items, freeCount);
    hide IsTake;
    if |pending.items| >= freeCount || pending.items[0].Size() < MIN_PIECE_SPECS * 2 {
      piece := pending.items[0];
      pending.items := pending.items[1..];
      return;
    }
    var unit := pending.items[0];
    pending.items := pending.items[1..];
    var pieces := Min(freeCount, Max(1, unit.Size() / MIN_PIECE_SPECS));
    if pieces < 2 {
      assert false;
    }
    var sliced := Sliced(unit, pieces);
    report.splitUnits := report.splitUnits + [SplitLabel(unit.kind, unit.backend, |sliced|)];
    pending.items := sliced[1..] + pending.items;
    piece := sliced[0];
  }

  function Cost(u: WorkUnit): nat {
    Max(1, u.Size() / MIN_PIECE_SPECS)
  }

  /** An upper bound on how many pieces the tail split can ever make of these units. */
  function Budget(us: seq<WorkUnit>): nat {
    if us == [] then 0 else Cost(us[0]) + Budget(us[1..])
  }

  lemma {:induction false} BudgetAppend(a: seq<WorkUnit>, b: seq<WorkUnit>)
    ensures Budget(a + b) == Budget(a) + Budget(b)
  {
    if a == [] {
      assert a + b == b;
    } else {
      assert (a + b)[1..] == a[1..] + b;
      BudgetAppend(a[1..], b);
    }
  }

  lemma {:induction false} FullPiecesCostNoMoreThanTheirSize(us: seq<WorkUnit>)
    requires forall u :: u in us ==> u.Size() >= MIN_PIECE_SPECS
    ensures MIN_PIECE_SPECS * Budget(us) <= TotalSize(us)
  {
    if us != [] {
      FullPiecesCostNoMoreThanTheirSize(us[1..]);
    }
  }

  /** The pieces of a tail split each have at least 16 specs, and they never outnumber the
      free cards. */
  lemma TailSplitSizes(pending: seq<WorkUnit>, freeCount: nat)
    requires pending != [] && SplitsTail(pending, freeCount)
    ensures var sliced := Slices(pending[0], TailPieces(pending, freeCount));
      && 2 <= |sliced| <= freeCount
      && Items(sliced) == multiset(Tagged(pending[0]))
      && (forall p :: p in sliced ==> p.Size() >= MIN_PIECE_SPECS)
  {
    var unit, pieces := pending[0], TailPieces(pending, freeCount);
    var sliced := Slices(unit, pieces);
    DivIsGreatestInverse(unit.Size(), MIN_PIECE_SPECS, pieces);
    SlicesConserve(unit, pieces);
    forall p | p in sliced ensures p.Size() >= MIN_PIECE_SPECS {
      var j :| 0 <= j < |sliced| && sliced[j] == p;
      SliceSizes(unit, pieces, j);
      DivIsGreatest(unit.Size(), pieces, MIN_PIECE_SPECS);
    }
  }

  /** One call of `_take_next`: the measurements are conserved and the budget pays for the
      piece handed out. */
  lemma NextPieceFacts(pending: seq<WorkUnit>, freeCount: nat)
    requires pending != []
    ensures var t := NextPiece(pending, freeCount);
      && multiset(Tagged(t.piece)) + Items(t.rest) == Items(pending)
      && Cost(t.piece) + Budget(t.rest) <= Budget(pending)
  {
    var t, unit := NextPiece(pending, freeCount), pending[0];
    if SplitsTail(pending, freeCount) {
      var sliced := Slices(unit, TailPieces(pending, freeCount));
      TailSplitSizes(pending, freeCount);
      ItemsAppend(sliced[1..], pending[1..]);
      BudgetAppend(sliced[1..], pending[1..]);
      TotalSizeIsItemCount(sliced);
      FullPiecesCostNoMoreThanTheirSize(sliced);
      DivIsGreatest(unit.Size(), MIN_PIECE_SPECS, Budget(sliced));
    }
  }

  // ---- what the labels say -----------------------------------------------------------------------------------

  function SumOfPieces(labels: seq<SplitLabel>): nat {
    if labels == [] then 0 else SumOfPieces(labels[..|labels| - 1]) + labels[|labels| - 1].pieces
  }

  /** One label for each unit cut, with its kind and backend and the pieces it became: with the units
      left whole the pieces make up the queue. */
  lemma {:induction false} LabelsTell(us: seq<WorkUnit>, cards: nat, total: nat)
    requires cards > 0
    ensures |CutAll(us, cards, total)| + |CutLabels(us, cards, total)| == |us| + SumOfPieces(CutLabels(us, cards, total))
    ensures forall l :: l in CutLabels(us, cards, total) <==> exists u :: u in us && TellsOf(l, u, CutOne(u, cards, total))
  {
    if us != [] {
      var init, u := us[..|us| - 1], us[|us| - 1];
      assert us == init + [u];
      LabelsTell(init, cards, total);
      LabelTells(u, cards, total);
      var before, after := CutLabels(init, cards, total), CutLabels(us, cards, total);
      hide CutOne, IsCut, TellsOf;
      assert after != before ==> after[..|after| - 1] == before;
      forall l ensures l in after <==> exists v :: v in us && TellsOf(l, v, CutOne(v, cards, total)) {
        if v :| v in us && TellsOf(l, v, CutOne(v, cards, total)) {
          assert v in init || v == u;
        }
        if l in before {
          var v :| v in init && TellsOf(l, v, CutOne(v, cards, total));
          assert v in us;
        } else if l in after {
          assert u in us && TellsOf(l, u, CutOne(u, cards, total));
        }
      }
    }
  }

  predicate TellsOf(l: SplitLabel, u: WorkUnit, out: seq<WorkUnit>) {
    |out| > 1 && l.kind == u.kind && l.backend == u.backend && l.pieces == |out|
  }

  lemma LabelTells(u: WorkUnit, cards: nat, total: nat)
    requires cards > 0
    ensures IsCut(u, cards, total) <==> |CutOne(u, cards, total)| > 1
    ensures forall l :: TellsOf(l, u, CutOne(u, cards, total)) <==>
      IsCut(u, cards, total) && l == SplitLabel(u.kind, u.backend, |CutOne(u, cards, total)|)
    ensures |CutOne(u, cards, total)| >= 1
  {
    if IsCut(u, cards, total) {
      DivIsGreatestInverse(u.Size(), MIN_PIECE_SPECS, PiecesFor(u.Size(), cards, total));
    }
  }
}
