/** The checker of folded kernel sequences, against the sequences they unroll to
    (launcher/alignment_config.py:534-580, 614-828). Documents are taken as decoded: a record
    per JSON object, an Option for a key that may be absent. */
module LabeledSequences {
  import opened Common

  /** An operation's simulated slots, type and role. */
  datatype Signature = Signature(slots: seq<string>, kind: string, role: string)

  datatype Label = Label(
    status: string,
    crossRank: Option<string>,
    collective: Option<string>,
    operation: Option<string>,
    slots: Option<seq<string>>,
    kind: Option<string>,
    role: Option<string>)

  datatype Kernel = Kernel(name: string, category: string, tag: Label)

  datatype Node = Kernels(kernels: seq<Kernel>) | Repeat(count: int, body: seq<Kernel>)

  type Program = seq<Node>

  datatype Track = Track(index: int, streamRole: string, kernelCount: int, program: Program)

  datatype Occurrence = Occurrence(device: int, iterations: seq<int>)

  /** `iterations` and `program` before schema 4 and 5, `occurrences` and `tracks` from then on. */
  datatype Sequence = Sequence(
    id: string,
    iterations: seq<int>,
    occurrences: seq<Occurrence>,
    expandedCount: int,
    program: Program,
    tracks: seq<Track>)

  datatype Phase = Phase(name: string, sequences: seq<Sequence>)

  datatype Position = Position(device: Option<int>, iteration: int)

  // ---- what a document means ---------------------------------------------------------------------

  function Body(node: Node): seq<Kernel> {
    if node.Kernels? then node.kernels else node.body
  }

  function Times(ks: seq<Kernel>, n: nat): seq<Kernel> {
    if n == 0 then [] else Times(ks, n - 1) + ks
  }

  function UnrollNode(node: Node): seq<Kernel> {
    match node
    case Kernels(ks) => ks
    case Repeat(count, body) => Times(body, if count < 0 then 0 else count)
  }

  function Flatten(blocks: seq<seq<Kernel>>): seq<Kernel> {
    if blocks == [] then [] else Flatten(blocks[..|blocks| - 1]) + blocks[|blocks| - 1]
  }

  function NodeBlocks(program: Program): seq<seq<Kernel>> {
    seq(|program|, i requires 0 <= i < |program| => UnrollNode(program[i]))
  }

  /** The kernels a program launches, one after the other. */
  function Unroll(program: Program): seq<Kernel> {
    Flatten(NodeBlocks(program))
  }

  function TrackBlocks(tracks: seq<Track>): seq<seq<Kernel>> {
    seq(|tracks|, i requires 0 <= i < |tracks| => Unroll(tracks[i].program))
  }

  function UnrollTracks(tracks: seq<Track>): seq<Kernel> {
    Flatten(TrackBlocks(tracks))
  }

  function UnrollSequence(s: Sequence, version: int): seq<Kernel> {
    if version >= 5 then UnrollTracks(s.tracks) else Unroll(s.program)
  }

  function SequenceBlocks(sequences: seq<Sequence>, version: int): seq<seq<Kernel>> {
    seq(|sequences|, i requires 0 <= i < |sequences| => UnrollSequence(sequences[i], version))
  }

  function UnrollPhase(phase: Phase, version: int): seq<Kernel> {
    Flatten(SequenceBlocks(phase.sequences, version))
  }

  function PhaseBlocks(phases: seq<Phase>, version: int): seq<seq<Kernel>> {
    seq(|phases|, i requires 0 <= i < |phases| => UnrollPhase(phases[i], version))
  }

  /** Every kernel of every unrolled program. */
  function UnrollAll(phases: seq<Phase>, version: int): seq<Kernel> {
    Flatten(PhaseBlocks(phases, version))
  }

  // ---- well-formed labels ---------------------------------------------------------------------------

  predicate Blank(s: string) {
    forall i :: 0 <= i < |s| ==> IsSpace(s[i])
  }

  predicate HasMapping(l: Label) {
    l.operation.Some? && l.slots.Some? && l.kind.Some? && l.role.Some?
  }

  predicate NoMapping(l: Label) {
    l.operation.None? && l.slots.None? && l.kind.None? && l.role.None?
  }

  predicate GoodSlots(slots: seq<string>) {
    slots != [] && Distinct(slots) && forall i :: 0 <= i < |slots| ==> !Blank(slots[i])
  }

  predicate GoodUnmapped(l: Label) {
    l.status == "unmapped" && NoMapping(l) && l.crossRank.Some?
  }

  predicate GoodMapped(l: Label) {
    && l.status == "mapped" && HasMapping(l)
    && !Blank(l.operation.value) && !Blank(l.kind.value) && !Blank(l.role.value) && GoodSlots(l.slots.value)
  }

  predicate WellFormed(k: Kernel) {
    var l := k.tag;
    && !Blank(k.name) && !Blank(k.category)
    && (l.crossRank.Some? ==> l.crossRank.value == "synchronizing" || l.crossRank.value == "independent")
    && (l.collective.Some? ==>
         !Blank(l.collective.value) && l.status == "unmapped" && l.crossRank == Some("synchronizing"))
    && (GoodUnmapped(l) || GoodMapped(l))
  }

  predicate Mapped(k: Kernel) {
    HasMapping(k.tag)
  }

  function Sig(k: Kernel): Signature
    requires Mapped(k)
  {
    Signature(k.tag.slots.value, k.tag.kind.value, k.tag.role.value)
  }

  function Op(k: Kernel): string
    requires Mapped(k)
  {
    k.tag.operation.value
  }

  /** Well-formed kernels under one signature per operation, also with those already known. */
  ghost predicate Consistent(known: map<string, Signature>, ks: seq<Kernel>) {
    && (forall k :: k in ks ==> WellFormed(k))
    && (forall k :: k in ks && Mapped(k) && Op(k) in known ==> known[Op(k)] == Sig(k))
    && (forall k, m :: k in ks && m in ks && Mapped(k) && Mapped(m) && Op(k) == Op(m) ==> Sig(k) == Sig(m))
  }

  /** `after` is `before` and exactly the signatures of the kernels. */
  ghost predicate Records(before: map<string, Signature>, after: map<string, Signature>, ks: seq<Kernel>) {
    && (forall op :: op in before ==> op in after && after[op] == before[op])
    && (forall k :: k in ks && Mapped(k) ==> Op(k) in after && after[Op(k)] == Sig(k))
    && (forall op :: op in after ==> op in before || exists k :: k in ks && Mapped(k) && Op(k) == op)
  }

  function Owners(slots: map<string, set<string>>, slot: string): set<string> {
    if slot in slots then slots[slot] else {}
  }

  /** A slot is owned by exactly the operations that declare it. */
  ghost predicate RecordsSlots(before: map<string, set<string>>, after: map<string, set<string>>, ks: seq<Kernel>) {
    forall slot, op :: op in Owners(after, slot) <==>
      op in Owners(before, slot) || exists k :: k in ks && Mapped(k) && Op(k) == op && slot in Sig(k).slots
  }

  // ---- accumulating over concatenation -----------------------------------------------------------------

  lemma RecordsNothing(ops: map<string, Signature>, slots: map<string, set<string>>)
    ensures Records(ops, ops, []) && RecordsSlots(slots, slots, []) && Consistent(ops, [])
  {
  }

  lemma RecordsBoth(a: map<string, Signature>, b: map<string, Signature>, c: map<string, Signature>, ks: seq<Kernel>, ms: seq<Kernel>)
    requires Records(a, b, ks) && Records(b, c, ms)
    ensures Records(a, c, ks + ms)
  {
    forall op | op in c && op !in a ensures exists k :: k in ks + ms && Mapped(k) && Op(k) == op {
      if op in b {
        var k :| k in ks && Mapped(k) && Op(k) == op;
        assert k in ks + ms;
      } else {
        var k :| k in ms && Mapped(k) && Op(k) == op;
        assert k in ks + ms;
      }
    }
  }

  lemma SlotsBoth(a: map<string, set<string>>, b: map<string, set<string>>, c: map<string, set<string>>, ks: seq<Kernel>, ms: seq<Kernel>)
    requires RecordsSlots(a, b, ks) && RecordsSlots(b, c, ms)
    ensures RecordsSlots(a, c, ks + ms)
  {
    forall slot, op
      ensures op in Owners(c, slot) <==>
        op in Owners(a, slot) || exists k :: k in ks + ms && Mapped(k) && Op(k) == op && slot in Sig(k).slots
    {
      if k :| k in ks + ms && Mapped(k) && Op(k) == op && slot in Sig(k).slots {
        assert k in ks || k in ms;
      }
    }
  }

  /** Consistency of a whole is that of its parts, the second against what the first recorded. */
  lemma ConsistentBoth(a: map<string, Signature>, b: map<string, Signature>, ks: seq<Kernel>, ms: seq<Kernel>)
    requires Records(a, b, ks) && Consistent(a, ks)
    ensures Consistent(a, ks + ms) <==> Consistent(b, ms)
  {
    if Consistent(a, ks + ms) {
      forall k | k in ms ensures k in ks + ms {
      }
      forall k | k in ms && Mapped(k) && Op(k) in b ensures b[Op(k)] == Sig(k) {
        if Op(k) !in a {
          var m :| m in ks && Mapped(m) && Op(m) == Op(k);
          assert m in ks + ms;
        }
      }
    }
    if Consistent(b, ms) {
      forall k | k in ks + ms ensures k in ks || k in ms {
      }
    }
  }

  lemma InconsistentStays(known: map<string, Signature>, ks: seq<Kernel>, more: seq<Kernel>)
    requires !Consistent(known, ks) && forall k :: k in ks ==> k in more
    ensures !Consistent(known, more)
  {
  }

  // ---- folding ----------------------------------------------------------------------------------------------

  lemma {:induction false} TimesFacts(ks: seq<Kernel>, n: nat)
    ensures |Times(ks, n)| == |ks| * n
    ensures n > 0 ==> forall k :: k in Times(ks, n) <==> k in ks
  {
    if n > 0 {
      TimesFacts(ks, n - 1);
      assert |Times(ks, n)| == |ks| * (n - 1) + |ks|;
    }
  }

  /** The same kernels, however often. */
  ghost predicate SameKernels(ks: seq<Kernel>, ms: seq<Kernel>) {
    forall k :: k in ks <==> k in ms
  }

  lemma SameKernelsSame(a: map<string, Signature>, b: map<string, Signature>,
      s: map<string, set<string>>, t: map<string, set<string>>, ks: seq<Kernel>, ms: seq<Kernel>)
    requires SameKernels(ks, ms)
    ensures Consistent(a, ks) <==> Consistent(a, ms)
    ensures Records(a, b, ks) <==> Records(a, b, ms)
    ensures RecordsSlots(s, t, ks) <==> RecordsSlots(s, t, ms)
  {
    if RecordsSlots(s, t, ks) {
      SlotsOfSame(s, t, ks, ms);
    }
    if RecordsSlots(s, t, ms) {
      SlotsOfSame(s, t, ms, ks);
    }
  }

  lemma SlotsOfSame(s: map<string, set<string>>, t: map<string, set<string>>, ks: seq<Kernel>, ms: seq<Kernel>)
    requires SameKernels(ks, ms) && RecordsSlots(s, t, ks)
    ensures RecordsSlots(s, t, ms)
  {
    forall slot, op
      ensures op in Owners(t, slot) <==>
        op in Owners(s, slot) || exists k :: k in ms && Mapped(k) && Op(k) == op && slot in Sig(k).slots
    {
      if k :| k in ms && Mapped(k) && Op(k) == op && slot in Sig(k).slots {
        assert k in ks;
      }
    }
  }

  /** The dictionaries took in exactly the kernels. */
  ghost predicate Took(ops: map<string, Signature>, ops': map<string, Signature>,
    slots: map<string, set<string>>, slots': map<string, set<string>>, ks: seq<Kernel>)
  {
    Records(ops, ops', ks) && RecordsSlots(slots, slots', ks)
  }

  lemma TookBoth(a: map<string, Signature>, b: map<string, Signature>, c: map<string, Signature>,
      s: map<string, set<string>>, t: map<string, set<string>>, u: map<string, set<string>>, ks: seq<Kernel>, ms: seq<Kernel>)
    requires Took(a, b, s, t, ks) && Took(b, c, t, u, ms)
    ensures Took(a, c, s, u, ks + ms)
  {
    hide Records, RecordsSlots;
    RecordsBoth(a, b, c, ks, ms);
    SlotsBoth(s, t, u, ks, ms);
  }

  /** Whether the next kernels fit is decided against what was taken in so far. */
  lemma NextVerdict(a: map<string, Signature>, b: map<string, Signature>,
      s: map<string, set<string>>, t: map<string, set<string>>, ks: seq<Kernel>, ms: seq<Kernel>)
    requires Took(a, b, s, t, ks) && Consistent(a, ks)
    ensures Consistent(a, ks + ms) <==> Consistent(b, ms)
  {
    hide Records, RecordsSlots, Consistent;
    ConsistentBoth(a, b, ks, ms);
  }

  // ---- good parts ---------------------------------------------------------------------------------------------

  predicate GoodNode(node: Node) {
    Body(node) != [] && (node.Repeat? ==> node.count >= 2)
  }

  predicate GoodProgram(program: Program) {
    program != [] && forall i :: 0 <= i < |program| ==> GoodNode(program[i])
  }

  predicate GoodTrack(track: Track, at: nat) {
    && track.index == at && (track.streamRole == "primary" || track.streamRole == "concurrent")
    && GoodProgram(track.program) && track.kernelCount == |Unroll(track.program)|
  }

  /** Dense indices, and each track's stated count is its unrolled length. */
  predicate GoodTracks(tracks: seq<Track>) {
    tracks != [] && forall i :: 0 <= i < |tracks| ==> GoodTrack(tracks[i], i)
  }

  lemma NodeFacts(node: Node)
    requires GoodNode(node)
    ensures SameKernels(Body(node), UnrollNode(node))
    ensures |UnrollNode(node)| == |Body(node)| * (if node.Repeat? then node.count else 1)
  {
    if node.Repeat? {
      TimesFacts(node.body, node.count);
    }
  }

  // ---- reading blocks one after the other -----------------------------------------------------------------

  lemma {:induction false} FlattenPrefix(blocks: seq<seq<Kernel>>, i: nat)
    requires i <= |blocks|
    ensures forall k :: k in Flatten(blocks[..i]) ==> k in Flatten(blocks)
    ensures i < |blocks| ==> Flatten(blocks[..i + 1]) == Flatten(blocks[..i]) + blocks[i]
    decreases |blocks| - i
  {
    if i == |blocks| {
      assert blocks[..i] == blocks;
    } else {
      FlattenPrefix(blocks, i + 1);
      assert blocks[..i + 1][..i] == blocks[..i];
    }
  }

  /** The first `i` blocks were consistent with what was known, and are taken in and counted. */
  ghost predicate Read(blocks: seq<seq<Kernel>>, i: int, a: map<string, Signature>, b: map<string, Signature>,
    s: map<string, set<string>>, t: map<string, set<string>>, count: int)
  {
    && 0 <= i <= |blocks| && count == |Flatten(blocks[..i])|
    && Consistent(a, Flatten(blocks[..i])) && Took(a, b, s, t, Flatten(blocks[..i]))
  }

  lemma NothingRead(blocks: seq<seq<Kernel>>, ops: map<string, Signature>, slots: map<string, set<string>>)
    ensures Read(blocks, 0, ops, ops, slots, slots, 0)
  {
    TookNothing(ops, slots);
    assert blocks[..0] == [];
  }

  /** A block that does not fit what was taken in makes the whole inconsistent. */
  lemma BlockFails(blocks: seq<seq<Kernel>>, i: nat, a: map<string, Signature>, b: map<string, Signature>,
      s: map<string, set<string>>, t: map<string, set<string>>, count: int)
    requires i < |blocks| && Read(blocks, i, a, b, s, t, count) && !Consistent(b, blocks[i])
    ensures !Consistent(a, Flatten(blocks))
  {
    hide Consistent, Took, Flatten;
    FlattenPrefix(blocks, i);
    FlattenPrefix(blocks, i + 1);
    NextVerdict(a, b, s, t, Flatten(blocks[..i]), blocks[i]);
    InconsistentStays(a, Flatten(blocks[..i + 1]), Flatten(blocks));
  }

  lemma BlockRead(blocks: seq<seq<Kernel>>, i: nat, a: map<string, Signature>, b: map<string, Signature>, c: map<string, Signature>,
      s: map<string, set<string>>, t: map<string, set<string>>, u: map<string, set<string>>, count: int)
    requires i < |blocks| && Read(blocks, i, a, b, s, t, count)
    requires Consistent(b, blocks[i]) && Took(b, c, t, u, blocks[i])
    ensures Read(blocks, i + 1, a, c, s, u, count + |blocks[i]|)
  {
    hide Consistent, Took, Flatten;
    FlattenPrefix(blocks, i);
    NextVerdict(a, b, s, t, Flatten(blocks[..i]), blocks[i]);
    TookBoth(a, b, c, s, t, u, Flatten(blocks[..i]), blocks[i]);
  }

  lemma AllRead(blocks: seq<seq<Kernel>>, a: map<string, Signature>, b: map<string, Signature>,
      s: map<string, set<string>>, t: map<string, set<string>>, count: int)
    requires Read(blocks, |blocks|, a, b, s, t, count)
    ensures Consistent(a, Flatten(blocks)) && Took(a, b, s, t, Flatten(blocks)) && count == |Flatten(blocks)|
  {
    hide Consistent, Took, Flatten;
    assert blocks[..|blocks|] == blocks;
  }

  lemma TookNothing(ops: map<string, Signature>, slots: map<string, set<string>>)
    ensures Took(ops, ops, slots, slots, []) && Consistent(ops, [])
  {
  }

  // ---- positions ------------------------------------------------------------------------------------------------

  predicate GoodIterations(iterations: seq<int>) {
    iterations != [] && forall i :: 0 <= i < |iterations| ==> iterations[i] >= 0
  }

  predicate GoodOccurrences(occurrences: seq<Occurrence>) {
    && occurrences != []
    && (forall i :: 0 <= i < |occurrences| ==> occurrences[i].device >= 0 && GoodIterations(occurrences[i].iterations))
    && (forall i, j :: 0 <= i < j < |occurrences| ==> occurrences[i].device != occurrences[j].device)
  }

  predicate GoodPositions(s: Sequence, version: int) {
    if version < 4 then GoodIterations(s.iterations) else GoodOccurrences(s.occurrences)
  }

  /** The (device, iteration) positions a sequence claims; before schema 4 there is no device. */
  ghost predicate ClaimsPosition(s: Sequence, version: int, p: Position) {
    if version < 4 then p.device == None && p.iteration in s.iterations
    else InOccurrences(s.occurrences, p)
  }

  ghost predicate InOccurrences(occurrences: seq<Occurrence>, p: Position) {
    exists o :: o in occurrences && p.device == Some(o.device) && p.iteration in o.iterations
  }

  lemma InOneMore(occurrences: seq<Occurrence>, o: Occurrence)
    ensures forall p :: InOccurrences(occurrences + [o], p) <==>
      InOccurrences(occurrences, p) || (p.device == Some(o.device) && p.iteration in o.iterations)
  {
    forall p
      ensures InOccurrences(occurrences + [o], p) <==>
        InOccurrences(occurrences, p) || (p.device == Some(o.device) && p.iteration in o.iterations)
    {
      if InOccurrences(occurrences, p) {
        var q :| q in occurrences && p.device == Some(q.device) && p.iteration in q.iterations;
        assert q in occurrences + [o];
      }
      if p.device == Some(o.device) && p.iteration in o.iterations {
        assert o in occurrences + [o];
      }
    }
  }

  method SequencePositions(s: Sequence, version: int) returns (claimed: Option<set<Position>>)
    ensures claimed.Some? <==> GoodPositions(s, version)
    ensures claimed.Some? ==> forall p :: p in claimed.value <==> ClaimsPosition(s, version, p)
  {
    hide InOccurrences, GoodIterations;
    if version < 4 {
      if !GoodIterations(s.iterations) {
        return None;
      }
      return Some(set i | i in s.iterations :: Position(None, i));
    }
    NotInNone();
    var positions: set<Position> := {};
    var devices: set<int> := {};
    for k := 0 to |s.occurrences|
      invariant forall i :: 0 <= i < k ==> s.occurrences[i].device >= 0 && GoodIterations(s.occurrences[i].iterations)
      invariant forall i, j :: 0 <= i < j < k ==> s.occurrences[i].device != s.occurrences[j].device
      invariant forall d :: d in devices <==> exists i :: 0 <= i < k && s.occurrences[i].device == d
      invariant forall p :: p in positions <==> InOccurrences(s.occurrences[..k], p)
    {
      var o := s.occurrences[k];
      if o.device < 0 || o.device in devices || !GoodIterations(o.iterations) {
        return None;
      }
      assert s.occurrences[..k + 1] == s.occurrences[..k] + [o];
      InOneMore(s.occurrences[..k], o);
      devices := devices + {o.device};
      positions := positions + set i | i in o.iterations :: Position(Some(o.device), i);
    }
    assert s.occurrences[..|s.occurrences|] == s.occurrences;
    if s.occurrences == [] {
      return None;
    }
    return Some(positions);
  }

  lemma NotInNone()
    ensures forall p :: !InOccurrences([], p)
  {
  }

  // ---- sequences and phases ---------------------------------------------------------------------------------------

  predicate GoodSequence(s: Sequence, version: int) {
    && !Blank(s.id) && GoodPositions(s, version)
    && (if version >= 5 then GoodTracks(s.tracks) else GoodProgram(s.program))
    && s.expandedCount == |UnrollSequence(s, version)|
  }

  ghost predicate Apart(s: Sequence, t: Sequence, version: int) {
    forall p :: ClaimsPosition(s, version, p) ==> !ClaimsPosition(t, version, p)
  }

  /** Good sequences under distinct ids, no position claimed by two of them. */
  ghost predicate GoodSequences(sequences: seq<Sequence>, version: int) {
    && (forall i :: 0 <= i < |sequences| ==> GoodSequence(sequences[i], version))
    && (forall i, j :: 0 <= i < j < |sequences| ==> sequences[i].id != sequences[j].id)
    && (forall i, j :: 0 <= i < j < |sequences| ==> Apart(sequences[i], sequences[j], version))
  }

  ghost predicate GoodPhase(phase: Phase, version: int) {
    !Blank(phase.name) && phase.sequences != [] && GoodSequences(phase.sequences, version)
  }

  ghost predicate GoodPhases(phases: seq<Phase>, version: int) {
    phases != [] && forall i :: 0 <= i < |phases| ==> GoodPhase(phases[i], version)
  }

  /** `operations` and `slots`, as the validators fill them. */
  class Labels {
    var operations: map<string, Signature>
    var slots: map<string, set<string>>

    constructor ()
      ensures operations == map[] && slots == map[]
    {
      operations, slots := map[], map[];
    }

    method CheckKernel(k: Kernel) returns (ok: bool)
      modifies this
      ensures ok <==> Consistent(old(operations), [k])
      ensures ok ==> Took(old(operations), operations, old(slots), slots, [k])
    {
      OneKernel(operations, k);
      hide WellFormed, Consistent;
      var good := CheckShape(k);
      if !good {
        return false;
      }
      if k.tag.status == "unmapped" {
        UnmappedAddsNothing(operations, slots, k);
        return true;
      }
      MappedHasMapping(k);
      var signature := Signature(k.tag.slots.value, k.tag.kind.value, k.tag.role.value);
      if k.tag.operation.value !in operations {
        operations := operations[k.tag.operation.value := signature];
      }
      if operations[k.tag.operation.value] != signature {
        return false;
      }
      AddOwner(k.tag.operation.value, k.tag.slots.value);
      MappedAddsItself(old(operations), operations, old(slots), slots, k);
      return true;
    }

    method AddOwner(operation: string, declared: seq<string>)
      modifies this`slots
      ensures forall slot, op :: op in Owners(slots, slot) <==>
        op in Owners(old(slots), slot) || (op == operation && slot in declared)
    {
      for i := 0 to |declared|
        invariant forall slot, op :: op in Owners(slots, slot) <==>
          op in Owners(old(slots), slot) || (op == operation && slot in declared[..i])
      {
        var slot := declared[i];
        ghost var before := slots;
        assert declared[..i + 1] == declared[..i] + [slot];
        slots := slots[slot := Owners(slots, slot) + {operation}];
        assert forall other, op :: op in Owners(slots, other) <==>
          op in Owners(before, other) || (op == operation && other == slot);
      }
      assert declared[..|declared|] == declared;
    }

    method CheckKernels(kernels: seq<Kernel>) returns (ok: bool)
      modifies this
      ensures ok <==> Consistent(old(operations), kernels)
      ensures ok ==> Took(old(operations), operations, old(slots), slots, kernels)
    {
      RecordsNothing(operations, slots);
      assert kernels[..0] == [];
      hide Records, RecordsSlots, Consistent;
      for i := 0 to |kernels|
        invariant Consistent(old(operations), kernels[..i])
        invariant Took(old(operations), operations, old(slots), slots, kernels[..i])
      {
        ghost var ops, owners := operations, slots;
        assert kernels[..i + 1] == kernels[..i] + [kernels[i]];
        NextVerdict(old(operations), ops, old(slots), owners, kernels[..i], [kernels[i]]);
        var fits := CheckKernel(kernels[i]);
        if !fits {
          InconsistentStays(old(operations), kernels[..i + 1], kernels);
          return false;
        }
        TookBoth(old(operations), ops, operations, old(slots), owners, slots, kernels[..i], [kernels[i]]);
      }
      assert kernels[..|kernels|] == kernels;
      return true;
    }

    method CheckNode(node: Node) returns (expanded: Option<nat>)
      modifies this
      ensures expanded.Some? <==> GoodNode(node) && Consistent(old(operations), UnrollNode(node))
      ensures expanded.Some? ==> expanded.value == |UnrollNode(node)|
      ensures expanded.Some? ==> Took(old(operations), operations, old(slots), slots, UnrollNode(node))
    {
      hide Consistent, Took, UnrollNode;
      if node.Repeat? && node.count < 2 {
        return None;
      }
      var count := if node.Repeat? then node.count else 1;
      var kernels := Body(node);
      if kernels == [] {
        return None;
      }
      NodeFacts(node);
      ConsistentSame(operations, kernels, UnrollNode(node));
      var fits := CheckKernels(kernels);
      if !fits {
        return None;
      }
      TookSame(old(operations), operations, old(slots), slots, kernels, UnrollNode(node));
      return Some(|kernels| * count);
    }

    method CheckProgram(program: Program) returns (expanded: Option<nat>)
      modifies this
      ensures expanded.Some? <==> GoodProgram(program) && Consistent(old(operations), Unroll(program))
      ensures expanded.Some? ==> expanded.value == |Unroll(program)|
      ensures expanded.Some? ==> Took(old(operations), operations, old(slots), slots, Unroll(program))
    {
      if program == [] {
        return None;
      }
      var count := 0;
      ghost var blocks := NodeBlocks(program);
      NothingRead(blocks, operations, slots);
      hide Read, Consistent, Took, Flatten, UnrollNode, GoodNode;
      for i := 0 to |program|
        invariant Read(blocks, i, old(operations), operations, old(slots), slots, count)
        invariant forall j :: 0 <= j < i ==> GoodNode(program[j])
      {
        ghost var ops, owners := operations, slots;
        var length := CheckNode(program[i]);
        if length.None? {
          if GoodNode(program[i]) {
            BlockFails(blocks, i, old(operations), ops, old(slots), owners, count);
          }
          return None;
        }
        BlockRead(blocks, i, old(operations), ops, operations, old(slots), owners, slots, count);
        count := count + length.value;
      }
      AllRead(blocks, old(operations), operations, old(slots), slots, count);
      return Some(count);
    }

    method CheckTracks(tracks: seq<Track>) returns (expanded: Option<nat>)
      modifies this
      ensures expanded.Some? <==> GoodTracks(tracks) && Consistent(old(operations), UnrollTracks(tracks))
      ensures expanded.Some? ==> expanded.value == |UnrollTracks(tracks)|
      ensures expanded.Some? ==> Took(old(operations), operations, old(slots), slots, UnrollTracks(tracks))
    {
      if tracks == [] {
        return None;
      }
      var count := 0;
      ghost var blocks := TrackBlocks(tracks);
      NothingRead(blocks, operations, slots);
      hide Read, Consistent, Took, Flatten, Unroll, GoodTrack;
      for i := 0 to |tracks|
        invariant Read(blocks, i, old(operations), operations, old(slots), slots, count)
        invariant forall j :: 0 <= j < i ==> GoodTrack(tracks[j], j)
      {
        ghost var ops, owners := operations, slots;
        var length := CheckTrack(tracks[i], i);
        if length.None? {
          if GoodTrack(tracks[i], i) {
            BlockFails(blocks, i, old(operations), ops, old(slots), owners, count);
          }
          return None;
        }
        BlockRead(blocks, i, old(operations), ops, operations, old(slots), owners, slots, count);
        count := count + length.value;
      }
      AllRead(blocks, old(operations), operations, old(slots), slots, count);
      return Some(count);
    }

    /** One turn of the loop over tracks. */
    method CheckTrack(track: Track, at: nat) returns (expanded: Option<nat>)
      modifies this
      ensures expanded.Some? <==> GoodTrack(track, at) && Consistent(old(operations), Unroll(track.program))
      ensures expanded.Some? ==> expanded.value == |Unroll(track.program)|
      ensures expanded.Some? ==> Took(old(operations), operations, old(slots), slots, Unroll(track.program))
    {
      hide Consistent, Took, Unroll, GoodProgram;
      if track.index != at {
        return None;
      }
      if track.streamRole != "primary" && track.streamRole != "concurrent" {
        return None;
      }
      expanded := CheckProgram(track.program);
      if expanded.Some? && track.kernelCount != expanded.value {
        return None;
      }
    }

    /** One turn of the loop over a phase's sequences, from the positions on. */
    method CheckUnrolled(s: Sequence, version: int) returns (ok: bool)
      modifies this
      ensures ok <==>
        && (if version >= 5 then GoodTracks(s.tracks) else GoodProgram(s.program))
        && s.expandedCount == |UnrollSequence(s, version)|
        && Consistent(old(operations), UnrollSequence(s, version))
      ensures ok ==> Took(old(operations), operations, old(slots), slots, UnrollSequence(s, version))
    {
      hide Consistent, Took, UnrollTracks, Unroll, GoodTracks, GoodProgram;
      var expanded: Option<nat>;
      if version >= 5 {
        expanded := CheckTracks(s.tracks);
      } else {
        expanded := CheckProgram(s.program);
      }
      return expanded.Some? && s.expandedCount == expanded.value;
    }

    method CheckSequences(sequences: seq<Sequence>, version: int) returns (ok: bool)
      modifies this
      ensures ok <==>
        GoodSequences(sequences, version) && Consistent(old(operations), Flatten(SequenceBlocks(sequences, version)))
      ensures ok ==> Took(old(operations), operations, old(slots), slots, Flatten(SequenceBlocks(sequences, version)))
    {
      var ids: set<string>, taken: set<Position> := {}, {};
      ghost var count, blocks := 0, SequenceBlocks(sequences, version);
      NothingRead(blocks, operations, slots);
      assert SequencesSoFar(sequences, 0, version, ids, taken);
      hide Read, Consistent, Took, Flatten, UnrollSequence, SequencesSoFar, GoodSequences, GoodPositions, ClaimsPosition, Blank;
      for i := 0 to |sequences|
        invariant Read(blocks, i, old(operations), operations, old(slots), slots, count)
        invariant SequencesSoFar(sequences, i, version, ids, taken)
      {
        ghost var ops, owners := operations, slots;
        var s := sequences[i];
        if Blank(s.id) || s.id in ids {
          BadId(sequences, i, version, ids, taken);
          return false;
        }
        var positions := SequencePositions(s, version);
        if positions.None? || taken * positions.value != {} {
          BadPositions(sequences, i, version, ids, taken, positions);
          return false;
        }
        var fits := CheckUnrolled(s, version);
        if !fits {
          if GoodSequence(s, version) {
            BlockFails(blocks, i, old(operations), ops, old(slots), owners, count);
          } else {
            BadSequence(sequences, i, version);
          }
          return false;
        }
        SequenceAccepted(sequences, i, version, ids, taken, positions.value);
        BlockRead(blocks, i, old(operations), ops, operations, old(slots), owners, slots, count);
        ids, taken := ids + {s.id}, taken + positions.value;
        count := count + |blocks[i]|;
      }
      AllRead(blocks, old(operations), operations, old(slots), slots, count);
      AllSequencesGood(sequences, version, ids, taken);
      return true;
    }

    /** One turn of the loop over phases. */
    method CheckPhase(phase: Phase, version: int) returns (ok: bool)
      modifies this
      ensures ok <==> GoodPhase(phase, version) && Consistent(old(operations), UnrollPhase(phase, version))
      ensures ok ==> Took(old(operations), operations, old(slots), slots, UnrollPhase(phase, version))
    {
      hide Consistent, Took, Flatten, GoodSequences, SequenceBlocks, Blank;
      if Blank(phase.name) || phase.sequences == [] {
        return false;
      }
      ok := CheckSequences(phase.sequences, version);
    }

    method CheckPhases(phases: seq<Phase>, version: int) returns (ok: bool)
      modifies this
      ensures ok <==> GoodPhases(phases, version) && Consistent(old(operations), UnrollAll(phases, version))
      ensures ok ==> Took(old(operations), operations, old(slots), slots, UnrollAll(phases, version))
    {
      hide Read, Consistent, Took, Flatten, GoodPhase, UnrollPhase, PhaseBlocks, UnrollAll;
      PhaseBlocksFacts(phases, version);
      if phases == [] {
        return false;
      }
      ghost var count, blocks := 0, PhaseBlocks(phases, version);
      NothingRead(blocks, operations, slots);
      for i := 0 to |phases|
        invariant Read(blocks, i, old(operations), operations, old(slots), slots, count)
        invariant forall j :: 0 <= j < i ==> GoodPhase(phases[j], version)
      {
        ghost var ops, owners := operations, slots;
        var fits := CheckPhase(phases[i], version);
        if !fits {
          if GoodPhase(phases[i], version) {
            BlockFails(blocks, i, old(operations), ops, old(slots), owners, count);
          }
          return false;
        }
        BlockRead(blocks, i, old(operations), ops, operations, old(slots), owners, slots, count);
        count := count + |blocks[i]|;
      }
      AllRead(blocks, old(operations), operations, old(slots), slots, count);
      return true;
    }
  }

  lemma PhaseBlocksFacts(phases: seq<Phase>, version: int)
    ensures var blocks := PhaseBlocks(phases, version);
      && |blocks| == |phases| && UnrollAll(phases, version) == Flatten(blocks)
      && forall i :: 0 <= i < |phases| ==> blocks[i] == UnrollPhase(phases[i], version)
  {
  }

  // ---- the whole document ------------------------------------------------------------------------------------------

  /** `device_ids` from schema 3 on, `representative_device_id` in schema 3 only. */
  datatype Inventory = Inventory(
    version: int,
    encoding: string,
    deviceIds: Option<seq<int>>,
    representative: Option<int>,
    phases: seq<Phase>)

  predicate GoodDevices(ids: seq<int>) {
    ids != [] && (forall i :: 0 <= i < |ids| ==> ids[i] >= 0) && forall i, j :: 0 <= i < j < |ids| ==> ids[i] < ids[j]
  }

  predicate GoodHeader(v: Inventory) {
    && 2 <= v.version <= 5
    && (v.encoding == "folded-v1" || v.encoding == "folded-v2" || v.encoding == "literal-v1")
    && (if v.version >= 3 then v.deviceIds.Some? && GoodDevices(v.deviceIds.value) else v.deviceIds.None?)
    && (if v.version == 3 then v.representative == Some(v.deviceIds.value[0]) else v.representative.None?)
  }

  /** A document is accepted exactly when its header and all its parts are good and, across all
      phases, one operation name carries one signature; what is then recorded is exactly the
      signatures, and the slot owners, of the kernels its programs unroll to. */
  method LoadLabeledKernelSequences(v: Inventory) returns (accepted: bool, labels: Labels)
    ensures accepted <==>
      GoodHeader(v) && GoodPhases(v.phases, v.version) && Consistent(map[], UnrollAll(v.phases, v.version))
    ensures accepted ==> Took(map[], labels.operations, map[], labels.slots, UnrollAll(v.phases, v.version))
    ensures fresh(labels)
  {
    hide Consistent, Took, UnrollAll, GoodPhases;
    labels := new Labels();
    if !GoodHeader(v) {
      return false, labels;
    }
    accepted := labels.CheckPhases(v.phases, v.version);
  }

  /** What acceptance means to a reader of the inventory: every stated count, a sequence's and a
      track's, is the length of what it unrolls to, a sequence's tracks are dense and their counts
      add up to its own, and no measured position of a phase belongs to two of its sequences. */
  lemma AcceptedMeans(v: Inventory, p: nat, i: nat, j: nat)
    requires GoodPhases(v.phases, v.version) && p < |v.phases| && i < |v.phases[p].sequences| && j < |v.phases[p].sequences|
    ensures v.phases[p].sequences[i].expandedCount == |UnrollSequence(v.phases[p].sequences[i], v.version)|
    ensures i != j ==> forall at ::
      !(ClaimsPosition(v.phases[p].sequences[i], v.version, at) && ClaimsPosition(v.phases[p].sequences[j], v.version, at))
    ensures v.version >= 5 ==>
      var tracks := v.phases[p].sequences[i].tracks;
      && (forall k :: 0 <= k < |tracks| ==> tracks[k].index == k && tracks[k].kernelCount == |Unroll(tracks[k].program)|)
      && SumCounts(tracks) == v.phases[p].sequences[i].expandedCount
  {
    hide ClaimsPosition, UnrollSequence, Unroll;
    var ss := v.phases[p].sequences;
    assert GoodPhase(v.phases[p], v.version) && GoodSequence(ss[i], v.version);
    if i < j {
      assert Apart(ss[i], ss[j], v.version);
    } else if j < i {
      assert Apart(ss[j], ss[i], v.version);
    }
    if v.version >= 5 {
      CountsAddUp(ss[i].tracks, |ss[i].tracks|);
      SequenceIsItsTracks(ss[i], v.version);
    }
  }

  function SumCounts(tracks: seq<Track>): int {
    if tracks == [] then 0 else SumCounts(tracks[..|tracks| - 1]) + tracks[|tracks| - 1].kernelCount
  }

  lemma SequenceIsItsTracks(s: Sequence, version: int)
    requires version >= 5
    ensures UnrollSequence(s, version) == Flatten(TrackBlocks(s.tracks)[..|s.tracks|])
    ensures s.tracks[..|s.tracks|] == s.tracks
  {
    assert TrackBlocks(s.tracks)[..|s.tracks|] == TrackBlocks(s.tracks);
  }

  lemma {:induction false} CountsAddUp(tracks: seq<Track>, n: nat)
    requires n <= |tracks| && forall k :: 0 <= k < |tracks| ==> tracks[k].kernelCount == |Unroll(tracks[k].program)|
    ensures SumCounts(tracks[..n]) == |Flatten(TrackBlocks(tracks)[..n])|
  {
    hide Unroll;
    if n > 0 {
      var blocks := TrackBlocks(tracks);
      CountsAddUp(tracks, n - 1);
      FlattenPrefix(blocks, n - 1);
      assert tracks[..n][..n - 1] == tracks[..n - 1];
    }
  }

  /** The first `i` sequences are good; their ids and their positions are the ones collected. */
  ghost predicate SequencesSoFar(sequences: seq<Sequence>, i: int, version: int, ids: set<string>, taken: set<Position>) {
    && 0 <= i <= |sequences| && GoodSequences(sequences[..i], version)
    && (forall id :: id in ids <==> exists j :: 0 <= j < i && sequences[j].id == id)
    && (forall p :: p in taken <==> exists j :: 0 <= j < i && ClaimsPosition(sequences[j], version, p))
  }

  lemma BadId(sequences: seq<Sequence>, i: nat, version: int, ids: set<string>, taken: set<Position>)
    requires i < |sequences| && SequencesSoFar(sequences, i, version, ids, taken)
    requires Blank(sequences[i].id) || sequences[i].id in ids
    ensures !GoodSequences(sequences, version)
  {
    if sequences[i].id in ids {
      var j :| 0 <= j < i && sequences[j].id == sequences[i].id;
    } else {
      assert !GoodSequence(sequences[i], version);
    }
  }

  lemma BadPositions(sequences: seq<Sequence>, i: nat, version: int, ids: set<string>, taken: set<Position>,
      positions: Option<set<Position>>)
    requires i < |sequences| && SequencesSoFar(sequences, i, version, ids, taken)
    requires positions.Some? <==> GoodPositions(sequences[i], version)
    requires positions.Some? ==> forall p :: p in positions.value <==> ClaimsPosition(sequences[i], version, p)
    requires positions.None? || taken * positions.value != {}
    ensures !GoodSequences(sequences, version)
  {
    hide GoodPositions, ClaimsPosition;
    if positions.Some? {
      var p :| p in taken * positions.value;
      var j :| 0 <= j < i && ClaimsPosition(sequences[j], version, p);
      assert !Apart(sequences[j], sequences[i], version);
    } else {
      assert !GoodSequence(sequences[i], version);
    }
  }

  lemma BadSequence(sequences: seq<Sequence>, i: nat, version: int)
    requires i < |sequences| && !GoodSequence(sequences[i], version)
    ensures !GoodSequences(sequences, version)
  {
  }

  lemma SequenceAccepted(sequences: seq<Sequence>, i: nat, version: int, ids: set<string>, taken: set<Position>,
      positions: set<Position>)
    requires i < |sequences| && SequencesSoFar(sequences, i, version, ids, taken)
    requires GoodSequence(sequences[i], version) && sequences[i].id !in ids && taken * positions == {}
    requires forall p :: p in positions <==> ClaimsPosition(sequences[i], version, p)
    ensures SequencesSoFar(sequences, i + 1, version, ids + {sequences[i].id}, taken + positions)
  {
    hide GoodSequence, ClaimsPosition;
    forall j | 0 <= j < i ensures Apart(sequences[j], sequences[i], version) {
      forall p | ClaimsPosition(sequences[j], version, p) ensures !ClaimsPosition(sequences[i], version, p) {
        assert p in taken;
        assert p !in taken * positions;
      }
    }
    assert forall j :: 0 <= j < i ==> sequences[..i][j] == sequences[..i + 1][j];
    assert GoodSequences(sequences[..i + 1], version);
  }

  lemma AllSequencesGood(sequences: seq<Sequence>, version: int, ids: set<string>, taken: set<Position>)
    requires SequencesSoFar(sequences, |sequences|, version, ids, taken)
    ensures GoodSequences(sequences, version)
  {
    assert sequences[..|sequences|] == sequences;
  }

  method CheckShape(k: Kernel) returns (ok: bool)
    ensures ok <==> WellFormed(k)
  {
    var l := k.tag;
    if Blank(k.name) || Blank(k.category) {
      return false;
    }
    if l.crossRank.Some? && l.crossRank.value != "synchronizing" && l.crossRank.value != "independent" {
      return false;
    }
    if l.collective.Some? {
      if Blank(l.collective.value) || l.status != "unmapped" || l.crossRank != Some("synchronizing") {
        return false;
      }
    }
    if l.status == "unmapped" {
      return NoMapping(l) && l.crossRank.Some?;
    }
    if l.status != "mapped" || !HasMapping(l) {
      return false;
    }
    return !(Blank(l.operation.value) || Blank(l.kind.value) || Blank(l.role.value)) && GoodSlots(l.slots.value);
  }

  lemma OneKernel(ops: map<string, Signature>, k: Kernel)
    ensures Consistent(ops, [k]) <==> WellFormed(k) && (Mapped(k) && Op(k) in ops ==> ops[Op(k)] == Sig(k))
  {
    hide WellFormed;
    assert k in [k];
  }

  lemma MappedHasMapping(k: Kernel)
    requires WellFormed(k) && k.tag.status != "unmapped"
    ensures Mapped(k)
  {
  }

  lemma UnmappedAddsNothing(ops: map<string, Signature>, slots: map<string, set<string>>, k: Kernel)
    requires WellFormed(k) && k.tag.status == "unmapped"
    ensures !Mapped(k) && Took(ops, ops, slots, slots, [k])
  {
  }

  lemma MappedAddsItself(ops: map<string, Signature>, ops': map<string, Signature>,
      slots: map<string, set<string>>, slots': map<string, set<string>>, k: Kernel)
    requires Mapped(k) && (Op(k) in ops ==> ops[Op(k)] == Sig(k)) && ops' == ops[Op(k) := Sig(k)]
    requires forall slot, op :: op in Owners(slots', slot) <==>
      op in Owners(slots, slot) || (op == Op(k) && slot in Sig(k).slots)
    ensures Took(ops, ops', slots, slots', [k])
  {
    assert k in [k];
    assert Records(ops, ops', [k]);
    assert RecordsSlots(slots, slots', [k]);
  }

  lemma ConsistentSame(ops: map<string, Signature>, ks: seq<Kernel>, ms: seq<Kernel>)
    requires SameKernels(ks, ms)
    ensures Consistent(ops, ks) <==> Consistent(ops, ms)
  {
    SameKernelsSame(ops, ops, map[], map[], ks, ms);
  }

  lemma TookSame(a: map<string, Signature>, b: map<string, Signature>,
      s: map<string, set<string>>, t: map<string, set<string>>, ks: seq<Kernel>, ms: seq<Kernel>)
    requires SameKernels(ks, ms) && Took(a, b, s, t, ks)
    ensures Took(a, b, s, t, ms)
  {
    SameKernelsSame(a, b, s, t, ks, ms);
  }

  // ---- what labels an inventory may carry -----------------------------------------------------------------------

  predicate SameOperation(k: Kernel, m: Kernel) {
    HasMapping(k.tag) && HasMapping(m.tag) && k.tag.operation == m.tag.operation
  }

  /** Kernels fit together exactly when each is well formed and any two of one operation name
      agree on its slots, its type and its role. */
  lemma FitTogetherExactlyWhen(ks: seq<Kernel>)
    ensures Consistent(map[], ks) <==>
      && (forall k :: k in ks ==> WellFormed(k))
      && (forall k, m :: k in ks && m in ks && SameOperation(k, m) ==>
           k.tag.slots == m.tag.slots && k.tag.kind == m.tag.kind && k.tag.role == m.tag.role)
  {
    hide WellFormed;
  }

  /** What is recorded of an accepted inventory: each operation with the slots, type and role its
      kernels carry, and each slot with exactly the operations that declare it. */
  lemma RecordedAre(ops: map<string, Signature>, owners: map<string, set<string>>, ks: seq<Kernel>)
    requires Consistent(map[], ks) && Took(map[], ops, map[], owners, ks)
    ensures forall op :: op in ops <==> exists k :: k in ks && HasMapping(k.tag) && k.tag.operation == Some(op)
    ensures forall k :: k in ks && HasMapping(k.tag) ==>
      && k.tag.operation.value in ops
      && var signature := ops[k.tag.operation.value];
         k.tag.slots == Some(signature.slots) && k.tag.kind == Some(signature.kind) && k.tag.role == Some(signature.role)
    ensures forall slot, op :: slot in owners && op in owners[slot] <==>
      op in ops && slot in ops[op].slots
  {
    hide WellFormed;
    forall op ensures op in ops <==> exists k :: k in ks && HasMapping(k.tag) && k.tag.operation == Some(op) {
      if k :| k in ks && HasMapping(k.tag) && k.tag.operation == Some(op) {
        assert Mapped(k) && Op(k) == op;
      }
      if op in ops {
        var k :| k in ks && Mapped(k) && Op(k) == op;
        assert k.tag.operation == Some(op);
      }
    }
    forall slot, op ensures slot in owners && op in owners[slot] <==> op in ops && slot in ops[op].slots {
      assert op in Owners(owners, slot) <==> slot in owners && op in owners[slot];
      assert op in Owners(owners, slot) <==> exists k :: k in ks && Mapped(k) && Op(k) == op && slot in Sig(k).slots;
    }
  }

  /** The labels a kernel may carry, by their parts. */
  datatype Form =
    | MappedTo(operation: string, slots: seq<string>, kind: string, role: string, synchronizing: Option<bool>)
    | Synchronizing(collective: Option<string>)
    | Independent

  function Rank(synchronizing: bool): string {
    if synchronizing then "synchronizing" else "independent"
  }

  function LabelOf(form: Form): Label {
    match form
    case MappedTo(operation, slots, kind, role, s) =>
      var rank := if s.Some? then Some(Rank(s.value)) else None;
      Label("mapped", rank, None, Some(operation), Some(slots), Some(kind), Some(role))
    case Synchronizing(collective) => Label("unmapped", Some("synchronizing"), collective, None, None, None, None)
    case Independent => Label("unmapped", Some("independent"), None, None, None, None, None)
  }

  /** A character that `strip` leaves. */
  predicate Says(s: string) {
    exists i :: 0 <= i < |s| && !IsSpace(s[i])
  }

  ghost predicate GoodForm(form: Form) {
    match form
    case MappedTo(operation, slots, kind, role, _) =>
      && Says(operation) && Says(kind) && Says(role) && |slots| > 0
      && (forall i :: 0 <= i < |slots| ==> Says(slots[i])) && (forall i, j :: 0 <= i < j < |slots| ==> slots[i] != slots[j])
    case Synchronizing(collective) => collective.Some? ==> Says(collective.value)
    case Independent => true
  }

  function FormOf(l: Label): Form {
    if HasMapping(l) then
      MappedTo(l.operation.value, l.slots.value, l.kind.value, l.role.value,
               if l.crossRank.Some? then Some(l.crossRank.value == "synchronizing") else None)
    else if l.crossRank == Some("independent") then Independent
    else Synchronizing(l.collective)
  }

  /** A kernel is accepted exactly when its names say something and its label is one of these. */
  lemma WellFormedExactlyWhen(k: Kernel)
    ensures WellFormed(k) <==> Says(k.name) && Says(k.category) && exists form :: GoodForm(form) && k.tag == LabelOf(form)
  {
    assert forall s :: Blank(s) <==> !Says(s);
    hide Blank, Says;
    if WellFormed(k) {
      assert GoodForm(FormOf(k.tag)) && k.tag == LabelOf(FormOf(k.tag));
    }
  }

  // ---- what a good part is -----------------------------------------------------------------------------------------

  /** The header, as the schema's versions have it: 2 names no device, 3 its devices and the first of
      them as the representative, 4 and 5 its devices; devices are distinct, in order, not negative. */
  lemma HeaderExactlyWhen(v: Inventory)
    ensures GoodHeader(v) <==>
      && v.encoding in {"folded-v1", "folded-v2", "literal-v1"}
      && match v.deviceIds
         case None => v.version == 2 && v.representative == None
         case Some(ids) =>
           && |ids| > 0 && Distinct(ids) && (forall i :: 0 <= i < |ids| ==> 0 <= ids[i])
           && (forall i, j :: 0 <= i < j < |ids| ==> ids[i] <= ids[j])
           && v.version in {3, 4, 5} && v.representative == (if v.version == 3 then Some(ids[0]) else None)
  {
    if v.deviceIds.Some? {
      var ids := v.deviceIds.value;
      assert GoodDevices(ids) <==>
        && |ids| > 0 && Distinct(ids) && (forall i :: 0 <= i < |ids| ==> 0 <= ids[i])
        && (forall i, j :: 0 <= i < j < |ids| ==> ids[i] <= ids[j]);
    }
  }

  /** A node launches its kernels once, or repeats them at least twice. */
  lemma ProgramExactlyWhen(program: Program)
    ensures GoodProgram(program) <==>
      |program| > 0 && forall node :: node in program ==>
        match node
        case Kernels(ks) => |ks| > 0
        case Repeat(count, body) => count > 1 && |body| > 0
  {
    assert forall i :: 0 <= i < |program| ==> program[i] in program;
  }

  lemma TracksExactlyWhen(tracks: seq<Track>)
    ensures GoodTracks(tracks) <==>
      |tracks| > 0 && forall i :: 0 <= i < |tracks| ==>
        && tracks[i].index == i && tracks[i].streamRole in {"primary", "concurrent"}
        && GoodProgram(tracks[i].program) && tracks[i].kernelCount == |Unroll(tracks[i].program)|
  {
    hide GoodProgram, Unroll;
  }

  /** Sequences claim iterations up to version 3 and devices' iterations from 4 on; they hold one
      program up to version 4 and tracks in version 5. */
  lemma SequenceExactlyWhen(s: Sequence, version: int)
    requires version in {2, 3, 4, 5}
    ensures GoodSequence(s, version) <==>
      && Says(s.id)
      && (if version == 2 || version == 3 then |s.iterations| > 0 && forall n :: n in s.iterations ==> n >= 0
          else
            && |s.occurrences| > 0
            && (forall o :: o in s.occurrences ==>
                 o.device >= 0 && |o.iterations| > 0 && forall n :: n in o.iterations ==> n >= 0)
            && (forall i, j :: 0 <= i < j < |s.occurrences| ==> s.occurrences[i].device != s.occurrences[j].device))
      && (if version == 5 then GoodTracks(s.tracks) && s.expandedCount == |UnrollTracks(s.tracks)|
          else GoodProgram(s.program) && s.expandedCount == |Unroll(s.program)|)
  {
    hide GoodTracks, GoodProgram, Unroll, UnrollTracks;
    assert Blank(s.id) <==> !Says(s.id);
    hide Blank, Says;
    if version >= 4 {
      OccurrencesExactlyWhen(s.occurrences);
    } else {
      IterationsExactlyWhen(s.iterations);
    }
    hide GoodIterations, GoodOccurrences;
  }

  lemma IterationsExactlyWhen(iterations: seq<int>)
    ensures GoodIterations(iterations) <==> |iterations| > 0 && forall n :: n in iterations ==> n >= 0
  {
    assert forall i :: 0 <= i < |iterations| ==> iterations[i] in iterations;
  }

  lemma OccurrencesExactlyWhen(occurrences: seq<Occurrence>)
    ensures GoodOccurrences(occurrences) <==>
      && |occurrences| > 0
      && (forall o :: o in occurrences ==> o.device >= 0 && |o.iterations| > 0 && forall n :: n in o.iterations ==> n >= 0)
      && (forall i, j :: 0 <= i < j < |occurrences| ==> occurrences[i].device != occurrences[j].device)
  {
    forall o | o in occurrences
      ensures GoodIterations(o.iterations) <==> |o.iterations| > 0 && forall n :: n in o.iterations ==> n >= 0
    {
      IterationsExactlyWhen(o.iterations);
    }
    hide GoodIterations;
    assert forall i :: 0 <= i < |occurrences| ==> occurrences[i] in occurrences;
  }

  /** A position is an iteration up to version 3, and a device's iteration from 4 on. */
  lemma PositionsAre(s: Sequence, version: int, p: Position)
    requires version in {2, 3, 4, 5}
    ensures ClaimsPosition(s, version, p) <==>
      if version == 2 || version == 3 then p == Position(None, p.iteration) && p.iteration in s.iterations
      else exists o :: o in s.occurrences && p == Position(Some(o.device), p.iteration) && p.iteration in o.iterations
  {
    hide GoodIterations;
  }

  lemma {:induction false} TimesAt(ks: seq<Kernel>, n: nat, copy: nat, i: nat)
    requires copy < n && i < |ks|
    ensures copy * |ks| + i < |Times(ks, n)| && Times(ks, n)[copy * |ks| + i] == ks[i]
  {
    TimesFacts(ks, n - 1);
    TimesFacts(ks, n);
    assert |ks| * n == |ks| * (n - 1) + |ks|;
    if copy < n - 1 {
      TimesAt(ks, n - 1, copy, i);
    } else {
      assert copy * |ks| == |ks| * (n - 1);
    }
  }

  /** A node unrolls to its kernels, or to that many copies of its body one after the other. */
  lemma NodeUnrolls(ks: seq<Kernel>, n: nat, copy: nat, i: nat)
    requires copy < n && i < |ks|
    ensures UnrollNode(Kernels(ks)) == ks
    ensures |UnrollNode(Repeat(n, ks))| == n * |ks| && copy * |ks| + i < n * |ks|
    ensures UnrollNode(Repeat(n, ks))[copy * |ks| + i] == ks[i]
  {
    TimesFacts(ks, n);
    TimesAt(ks, n, copy, i);
  }
}
