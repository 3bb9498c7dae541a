/** Assigning at dotted paths of a configuration tree (launcher/cli.py:88-127). */
module DottedPaths {
  import opened Common
  import opened Names
  import Options = GlobalOptions

  datatype Tree = Leaf(value: string) | Dict(entries: map<string, Tree>) | List(items: seq<Tree>)

  datatype Error = NotContainer | NotAnInteger(part: string) | OutOfRange(index: int) | NoEquals(item: string)

  // ---- path segments ---------------------------------------------------------------------------------

  /** `int(part)`, for plain decimal digits with an optional sign. */
  function ToInt(part: string): Option<int> {
    var digits := if part != "" && (part[0] == '-' || part[0] == '+') then part[1..] else part;
    if digits == "" || Digits(digits).None? then None
    else if part[0] == '-' then Some(0 - Digits(digits).value)
    else Some(Digits(digits).value)
  }

  /** Where a segment leads in a container: a name, or a position counted from either end. */
  datatype Key = Name(name: string) | At(index: nat)

  function KeyOf(node: Tree, part: string): Result<Key, Error> {
    match node
    case Leaf(_) => Err(NotContainer)
    case Dict(_) => Ok(Name(part))
    case List(items) =>
      var index := ToInt(part);
      if index.None? then Err(NotAnInteger(part))
      else if 0 <= index.value < |items| then Ok(At(index.value))
      else if 0 - |items| <= index.value < 0 then Ok(At(|items| + index.value))
      else Err(OutOfRange(index.value))
  }

  predicate Fits(node: Tree, key: Key) {
    (node.Dict? && key.Name?) || (node.List? && key.At? && key.index < |node.items|)
  }

  /** `setdefault(part, {})`, or the list's item. */
  function Child(node: Tree, key: Key): Tree
    requires Fits(node, key)
  {
    if node.List? then node.items[key.index]
    else if key.name in node.entries then node.entries[key.name] else Dict(map[])
  }

  function Put(node: Tree, key: Key, child: Tree): Tree
    requires Fits(node, key)
  {
    if node.List? then List(node.items[key.index := child]) else Dict(node.entries[key.name := child])
  }

  /** `_set_path`: the tree with `value` at the path, missing dictionaries made on the way. */
  function SetPath(node: Tree, parts: seq<string>, value: Tree): Result<Tree, Error>
    requires parts != []
    decreases |parts|
  {
    var key := KeyOf(node, parts[0]);
    if key.Err? then Err(key.error)
    else if |parts| == 1 then Ok(Put(node, key.value, value))
    else if Child(node, key.value).Leaf? then Err(NotContainer)
    else
      var child := SetPath(Child(node, key.value), parts[1..], value);
      if child.Err? then child else Ok(Put(node, key.value, child.value))
  }

  function Get(node: Tree, parts: seq<string>): Option<Tree>
    decreases |parts|
  {
    if parts == [] then Some(node)
    else
      var key := KeyOf(node, parts[0]);
      if key.Err? || (node.Dict? && parts[0] !in node.entries) then None
      else Get(Child(node, key.value), parts[1..])
  }

  // ---- laws ---------------------------------------------------------------------------------------------

  lemma PutFacts(node: Tree, key: Key, child: Tree)
    requires Fits(node, key)
    ensures Fits(Put(node, key, child), key) && Child(Put(node, key, child), key) == child
    ensures forall part :: KeyOf(Put(node, key, child), part) == KeyOf(node, part)
    ensures forall other :: Fits(node, other) <==> Fits(Put(node, key, child), other)
    ensures forall other :: Fits(node, other) && other != key ==> Child(Put(node, key, child), other) == Child(node, other)
    ensures forall again :: Put(Put(node, key, child), key, again) == Put(node, key, again)
  {
  }

  lemma PutsCommute(node: Tree, k: Key, a: Tree, m: Key, b: Tree)
    requires Fits(node, k) && Fits(node, m) && k != m
    ensures Fits(Put(node, k, a), m) && Fits(Put(node, m, b), k)
    ensures Put(Put(node, k, a), m, b) == Put(Put(node, m, b), k, a)
  {
  }

  /** What was set is what is read. */
  lemma {:induction false} GetAfterSet(node: Tree, parts: seq<string>, value: Tree)
    requires parts != [] && SetPath(node, parts, value).Ok?
    ensures Get(SetPath(node, parts, value).value, parts) == Some(value)
    decreases |parts|
  {
    var key := KeyOf(node, parts[0]).value;
    if |parts| == 1 {
      PutFacts(node, key, value);
      assert parts[1..] == [];
    } else {
      GetAfterSet(Child(node, key), parts[1..], value);
      PutFacts(node, key, SetPath(Child(node, key), parts[1..], value).value);
    }
  }

  /** The last write to a path wins, as if it had been the only one. */
  lemma {:induction false} LastWriteWins(node: Tree, parts: seq<string>, first: Tree, last: Tree)
    requires parts != [] && SetPath(node, parts, first).Ok?
    ensures SetPath(SetPath(node, parts, first).value, parts, last) == SetPath(node, parts, last)
    decreases |parts|
  {
    var key := KeyOf(node, parts[0]).value;
    if |parts| == 1 {
      PutFacts(node, key, first);
    } else {
      var child := Child(node, key);
      LastWriteWins(child, parts[1..], first, last);
      var set1 := SetPath(child, parts[1..], first).value;
      PutFacts(node, key, set1);
      StaysContainer(child, parts[1..], first);
    }
  }

  lemma StaysContainer(node: Tree, parts: seq<string>, value: Tree)
    requires parts != [] && SetPath(node, parts, value).Ok?
    ensures !node.Leaf? && !SetPath(node, parts, value).value.Leaf?
  {
  }

  /** The paths part ways at some container: two names, or two positions of one list, however
      they are spelled. */
  predicate Disjoint(node: Tree, p: seq<string>, q: seq<string>)
    decreases |p|
  {
    && p != [] && q != [] && KeyOf(node, p[0]).Ok? && KeyOf(node, q[0]).Ok?
    && (KeyOf(node, p[0]) != KeyOf(node, q[0]) || Disjoint(Child(node, KeyOf(node, p[0]).value), p[1..], q[1..]))
  }

  lemma KeyFits(node: Tree, part: string)
    requires KeyOf(node, part).Ok?
    ensures Fits(node, KeyOf(node, part).value)
  {
  }

  lemma SetOneStep(node: Tree, parts: seq<string>, value: Tree)
    requires |parts| > 1 && KeyOf(node, parts[0]).Ok?
    ensures var key := KeyOf(node, parts[0]).value;
      var child := SetPath(Child(node, key), parts[1..], value);
      SetPath(node, parts, value) == if child.Err? then child else Ok(Put(node, key, child.value))
  {
    var key := KeyOf(node, parts[0]).value;
    if Child(node, key).Leaf? {
      assert KeyOf(Child(node, key), parts[1]) == Err(NotContainer);
    }
  }

  /** What the first segment's child becomes. */
  function NewChild(node: Tree, parts: seq<string>, value: Tree): Result<Tree, Error>
    requires parts != [] && KeyOf(node, parts[0]).Ok?
  {
    if |parts| == 1 then Ok(value) else SetPath(Child(node, KeyOf(node, parts[0]).value), parts[1..], value)
  }

  lemma SetIsPut(node: Tree, parts: seq<string>, value: Tree)
    requires parts != [] && KeyOf(node, parts[0]).Ok?
    ensures var child := NewChild(node, parts, value);
      SetPath(node, parts, value) == if child.Err? then child else Ok(Put(node, KeyOf(node, parts[0]).value, child.value))
  {
    if |parts| > 1 {
      SetOneStep(node, parts, value);
    }
  }

  /** Setting one path leaves what any disjoint path reads, present or missing. */
  lemma {:induction false} OthersUntouched(node: Tree, p: seq<string>, v: Tree, q: seq<string>)
    requires Disjoint(node, p, q) && SetPath(node, p, v).Ok?
    ensures Get(SetPath(node, p, v).value, q) == Get(node, q)
    decreases |p|
  {
    var k, m := KeyOf(node, p[0]).value, KeyOf(node, q[0]).value;
    SetIsPut(node, p, v);
    var child := NewChild(node, p, v).value;
    PutFacts(node, k, child);
    if k == m {
      OthersUntouched(Child(node, k), p[1..], v, q[1..]);
      if node.Dict? && q[0] !in node.entries {
        NothingInNothing(q[1..]);
      }
    }
  }

  lemma NothingInNothing(q: seq<string>)
    requires q != []
    ensures Get(Dict(map[]), q) == None
  {
  }

  /** Assignments to disjoint paths commute. */
  lemma {:induction false} DisjointSetsCommute(node: Tree, p: seq<string>, v: Tree, q: seq<string>, w: Tree)
    requires Disjoint(node, p, q) && SetPath(node, p, v).Ok? && SetPath(node, q, w).Ok?
    ensures SetPath(SetPath(node, p, v).value, q, w) == SetPath(SetPath(node, q, w).value, p, v)
    ensures SetPath(SetPath(node, p, v).value, q, w).Ok?
    decreases |p|
  {
    hide SetPath, Put, Child, KeyOf;
    var k, m := KeyOf(node, p[0]).value, KeyOf(node, q[0]).value;
    KeyFits(node, p[0]);
    KeyFits(node, q[0]);
    SetIsPut(node, p, v);
    SetIsPut(node, q, w);
    var a, b := NewChild(node, p, v).value, NewChild(node, q, w).value;
    PutFacts(node, k, a);
    PutFacts(node, m, b);
    SetIsPut(Put(node, k, a), q, w);
    SetIsPut(Put(node, m, b), p, v);
    if k != m {
      PutsCommute(node, k, a, m, b);
    } else {
      DisjointSetsCommute(Child(node, k), p[1..], v, q[1..], w);
    }
  }

  // ---- positions in lists -----------------------------------------------------------------------------------

  lemma DigitsHaveNoSign(n: nat)
    ensures Decimal(n) != "" && IsDigit(Decimal(n)[0])
  {
    if n >= 10 {
      DigitsHaveNoSign(n / 10);
    }
  }

  lemma NumberSegment(n: nat)
    ensures ToInt(Decimal(n)) == Some(n) && ToInt("+" + Decimal(n)) == Some(n) && ToInt("-" + Decimal(n)) == Some(0 - n)
  {
    DecimalThenDigits(n);
    DigitsHaveNoSign(n);
    assert ("-" + Decimal(n))[1..] == Decimal(n) && ("+" + Decimal(n))[1..] == Decimal(n);
  }

  /** Setting through a list at a position changes that item alone, as setting at the rest of the
      path changes it, and reading reads it. */
  ghost predicate Addresses(items: seq<Tree>, part: string, k: nat)
    requires k < |items|
  {
    && (forall v :: SetPath(List(items), [part], v) == Ok(List(items[k := v])))
    && Get(List(items), [part]) == Some(items[k])
    && (forall rest: seq<string>, v :: rest != [] ==> SetsWithin(items, part, k, rest, v))
    && (forall rest: seq<string> :: Get(List(items), [part] + rest) == Get(items[k], rest))
  }

  ghost predicate SetsWithin(items: seq<Tree>, part: string, k: nat, rest: seq<string>, v: Tree)
    requires k < |items| && rest != []
  {
    SetPath(List(items), [part] + rest, v) ==
      match SetPath(items[k], rest, v)
      case Ok(item) => Ok(List(items[k := item]))
      case Err(e) => Err(e)
  }

  lemma AtAddresses(items: seq<Tree>, part: string, k: nat)
    requires k < |items| && KeyOf(List(items), part) == Ok(At(k))
    ensures Addresses(items, part, k)
  {
    assert [part][1..] == [];
    forall rest: seq<string>, v | rest != [] ensures SetsWithin(items, part, k, rest, v) {
      assert ([part] + rest)[1..] == rest;
      SetOneStep(List(items), [part] + rest, v);
    }
    forall rest: seq<string> ensures Get(List(items), [part] + rest) == Get(items[k], rest) {
      assert ([part] + rest)[1..] == rest;
    }
  }

  /** A number counts a list's items from the front, from 0, and with a minus sign from the back,
      from 1; any other number is out of range. */
  lemma NumbersNameItems(items: seq<Tree>, n: nat, v: Tree)
    ensures n < |items| ==> Addresses(items, Decimal(n), n) && Addresses(items, "+" + Decimal(n), n)
    ensures 1 <= n <= |items| ==> Addresses(items, "-" + Decimal(n), |items| - n)
    ensures n >= |items| ==> SetPath(List(items), [Decimal(n)], v) == Err(OutOfRange(n))
    ensures n > |items| ==> SetPath(List(items), ["-" + Decimal(n)], v) == Err(OutOfRange(0 - n))
  {
    NumberSegment(n);
    if n < |items| {
      AtAddresses(items, Decimal(n), n);
      AtAddresses(items, "+" + Decimal(n), n);
    }
    if 1 <= n <= |items| {
      AtAddresses(items, "-" + Decimal(n), |items| - n);
    }
  }

  /** In a dictionary a segment is a name, also one of digits: it alone is set, and where it leads
      nowhere yet and the path goes on, an empty dictionary is put there first. */
  lemma SegmentsNameEntries(entries: map<string, Tree>, part: string, rest: seq<string>, v: Tree)
    ensures SetPath(Dict(entries), [part], v) == Ok(Dict(entries[part := v]))
    ensures rest != [] ==>
      var child := SetPath(if part in entries then entries[part] else Dict(map[]), rest, v);
      SetPath(Dict(entries), [part] + rest, v) == if child.Ok? then Ok(Dict(entries[part := child.value])) else child
    ensures Get(Dict(entries), [part] + rest) == if part in entries then Get(entries[part], rest) else None
  {
    assert [part][1..] == [] && ([part] + rest)[1..] == rest;
    if rest != [] {
      SetOneStep(Dict(entries), [part] + rest, v);
    }
  }

  // ---- a list of assignments --------------------------------------------------------------------------------

  function StripLeft(s: string): string {
    if s != "" && IsSpace(s[0]) then StripLeft(s[1..]) else s
  }

  function StripRight(s: string): string {
    if s != "" && IsSpace(s[|s| - 1]) then StripRight(s[..|s| - 1]) else s
  }

  function PathOf(item: string): seq<string> {
    SplitDots(StripRight(StripLeft(Options.Name(item))))
  }

  /** One `path=value`; `json` reads a value, a bare string when it is not JSON. */
  function Assign(tree: Tree, item: string, json: string -> Tree): Result<Tree, Error> {
    var raw := Options.Inline(item);
    if raw.None? then Err(NoEquals(item)) else SetPath(tree, PathOf(item), json(raw.value))
  }

  function Assigned(tree: Tree, items: seq<string>, json: string -> Tree): Result<Tree, Error> {
    if items == [] then Ok(tree)
    else
      var before := Assigned(tree, items[..|items| - 1], json);
      if before.Err? then before else Assign(before.value, items[|items| - 1], json)
  }

  method ApplyDotted(tree: Tree, items: seq<string>, json: string -> Tree) returns (r: Result<Tree, Error>)
    ensures r == Assigned(tree, items, json)
  {
    var out := tree;
    for i := 0 to |items|
      invariant Assigned(tree, items[..i], json) == Ok(out)
    {
      assert items[..i + 1][..i] == items[..i];
      var next := Assign(out, items[i], json);
      if next.Err? {
        FirstErrorStays(tree, items, json, i + 1);
        return next;
      }
      out := next.value;
    }
    assert items[..|items|] == items;
    return Ok(out);
  }

  lemma {:induction false} FirstErrorStays(tree: Tree, items: seq<string>, json: string -> Tree, i: nat)
    requires i <= |items| && Assigned(tree, items[..i], json).Err?
    ensures Assigned(tree, items, json) == Assigned(tree, items[..i], json)
    decreases |items|
  {
    if i == |items| {
      assert items[..i] == items;
    } else {
      assert items[..|items| - 1][..i] == items[..i];
      FirstErrorStays(tree, items[..|items| - 1], json, i);
    }
  }

  /** Two assignments to disjoint paths may be given in either order. */
  lemma AssignmentsCommute(tree: Tree, a: string, b: string, json: string -> Tree)
    requires Disjoint(tree, PathOf(a), PathOf(b)) && Assign(tree, a, json).Ok? && Assign(tree, b, json).Ok?
    ensures Assigned(tree, [a, b], json) == Assigned(tree, [b, a], json) && Assigned(tree, [a, b], json).Ok?
  {
    hide Disjoint, PathOf, SetPath;
    DisjointSetsCommute(tree, PathOf(a), json(Options.Inline(a).value), PathOf(b), json(Options.Inline(b).value));
    assert [a, b][..1] == [a] && [a][..0] == [] && [b, a][..1] == [b] && [b][..0] == [];
    assert Assigned(tree, [], json) == Ok(tree);
    assert Assigned(tree, [a], json) == Assign(tree, a, json) && Assigned(tree, [b], json) == Assign(tree, b, json);
  }

  // ---- reading an assignment ---------------------------------------------------------------------------------

  predicate Spaces(s: string) {
    forall i :: 0 <= i < |s| ==> IsSpace(s[i])
  }

  predicate Edged(s: string) {
    s != "" && !IsSpace(s[0]) && !IsSpace(s[|s| - 1])
  }

  lemma {:induction false} StripsLeft(left: string, core: string)
    requires Spaces(left) && core != "" && !IsSpace(core[0])
    ensures StripLeft(left + core) == core
  {
    if left == "" {
      assert left + core == core;
    } else {
      assert (left + core)[1..] == left[1..] + core;
      StripsLeft(left[1..], core);
    }
  }

  lemma {:induction false} StripsRight(core: string, right: string)
    requires Spaces(right) && core != "" && !IsSpace(core[|core| - 1])
    ensures StripRight(core + right) == core
  {
    if right == "" {
      assert core + right == core;
    } else {
      assert (core + right)[..|core + right| - 1] == core + right[..|right| - 1];
      StripsRight(core, right[..|right| - 1]);
    }
  }

  /** `path=value`: what stands before the first equals sign, spaces around it aside, is the path, by
      its dots, and what stands after it is the value, equals signs and all. */
  lemma AssignmentIsRead(tree: Tree, left: string, parts: seq<string>, right: string, raw: string, json: string -> Tree)
    requires parts != [] && NoDots(parts) && Edged(Join(parts)) && Spaces(left) && Spaces(right)
    requires '=' !in left + Join(parts) + right
    ensures Assign(tree, left + Join(parts) + right + "=" + raw, json) == SetPath(tree, parts, json(raw))
  {
    var path := Join(parts);
    Options.PartedAtFirst(left + path + right, raw);
    hide Join, SplitDots;
    assert left + path + right == left + (path + right);
    StripsLeft(left, path + right);
    StripsRight(path, right);
    JoinThenSplit(parts);
  }

  /** Without an equals sign it is none. */
  lemma NoAssignment(tree: Tree, item: string, json: string -> Tree)
    requires '=' !in item
    ensures Assign(tree, item, json) == Err(NoEquals(item))
  {
    Options.NoEquals(item);
  }
}
