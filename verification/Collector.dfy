/** The collector of cache misses and the grouping of what it holds into work units
    (profiling/plan.py:107-175). */
module Collector {
  import opened Common
  import opened WorkUnits

  datatype Key = Key(kind: string, backend: string, gpuName: Option<string>)

  /** `gpu_count_fn` of the registry's profiler spec, 1 where it has none. */
  type GpuCountFn = (string, string, Spec) -> int

  /** The collector's contents: its dict in insertion order. */
  datatype Store = Store(order: seq<Key>, specs: map<Key, seq<Spec>>)

  const EMPTY_STORE := Store([], map[])

  ghost predicate ValidStore(store: Store) {
    && Distinct(store.order)
    && (forall k :: k in store.order <==> k in store.specs)
    && (forall k :: k in store.specs ==> Distinct(store.specs[k]))
  }

  function Bucket(store: Store, key: Key): seq<Spec> {
    if key in store.specs then store.specs[key] else []
  }

  /** The specs of `asked` that are not in `seen`, each at its first occurrence. */
  function Unseen(asked: seq<Spec>, seen: set<Spec>): seq<Spec> {
    if asked == [] then []
    else if asked[0] in seen then Unseen(asked[1..], seen)
    else [asked[0]] + Unseen(asked[1..], seen + {asked[0]})
  }

  function SpecSet(specs: seq<Spec>): set<Spec> {
    set s <- specs
  }

  function Recorded(store: Store, key: Key, asked: seq<Spec>): Store {
    var bucket := Bucket(store, key);
    Store(if key in store.specs then store.order else store.order + [key],
          store.specs[key := bucket + Unseen(asked, SpecSet(bucket))])
  }

  function TotalOver(order: seq<Key>, store: Store): nat {
    if order == [] then 0 else |Bucket(store, order[0])| + TotalOver(order[1..], store)
  }

  /** `len(collector)`. */
  function Total(store: Store): nat {
    TotalOver(store.order, store)
  }

  lemma {:induction false} UnseenAppend(asked: seq<Spec>, x: Spec, seen: set<Spec>)
    ensures Unseen(asked + [x], seen) == Unseen(asked, seen) +
      (if x in seen || x in asked then [] else [x])
  {
    if asked == [] {
      assert [x][1..] == [];
      assert asked + [x] == [x];
    } else {
      assert (asked + [x])[0] == asked[0] && (asked + [x])[1..] == asked[1..] + [x];
      UnseenAppend(asked[1..], x, if asked[0] in seen then seen else seen + {asked[0]});
    }
  }

  /** What one `record` call adds: every asked spec ends up in the bucket, once. */
  lemma {:induction false} UnseenAddsEachOnce(asked: seq<Spec>, bucket: seq<Spec>)
    requires Distinct(bucket)
    ensures Distinct(bucket + Unseen(asked, SpecSet(bucket)))
    ensures SpecSet(bucket + Unseen(asked, SpecSet(bucket))) == SpecSet(bucket) + SpecSet(asked)
    ensures |Unseen(asked, SpecSet(bucket))| <= |asked|
  {
    if asked == [] {
      assert bucket + [] == bucket;
    } else if asked[0] in SpecSet(bucket) {
      UnseenAddsEachOnce(asked[1..], bucket);
      assert SpecSet(asked) == SpecSet(asked[1..]) + {asked[0]};
    } else {
      var grown := bucket + [asked[0]];
      assert SpecSet(grown) == SpecSet(bucket) + {asked[0]};
      UnseenAddsEachOnce(asked[1..], grown);
      assert SpecSet(asked) == SpecSet(asked[1..]) + {asked[0]};
      assert bucket + Unseen(asked, SpecSet(bucket)) == grown + Unseen(asked[1..], SpecSet(grown));
    }
  }

  lemma RecordedIsValid(store: Store, key: Key, asked: seq<Spec>)
    requires ValidStore(store)
    ensures ValidStore(Recorded(store, key, asked))
  {
    UnseenAddsEachOnce(asked, Bucket(store, key));
  }

  /** The loop of `record`: append what was not seen, and remember it. */
  method Dedupe(asked: seq<Spec>, start: seq<Spec>, startSeen: set<Spec>)
    returns (bucket: seq<Spec>, known: set<Spec>)
    requires Distinct(start) && startSeen == SpecSet(start)
    ensures bucket == start + Unseen(asked, startSeen)
    ensures known == SpecSet(bucket) && Distinct(bucket)
  {
    bucket, known := start, startSeen;
    for i := 0 to |asked|
      invariant bucket == start + Unseen(asked[..i], startSeen)
      invariant known == startSeen + SpecSet(asked[..i])
    {
      TakeOneMore(asked, i);
      UnseenAppend(asked[..i], asked[i], startSeen);
      if asked[i] !in known {
        known := known + {asked[i]};
        bucket := bucket + [asked[i]];
      }
    }
    assert asked[..|asked|] == asked;
    UnseenAddsEachOnce(asked, start);
  }

  class WorkCollector {
    var order: seq<Key>
    var specs: map<Key, seq<Spec>>
    var seen: map<Key, set<Spec>>

    function Contents(): Store reads this { Store(order, specs) }

    ghost predicate Valid()
      reads this
    {
      && ValidStore(Contents())
      && seen.Keys == specs.Keys
      && forall k :: k in specs ==> seen[k] == SpecSet(specs[k])
    }

    constructor ()
      ensures Valid() && Contents() == EMPTY_STORE
    {
      order, specs, seen := [], map[], map[];
    }

    /** One critical section: dedupe against the key's own bucket only. */
    method Record(kind: string, backend: string, asked: seq<Spec>, gpuName: Option<string>)
      requires Valid()
      modifies this
      ensures Valid()
      ensures Contents() == Recorded(old(Contents()), Key(kind, backend, gpuName), asked)
    {
      var key := Key(kind, backend, gpuName);
      if key !in specs {
        order := order + [key];
        specs := specs[key := []];
      }
      if key !in seen {
        seen := seen[key := {}];
      }
      var bucket, known := Dedupe(asked, specs[key], seen[key]);
      specs := specs[key := bucket];
      seen := seen[key := known];
      assert specs == old(specs)[key := bucket];
      RecordedIsValid(old(Contents()), key, asked);
    }

    /** One unit per (kind, backend, gpu name, GPU count), largest first. */
    method Units(gpuCount: GpuCountFn) returns (units: seq<WorkUnit>)
      requires Valid()
      ensures units == LargestFirst(UnitsOf(order, Contents(), gpuCount))
    {
      hide LargestFirst, CountsIn, WithCount, Unseen;
      units := [];
      for i := 0 to |order|
        invariant units == UnitsOf(order[..i], Contents(), gpuCount)
      {
        var key := order[i];
        assert key in specs;
        var counts, groups := GroupByCount(key, specs[key], gpuCount);
        var ofKey := [];
        for j := 0 to |counts|
          invariant ofKey == UnitsOfKey(key, specs[key], counts[..j], gpuCount)
        {
          TakeOneMore(counts, j);
          UnitsOfKeyAppend(key, specs[key], counts[..j], counts[j], gpuCount);
          ofKey := ofKey + [WorkUnit(key.kind, key.backend, groups[counts[j]], counts[j], key.gpuName)];
        }
        assert counts[..|counts|] == counts;
        units := units + ofKey;
        TakeOneMore(order, i);
        UnitsOfAppend(order[..i], key, Contents(), gpuCount);
      }
      assert order[..|order|] == order;
      units := LargestFirst(units);
    }
  }

  // ---- grouping by GPU count ------------------------------------------------

  function CountOf(key: Key, spec: Spec, gpuCount: GpuCountFn): int {
    gpuCount(key.kind, key.backend, spec)
  }

  /** The specs whose GPU count lies in `counts`, in order. */
  function WithCount(key: Key, specs: seq<Spec>, counts: set<int>, gpuCount: GpuCountFn): seq<Spec> {
    if specs == [] then []
    else (if CountOf(key, specs[0], gpuCount) in counts then [specs[0]] else [])
         + WithCount(key, specs[1..], counts, gpuCount)
  }

  /** The GPU counts that occur, by first occurrence. */
  function CountsIn(key: Key, specs: seq<Spec>, gpuCount: GpuCountFn): seq<int> {
    if specs == [] then []
    else
      var before := CountsIn(key, specs[..|specs|-1], gpuCount);
      var n := CountOf(key, specs[|specs|-1], gpuCount);
      if n in before then before else before + [n]
  }

  function UnitsOfKey(key: Key, specs: seq<Spec>, counts: seq<int>, gpuCount: GpuCountFn): seq<WorkUnit> {
    seq(|counts|, i requires 0 <= i < |counts| =>
      WorkUnit(key.kind, key.backend, WithCount(key, specs, {counts[i]}, gpuCount), counts[i], key.gpuName))
  }

  function UnitsOf(order: seq<Key>, store: Store, gpuCount: GpuCountFn): seq<WorkUnit> {
    if order == [] then []
    else
      var key := order[|order|-1];
      UnitsOf(order[..|order|-1], store, gpuCount)
      + UnitsOfKey(key, Bucket(store, key), CountsIn(key, Bucket(store, key), gpuCount), gpuCount)
  }

  lemma UnitsOfKeyAppend(key: Key, specs: seq<Spec>, counts: seq<int>, n: int, gpuCount: GpuCountFn)
    ensures UnitsOfKey(key, specs, counts + [n], gpuCount) ==
      UnitsOfKey(key, specs, counts, gpuCount)
      + [WorkUnit(key.kind, key.backend, WithCount(key, specs, {n}, gpuCount), n, key.gpuName)]
  {
  }

  lemma UnitsOfAppend(order: seq<Key>, key: Key, store: Store, gpuCount: GpuCountFn)
    ensures UnitsOf(order + [key], store, gpuCount) == UnitsOf(order, store, gpuCount)
      + UnitsOfKey(key, Bucket(store, key), CountsIn(key, Bucket(store, key), gpuCount), gpuCount)
  {
    assert (order + [key])[..|order|] == order;
  }

  lemma {:induction false} WithCountAppend(
      key: Key, specs: seq<Spec>, x: Spec, counts: set<int>, gpuCount: GpuCountFn)
    ensures WithCount(key, specs + [x], counts, gpuCount) == WithCount(key, specs, counts, gpuCount)
      + (if CountOf(key, x, gpuCount) in counts then [x] else [])
  {
    if specs == [] {
      assert [x][1..] == [] && specs + [x] == [x];
    } else {
      assert (specs + [x])[1..] == specs[1..] + [x];
      WithCountAppend(key, specs[1..], x, counts, gpuCount);
    }
  }

  lemma {:induction false} WithCountMembers(key: Key, specs: seq<Spec>, counts: set<int>, gpuCount: GpuCountFn)
    ensures forall s :: s in WithCount(key, specs, counts, gpuCount) <==>
      s in specs && CountOf(key, s, gpuCount) in counts
  {
    if specs != [] {
      WithCountMembers(key, specs[1..], counts, gpuCount);
      assert specs == [specs[0]] + specs[1..];
    }
  }

  lemma {:induction false} CountsInFacts(key: Key, specs: seq<Spec>, gpuCount: GpuCountFn)
    ensures Distinct(CountsIn(key, specs, gpuCount))
    ensures forall n :: n in CountsIn(key, specs, gpuCount) <==>
      exists s :: s in specs && CountOf(key, s, gpuCount) == n
  {
    if specs != [] {
      var init, x := specs[..|specs|-1], specs[|specs|-1];
      CountsInFacts(key, init, gpuCount);
      assert specs == init + [x];
      assert x in specs;
      forall n | n in CountsIn(key, init, gpuCount)
        ensures exists s :: s in specs && CountOf(key, s, gpuCount) == n
      {
        var s :| s in init && CountOf(key, s, gpuCount) == n;
        assert s in specs;
      }
    }
  }

  lemma NoSpecs(key: Key, gpuCount: GpuCountFn)
    ensures forall n: int :: WithCount(key, [], {n}, gpuCount) == []
  {
  }

  /** The inner loop of `units`: an insertion-ordered dict from GPU count to specs. */
  method GroupByCount(key: Key, specs: seq<Spec>, gpuCount: GpuCountFn)
    returns (counts: seq<int>, groups: map<int, seq<Spec>>)
    ensures counts == CountsIn(key, specs, gpuCount)
    ensures forall n :: n in groups <==> n in counts
    ensures forall n :: n in groups ==> groups[n] == WithCount(key, specs, {n}, gpuCount)
  {
    hide WithCount;
    counts, groups := [], map[];
    NoSpecs(key, gpuCount);
    for i := 0 to |specs|
      invariant counts == CountsIn(key, specs[..i], gpuCount)
      invariant forall n :: n in groups <==> n in counts
      invariant forall n :: n in groups ==> groups[n] == WithCount(key, specs[..i], {n}, gpuCount)
      invariant forall n :: n !in groups ==> WithCount(key, specs[..i], {n}, gpuCount) == []
    {
      TakeOneMore(specs, i);
      assert specs[..i+1][..i] == specs[..i];
      forall n ensures WithCount(key, specs[..i+1], {n}, gpuCount) ==
        WithCount(key, specs[..i], {n}, gpuCount) + (if CountOf(key, specs[i], gpuCount) == n then [specs[i]] else [])
      {
        WithCountAppend(key, specs[..i], specs[i], {n}, gpuCount);
      }
      var n := gpuCount(key.kind, key.backend, specs[i]);
      if n !in groups {
        counts := counts + [n];
        groups := groups[n := []];
      }
      groups := groups[n := groups[n] + [specs[i]]];
    }
    assert specs[..|specs|] == specs;
  }

  // ---- grouping loses nothing -------------------------------------------------

  ghost function ItemOf(key: Key, spec: Spec, gpuCount: GpuCountFn): Item {
    Item(key.kind, key.backend, key.gpuName, CountOf(key, spec, gpuCount), spec)
  }

  ghost function ItemsOfKey(key: Key, specs: seq<Spec>, gpuCount: GpuCountFn): multiset<Item> {
    multiset(seq(|specs|, i requires 0 <= i < |specs| => ItemOf(key, specs[i], gpuCount)))
  }

  /** Every measurement collected, with the GPU count its own spec asks for. */
  ghost function Collected(order: seq<Key>, store: Store, gpuCount: GpuCountFn): multiset<Item> {
    if order == [] then multiset{}
    else Collected(order[..|order|-1], store, gpuCount)
         + ItemsOfKey(order[|order|-1], Bucket(store, order[|order|-1]), gpuCount)
  }

  lemma ItemsOfKeyCons(key: Key, x: Spec, rest: seq<Spec>, gpuCount: GpuCountFn)
    ensures ItemsOfKey(key, [x] + rest, gpuCount) ==
      multiset{ItemOf(key, x, gpuCount)} + ItemsOfKey(key, rest, gpuCount)
  {
    var specs := [x] + rest;
    var all := seq(|specs|, i requires 0 <= i < |specs| => ItemOf(key, specs[i], gpuCount));
    var tail := seq(|rest|, i requires 0 <= i < |rest| => ItemOf(key, rest[i], gpuCount));
    assert all == [ItemOf(key, x, gpuCount)] + tail;
  }

  lemma {:induction false} WithCountSplits(
      key: Key, specs: seq<Spec>, a: set<int>, n: int, gpuCount: GpuCountFn)
    requires n !in a
    ensures ItemsOfKey(key, WithCount(key, specs, a + {n}, gpuCount), gpuCount) ==
      ItemsOfKey(key, WithCount(key, specs, a, gpuCount), gpuCount)
      + ItemsOfKey(key, WithCount(key, specs, {n}, gpuCount), gpuCount)
  {
    if specs != [] {
      var x, rest := specs[0], specs[1..];
      WithCountSplits(key, rest, a, n, gpuCount);
      ItemsOfKeyCons(key, x, WithCount(key, rest, a + {n}, gpuCount), gpuCount);
      ItemsOfKeyCons(key, x, WithCount(key, rest, a, gpuCount), gpuCount);
      ItemsOfKeyCons(key, x, WithCount(key, rest, {n}, gpuCount), gpuCount);
      assert [] + WithCount(key, rest, a + {n}, gpuCount) == WithCount(key, rest, a + {n}, gpuCount);
      assert [] + WithCount(key, rest, a, gpuCount) == WithCount(key, rest, a, gpuCount);
      assert [] + WithCount(key, rest, {n}, gpuCount) == WithCount(key, rest, {n}, gpuCount);
    }
  }

  ghost function CountSet(counts: seq<int>): set<int> {
    set n <- counts
  }

  lemma {:induction false} UnitsOfKeyItems(key: Key, specs: seq<Spec>, counts: seq<int>, gpuCount: GpuCountFn)
    requires Distinct(counts)
    ensures Items(UnitsOfKey(key, specs, counts, gpuCount)) ==
      ItemsOfKey(key, WithCount(key, specs, CountSet(counts), gpuCount), gpuCount)
  {
    if counts == [] {
      NoCounts(key, specs, gpuCount);
      assert CountSet(counts) == {};
    } else {
      var init, n := counts[..|counts|-1], counts[|counts|-1];
      assert counts == init + [n];
      UnitsOfKeyItems(key, specs, init, gpuCount);
      UnitsOfKeyAppend(key, specs, init, n, gpuCount);
      var group := WithCount(key, specs, {n}, gpuCount);
      var u := WorkUnit(key.kind, key.backend, group, n, key.gpuName);
      ItemsAppend(UnitsOfKey(key, specs, init, gpuCount), [u]);
      ItemsOfOne(u);
      WithCountMembers(key, specs, {n}, gpuCount);
      assert Tagged(u) == seq(|group|, i requires 0 <= i < |group| => ItemOf(key, group[i], gpuCount));
      assert CountSet(counts) == CountSet(init) + {n};
      WithCountSplits(key, specs, CountSet(init), n, gpuCount);
    }
  }

  lemma {:induction false} NoCounts(key: Key, specs: seq<Spec>, gpuCount: GpuCountFn)
    ensures WithCount(key, specs, {}, gpuCount) == []
  {
    if specs != [] {
      NoCounts(key, specs[1..], gpuCount);
    }
  }

  lemma {:induction false} EveryCount(key: Key, specs: seq<Spec>, counts: set<int>, gpuCount: GpuCountFn)
    requires forall s :: s in specs ==> CountOf(key, s, gpuCount) in counts
    ensures WithCount(key, specs, counts, gpuCount) == specs
  {
    if specs != [] {
      EveryCount(key, specs[1..], counts, gpuCount);
    }
  }

  lemma {:induction false} UnitsOfItems(order: seq<Key>, store: Store, gpuCount: GpuCountFn)
    ensures Items(UnitsOf(order, store, gpuCount)) == Collected(order, store, gpuCount)
  {
    if order != [] {
      var init, key := order[..|order|-1], order[|order|-1];
      var bucket := Bucket(store, key);
      var counts := CountsIn(key, bucket, gpuCount);
      UnitsOfItems(init, store, gpuCount);
      CountsInFacts(key, bucket, gpuCount);
      UnitsOfKeyItems(key, bucket, counts, gpuCount);
      EveryCount(key, bucket, CountSet(counts), gpuCount);
      ItemsAppend(UnitsOf(init, store, gpuCount), UnitsOfKey(key, bucket, counts, gpuCount));
    }
  }

  /** A unit is one (key, GPU count) group, whole and in recording order. */
  ghost predicate IsGroup(u: WorkUnit, store: Store, gpuCount: GpuCountFn) {
    var key := Key(u.kind, u.backend, u.gpuName);
    && u.specs != []
    && u.specs == WithCount(key, Bucket(store, key), {u.gpuCount}, gpuCount)
    && forall s :: s in u.specs ==> gpuCount(u.kind, u.backend, s) == u.gpuCount
  }

  lemma {:induction false} UnitsOfAreGroups(order: seq<Key>, store: Store, gpuCount: GpuCountFn)
    ensures forall u :: u in UnitsOf(order, store, gpuCount) ==>
      IsGroup(u, store, gpuCount) && Key(u.kind, u.backend, u.gpuName) in order
  {
    if order != [] {
      var init, key := order[..|order|-1], order[|order|-1];
      var bucket := Bucket(store, key);
      UnitsOfAreGroups(init, store, gpuCount);
      var counts := CountsIn(key, bucket, gpuCount);
      CountsInFacts(key, bucket, gpuCount);
      var ofKey := UnitsOfKey(key, bucket, counts, gpuCount);
      forall u | u in ofKey ensures IsGroup(u, store, gpuCount) && Key(u.kind, u.backend, u.gpuName) == key {
        var i :| 0 <= i < |ofKey| && ofKey[i] == u;
        WithCountMembers(key, bucket, {counts[i]}, gpuCount);
        assert counts[i] in counts;
        var s :| s in bucket && CountOf(key, s, gpuCount) == counts[i];
        assert s in u.specs;
      }
    }
  }

  /** `units()` splits the collected specs without loss into groups homogeneous in kind,
      backend, cache key and GPU count, no two units for one group, largest first. */
  lemma UnitsSplitWithoutLoss(store: Store, gpuCount: GpuCountFn)
    requires ValidStore(store)
    ensures var units := LargestFirst(UnitsOf(store.order, store, gpuCount));
      && Items(units) == Collected(store.order, store, gpuCount)
      && (forall u :: u in units ==> IsGroup(u, store, gpuCount))
      && Descending(units)
      && (forall i :: i in Items(units) ==> Items(units)[i] == 1)
  {
    var grouped := UnitsOf(store.order, store, gpuCount);
    var units := LargestFirst(grouped);
    LargestFirstSorts(grouped);
    ItemsOfPermutation(units, grouped);
    UnitsOfItems(store.order, store, gpuCount);
    UnitsOfAreGroups(store.order, store, gpuCount);
    forall u | u in units ensures IsGroup(u, store, gpuCount) {
      assert u in multiset(units);
      assert u in grouped;
    }
    CollectedOnce(store.order, store, gpuCount);
  }

  lemma {:induction false} CollectedOnce(order: seq<Key>, store: Store, gpuCount: GpuCountFn)
    requires Distinct(order) && forall k :: k in store.specs ==> Distinct(store.specs[k])
    ensures forall i: Item :: Collected(order, store, gpuCount)[i] <= 1
    ensures forall i :: i in Collected(order, store, gpuCount) ==> Key(i.kind, i.backend, i.gpuName) in order
  {
    if order != [] {
      var init, key := order[..|order|-1], order[|order|-1];
      CollectedOnce(init, store, gpuCount);
      BucketOnce(key, Bucket(store, key), gpuCount);
      assert key !in init;
      forall i: Item ensures Collected(order, store, gpuCount)[i] <= 1 {
        if i in Collected(init, store, gpuCount) {
          assert Key(i.kind, i.backend, i.gpuName) != key;
        }
      }
    }
  }

  lemma {:induction false} BucketOnce(key: Key, specs: seq<Spec>, gpuCount: GpuCountFn)
    requires Distinct(specs)
    ensures forall i: Item :: ItemsOfKey(key, specs, gpuCount)[i] <= 1
    ensures forall i :: i in ItemsOfKey(key, specs, gpuCount) ==>
      Key(i.kind, i.backend, i.gpuName) == key && i.spec in specs
  {
    if specs != [] {
      BucketOnce(key, specs[1..], gpuCount);
      assert specs == [specs[0]] + specs[1..];
      assert specs[0] !in specs[1..];
      ItemsOfKeyCons(key, specs[0], specs[1..], gpuCount);
    }
  }

  /** The specs that come new stand in the order in which they were first asked. */
  lemma {:induction false} UnseenPlaces(asked: seq<Spec>, seen: set<Spec>) returns (at: seq<nat>)
    ensures |at| == |Unseen(asked, seen)|
    ensures forall k :: 0 <= k < |at| ==> at[k] < |asked| && Unseen(asked, seen)[k] == asked[at[k]]
    ensures forall j, k :: 0 <= j < k < |at| ==> at[j] < at[k]
    ensures forall i :: 0 <= i < |asked| ==> (i in at <==> asked[i] !in seen && asked[i] !in asked[..i])
  {
    if asked == [] {
      at := [];
    } else {
      var init, x := asked[..|asked| - 1], asked[|asked| - 1];
      assert asked == init + [x];
      at := UnseenPlaces(init, seen);
      UnseenAppend(init, x, seen);
      assert forall i :: 0 <= i < |init| ==> init[..i] == asked[..i];
      if x !in seen && x !in init {
        at := at + [|init|];
      }
    }
  }

  /** A record touches the bucket of its own kind, backend and GPU name alone, at its end. */
  lemma RecordTouchesOneBucket(store: Store, key: Key, asked: seq<Spec>)
    ensures var after := Recorded(store, key, asked);
      && (forall k :: k != key ==> Bucket(after, k) == Bucket(store, k))
      && Bucket(store, key) <= Bucket(after, key)
      && after.specs.Keys == store.specs.Keys + {key}
      && after.order == if key in store.specs then store.order else store.order + [key]
  {
  }
}
