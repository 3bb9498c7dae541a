/** The collect walk and the hand-off to `issue` (profiling/facade.py:358-387,
    profiling/perf_api.py:50-134). */
module ProfileApi {
  import opened Collector
  import opened Common
  import opened Dispatch
  import opened WorkUnits

  datatype ApiError =
    | NotCollecting
    | CountedButRecordedNone
    | RecordedMoreThanCounted
    | GpuDisabled
    | NoGpus
    | UnitsFailed(count: nat)

  /** One `count_missing` call of the walk, with what the table already holds. */
  datatype Node = Node(key: Key, asked: seq<Spec>, present: seq<bool>)

  predicate ValidNode(n: Node) {
    |n.asked| == |n.present|
  }

  function Absent(asked: seq<Spec>, present: seq<bool>): seq<Spec>
    requires |asked| == |present|
  {
    if asked == [] then []
    else (if present[0] then [] else [asked[0]]) + Absent(asked[1..], present[1..])
  }

  /** `present.count(False)`. */
  function CountAbsent(present: seq<bool>): nat {
    if present == [] then 0 else (if present[0] then 0 else 1) + CountAbsent(present[1..])
  }

  /** The walk's two channels: what the collector holds and what the counts sum to. */
  ghost function Walked(nodes: seq<Node>): (Store, nat)
    requires forall n :: n in nodes ==> ValidNode(n)
  {
    if nodes == [] then (EMPTY_STORE, 0)
    else
      var (store, counted) := Walked(nodes[..|nodes|-1]);
      var n := nodes[|nodes|-1];
      assert n in nodes && ValidNode(n);
      (Recorded(store, n.key, Absent(n.asked, n.present)), counted + CountAbsent(n.present))
  }

  lemma {:induction false} AbsentIsCounted(asked: seq<Spec>, present: seq<bool>)
    requires |asked| == |present|
    ensures |Absent(asked, present)| == CountAbsent(present)
  {
    if asked != [] {
      AbsentIsCounted(asked[1..], present[1..]);
    }
  }

  lemma {:induction false} TotalOverChange(order: seq<Key>, before: Store, after: Store, key: Key)
    requires Distinct(order)
    requires forall k :: k != key ==> Bucket(after, k) == Bucket(before, k)
    ensures TotalOver(order, after) == TotalOver(order, before)
      + (if key in order then |Bucket(after, key)| - |Bucket(before, key)| else 0)
  {
    if order != [] {
      assert order == [order[0]] + order[1..];
      assert order[0] !in order[1..];
      TotalOverChange(order[1..], before, after, key);
    }
  }

  lemma {:induction false} TotalOverSnoc(order: seq<Key>, key: Key, store: Store)
    ensures TotalOver(order + [key], store) == TotalOver(order, store) + |Bucket(store, key)|
  {
    if order == [] {
      assert order + [key] == [key] && [key][1..] == [];
    } else {
      assert (order + [key])[1..] == order[1..] + [key];
      TotalOverSnoc(order[1..], key, store);
    }
  }

  lemma RecordedTotal(store: Store, key: Key, asked: seq<Spec>)
    requires ValidStore(store)
    ensures Total(Recorded(store, key, asked)) ==
      Total(store) + |Unseen(asked, SpecSet(Bucket(store, key)))|
  {
    var after := Recorded(store, key, asked);
    TotalOverChange(store.order, store, after, key);
    if key !in store.specs {
      TotalOverSnoc(store.order, key, after);
    }
  }

  lemma {:induction false} BucketWithinTotal(order: seq<Key>, store: Store, key: Key)
    requires key in order
    ensures |Bucket(store, key)| <= TotalOver(order, store)
  {
    if order[0] != key {
      BucketWithinTotal(order[1..], store, key);
    }
  }

  /** For any repetition and order of nodes, whatever the table holds at each: the collector
      never records more than was counted, and records nothing only if nothing was counted. */
  lemma {:induction false} WalkChannelsAgree(nodes: seq<Node>)
    requires forall n :: n in nodes ==> ValidNode(n)
    ensures var (store, counted) := Walked(nodes);
      && ValidStore(store)
      && Total(store) <= counted
      && (Total(store) == 0 <==> counted == 0)
  {
    if nodes != [] {
      var init, n := nodes[..|nodes|-1], nodes[|nodes|-1];
      assert n in nodes;
      WalkChannelsAgree(init);
      var (store, counted) := Walked(init);
      var absent, bucket := Absent(n.asked, n.present), Bucket(store, n.key);
      AbsentIsCounted(n.asked, n.present);
      RecordedIsValid(store, n.key, absent);
      RecordedTotal(store, n.key, absent);
      UnseenAddsEachOnce(absent, bucket);
      if absent != [] && Unseen(absent, SpecSet(bucket)) == [] {
        assert absent[0] in SpecSet(bucket);
        assert n.key in store.order;
        BucketWithinTotal(store.order, store, n.key);
      }
    }
  }

  /** The exact condition under which `issue_collected` goes on to `issue`. */
  predicate Mismatch(recorded: nat, expected: Option<int>) {
    expected.Some? && expected.value != 0 && (recorded == 0 || recorded > expected.value)
  }

  /** Both mismatch errors are unreachable after a walk with one collector throughout. */
  lemma NoMismatchAfterWalk(nodes: seq<Node>)
    requires forall n :: n in nodes ==> ValidNode(n)
    ensures !Mismatch(Total(Walked(nodes).0), Some(Walked(nodes).1))
  {
    WalkChannelsAgree(nodes);
  }

  lemma {:induction false} NothingCollected(order: seq<Key>, store: Store, gpuCount: GpuCountFn)
    requires TotalOver(order, store) == 0
    ensures Collected(order, store, gpuCount) == multiset{}
  {
    if order != [] {
      var init, key := order[..|order|-1], order[|order|-1];
      assert order == init + [key];
      TotalOverSnoc(init, key, store);
      NothingCollected(init, store, gpuCount);
    }
  }

  lemma AbsentIsRecorded(store: Store, key: Key, asked: seq<Spec>, present: seq<bool>, i: nat)
    requires ValidStore(store) && |asked| == |present| && i < |asked| && !present[i]
    ensures asked[i] in Bucket(Recorded(store, key, Absent(asked, present)), key)
  {
    var absent, bucket := Absent(asked, present), Bucket(store, key);
    var at := AbsentPlaces(asked, present);
    var k :| 0 <= k < |at| && at[k] == i;
    assert asked[i] in SpecSet(absent);
    UnseenAddsEachOnce(absent, bucket);
    assert asked[i] in SpecSet(bucket + Unseen(absent, SpecSet(bucket)));
  }

  lemma {:induction false} BucketIsCollected(order: seq<Key>, store: Store, key: Key, spec: Spec, gpuCount: GpuCountFn)
    requires key in order && spec in Bucket(store, key)
    ensures ItemOf(key, spec, gpuCount) in Collected(order, store, gpuCount)
  {
    var init, last := order[..|order| - 1], order[|order| - 1];
    if key == last {
      var specs := Bucket(store, key);
      var items := seq(|specs|, i requires 0 <= i < |specs| => ItemOf(key, specs[i], gpuCount));
      var i :| 0 <= i < |specs| && specs[i] == spec;
      assert items[i] == ItemOf(key, spec, gpuCount);
    } else {
      assert order == init + [last];
      BucketIsCollected(init, store, key, spec, gpuCount);
    }
  }

  /** Whatever a walk finds missing is among what `issue` is handed, under the kind, backend and GPU
      name it was missing under. */
  lemma {:induction false} WalkCollectsMissing(nodes: seq<Node>, j: nat, i: nat, gpuCount: GpuCountFn)
    requires (forall n :: n in nodes ==> ValidNode(n)) && j < |nodes|
    requires i < |nodes[j].asked| == |nodes[j].present| && !nodes[j].present[i]
    ensures var key, spec := nodes[j].key, nodes[j].asked[i];
      Item(key.kind, key.backend, key.gpuName, gpuCount(key.kind, key.backend, spec), spec)
        in AllItems(Walked(nodes).0, gpuCount)
  {
    WalkChannelsAgree(nodes);
    WalkHoldsMissing(nodes, j, i);
    var store, key := Walked(nodes).0, nodes[j].key;
    assert key in store.order;
    BucketIsCollected(store.order, store, key, nodes[j].asked[i], gpuCount);
  }

  lemma {:induction false} WalkHoldsMissing(nodes: seq<Node>, j: nat, i: nat)
    requires (forall n :: n in nodes ==> ValidNode(n)) && j < |nodes|
    requires i < |nodes[j].asked| == |nodes[j].present| && !nodes[j].present[i]
    ensures nodes[j].asked[i] in Bucket(Walked(nodes).0, nodes[j].key)
  {
    var init, n := nodes[..|nodes| - 1], nodes[|nodes| - 1];
    assert n in nodes;
    WalkChannelsAgree(init);
    var store := Walked(init).0;
    if j == |nodes| - 1 {
      AbsentIsRecorded(store, n.key, n.asked, n.present, i);
    } else {
      WalkHoldsMissing(init, j, i);
      RecordTouchesOneBucket(store, n.key, Absent(n.asked, n.present));
    }
  }

  /** The thread's installed collector. */
  class ProfileSession {
    var active: WorkCollector?

    constructor ()
      ensures active == null
    {
      active := null;
    }

    ghost predicate Valid()
      reads this, active
    {
      active != null ==> active.Valid()
    }

    /** Resets an abandoned collector rather than refusing. */
    method BeginCollect()
      modifies this
      ensures Valid() && active != null && fresh(active) && active.Contents() == EMPTY_STORE
    {
      active := new WorkCollector();
    }

    /** Counts the misses, and records them when a collector is installed. */
    method CountMissing(kind: string, backend: string, asked: seq<Spec>, present: seq<bool>, gpuName: string)
      returns (missing: nat)
      requires Valid() && |asked| == |present|
      modifies active
      ensures Valid() && active == old(active)
      ensures missing == CountAbsent(present)
      ensures active != null ==>
        active.Contents()
        == Recorded(old(active.Contents()), Key(kind, backend, Some(gpuName)), Absent(asked, present))
      ensures active != null ==> forall i :: 0 <= i < |asked| && !present[i] ==>
        asked[i] in Bucket(active.Contents(), Key(kind, backend, Some(gpuName)))
    {
      if active != null {
        ghost var before := active.Contents();
        active.Record(kind, backend, Absent(asked, present), Some(gpuName));
        forall i | 0 <= i < |asked| && !present[i]
          ensures asked[i] in Bucket(active.Contents(), Key(kind, backend, Some(gpuName)))
        {
          AbsentIsRecorded(before, Key(kind, backend, Some(gpuName)), asked, present, i);
        }
      }
      missing := CountAbsent(present);
    }

    /** Checks run in order; the collector is uninstalled whatever happens. `Ok` means every
        recorded spec was measured, unless its GPU count is below 1. */
    method IssueCollected(expected: Option<int>, gpuDisabled: bool, gpus: seq<int>, gpuCount: GpuCountFn)
      returns (result: Result<(), ApiError>, t: Trace)
      requires Valid()
      modifies this
      ensures active == null
      ensures old(active) == null ==> result == Err(NotCollecting) && t == Start
      ensures old(active) != null ==>
        var store := old(active.Contents());
        && (result == Err(CountedButRecordedNone) <==> Mismatch(Total(store), expected) && Total(store) == 0)
        && (result == Err(RecordedMoreThanCounted) <==> Mismatch(Total(store), expected) && Total(store) > 0)
        && (result == Err(GpuDisabled) <==>
             !Mismatch(Total(store), expected) && Total(store) > 0 && gpuDisabled)
        && (result == Err(NoGpus) <==>
             !Mismatch(Total(store), expected) && Total(store) > 0 && !gpuDisabled && gpus == [])
        && (t != Start ==> WellScheduled(t, gpus))
        && (!Mismatch(Total(store), expected) && Total(store) == 0 ==> result == Ok(()) && t == Start)
        && (result == Ok(()) ==>
             (Measured(t) == AllItems(store, gpuCount) <==>
              forall i :: i in AllItems(store, gpuCount) ==> i.gpuCount >= 1))
        && (result.Err? && result.error.UnitsFailed? ==> Measured(t) != AllItems(store, gpuCount))
    {
      t := Start;
      var collector := active;
      active := null;
      if collector == null {
        return Err(NotCollecting), t;
      }
      var recorded := Total(collector.Contents());
      if expected.Some? && expected.value != 0 {
        if recorded == 0 {
          return Err(CountedButRecordedNone), t;
        }
        if recorded > expected.value {
          return Err(RecordedMoreThanCounted), t;
        }
      }
      if recorded == 0 {
        NothingCollected(collector.order, collector.Contents(), gpuCount);
        return Ok(()), t;
      }
      if gpuDisabled {
        return Err(GpuDisabled), t;
      }
      if gpus == [] {
        return Err(NoGpus), t;
      }
      var report;
      report, t := Issue(collector, gpus, gpuCount);
      NoFailuresVerdict(t, gpus, AllItems(collector.Contents(), gpuCount));
      if report.failures != [] {
        return Err(UnitsFailed(|report.failures|)), t;
      }
      TooLargeWereReported(t, gpus, AllItems(collector.Contents(), gpuCount));
      result := Ok(());
    }
  }

  lemma TooLargeWereReported(t: Trace, gpus: seq<int>, all: multiset<Item>)
    requires WellScheduled(t, gpus) && Read(t).failures == [] && gpus != []
    requires Read(t).refused == Only(all, (n: int) => TooLarge(n, |gpus|))
    ensures forall i :: i in all ==> (SilentlyDropped(i.gpuCount, |gpus|) <==> i.gpuCount < 1)
  {
  }

  lemma {:induction false} AbsentSnoc(asked: seq<Spec>, present: seq<bool>, x: Spec, there: bool)
    requires |asked| == |present|
    ensures Absent(asked + [x], present + [there]) == Absent(asked, present) + if there then [] else [x]
  {
    if asked == [] {
      assert asked + [x] == [x] && present + [there] == [there] && [x][1..] == [] && [there][1..] == [];
    } else {
      assert (asked + [x])[1..] == asked[1..] + [x] && (present + [there])[1..] == present[1..] + [there];
      AbsentSnoc(asked[1..], present[1..], x, there);
    }
  }

  /** Recorded are exactly the asked specs not present, in the order they were asked. */
  lemma {:induction false} AbsentPlaces(asked: seq<Spec>, present: seq<bool>) returns (at: seq<nat>)
    requires |asked| == |present|
    ensures |at| == |Absent(asked, present)|
    ensures forall k :: 0 <= k < |at| ==> at[k] < |asked| && Absent(asked, present)[k] == asked[at[k]]
    ensures forall j, k :: 0 <= j < k < |at| ==> at[j] < at[k]
    ensures forall i :: i in at <==> 0 <= i < |asked| && !present[i]
  {
    if asked == [] {
      at := [];
    } else {
      var n := |asked| - 1;
      assert asked == asked[..n] + [asked[n]] && present == present[..n] + [present[n]];
      at := AbsentPlaces(asked[..n], present[..n]);
      AbsentSnoc(asked[..n], present[..n], asked[n], present[n]);
      hide Absent;
      if !present[n] {
        at := at + [n];
      }
    }
  }
}
