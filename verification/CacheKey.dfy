/** Which parameter sets share one cache build (launcher/cache_build.py:44-80). */
module CacheKey {
  import opened Common
  import opened Names

  type Value = string

  /** Where in a configuration the registry's walk finds a leaf: run-wide under workload or io, a
      pool's placement, and a group's own fields and those of its arch and worker blocks
      (launcher/schema/loader.py:282-352). */
  datatype Place =
    | Deployment
    | Workload(name: string)
    | Io(name: string)
    | Placement(role: string)
    | Gpu(role: string, group: nat)
    | Replicas(role: string, group: nat)
    | Block(role: string, group: nat, isArch: bool, name: string)

  datatype Slot = Slot(place: Place, affectsCache: bool, present: bool, value: Value)

  /** The provider tags of one worker group; None when the block or its `type` is missing. */
  datatype Group = Group(arch: Option<Value>, worker: Option<Value>)

  datatype Pool = Pool(role: string, groups: seq<Group>)

  datatype Config = Config(logDir: string, deployment: Option<Value>, slots: seq<Slot>, pools: seq<Pool>)

  /** What the key is made of. A provider tag stands in its block as `type`. */
  datatype Item = Item(place: Place, value: Option<Value>)

  /** As it stands in the key: a dotted name and a value. */
  datatype Entry = Entry(name: string, value: Option<Value>)

  type Key = seq<Entry>

  function BlockName(isArch: bool): string {
    if isArch then "arch" else "worker"
  }

  /** What follows the role. */
  function Tail(p: Place): seq<string>
    requires p.Placement? || p.Gpu? || p.Replicas? || p.Block?
  {
    match p
    case Placement(_) => ["placement"]
    case Gpu(_, group) => ["groups", Decimal(group), "gpu"]
    case Replicas(_, group) => ["groups", Decimal(group), "replicas"]
    case Block(_, group, isArch, name) => ["groups", Decimal(group), BlockName(isArch), name]
  }

  function PathOf(p: Place): seq<string> {
    match p
    case Deployment => ["deployment"]
    case Workload(name) => ["workload", name]
    case Io(name) => ["io", name]
    case _ => ["pools", p.role] + Tail(p)
  }

  function EntryOf(x: Item): Entry {
    Entry(Join(PathOf(x.place)), x.value)
  }

  function Entries(items: seq<Item>): seq<Entry> {
    if items == [] then [] else Entries(items[..|items| - 1]) + [EntryOf(items[|items| - 1])]
  }

  // ---- the items in the order they are collected ------------------------------------------------

  function SlotItems(slots: seq<Slot>): seq<Item> {
    if slots == [] then []
    else
      var s := slots[|slots| - 1];
      SlotItems(slots[..|slots| - 1]) + if s.affectsCache && s.present then [Item(s.place, Some(s.value))] else []
  }

  function TagItem(role: string, at: nat, isArch: bool, tag: Option<Value>): seq<Item> {
    if tag.Some? then [Item(Block(role, at, isArch, "type"), tag)] else []
  }

  function GroupItems(role: string, groups: seq<Group>): seq<Item> {
    if groups == [] then []
    else
      var at := |groups| - 1;
      GroupItems(role, groups[..at]) + TagItem(role, at, true, groups[at].arch) + TagItem(role, at, false, groups[at].worker)
  }

  function PoolItems(pools: seq<Pool>): seq<Item> {
    if pools == [] then []
    else
      var last := pools[|pools| - 1];
      PoolItems(pools[..|pools| - 1]) + GroupItems(last.role, last.groups)
  }

  function Items(c: Config): seq<Item> {
    [Item(Deployment, c.deployment)] + SlotItems(c.slots) + PoolItems(c.pools)
  }

  // ---- sorting ----------------------------------------------------------------------------------

  predicate ValueBefore(a: Option<Value>, b: Option<Value>) {
    b.Some? && (a.None? || Before(a.value, b.value))
  }

  predicate NotAfter(a: Entry, b: Entry) {
    a == b || Before(a.name, b.name) || (a.name == b.name && ValueBefore(a.value, b.value))
  }

  lemma NotAfterIsTotal(a: Entry, b: Entry)
    ensures NotAfter(a, b) || NotAfter(b, a)
    ensures NotAfter(a, b) && NotAfter(b, a) ==> a == b
  {
    BeforeIsTotal(a.name, b.name);
    if a.value.Some? && b.value.Some? {
      BeforeIsTotal(a.value.value, b.value.value);
    }
  }

  lemma NotAfterIsTransitive(a: Entry, b: Entry, c: Entry)
    requires NotAfter(a, b) && NotAfter(b, c)
    ensures NotAfter(a, c)
  {
    if Before(a.name, b.name) && Before(b.name, c.name) {
      BeforeIsTransitive(a.name, b.name, c.name);
    }
    if a.value.Some? && b.value.Some? && c.value.Some? && Before(a.value.value, b.value.value) && Before(b.value.value, c.value.value) {
      BeforeIsTransitive(a.value.value, b.value.value, c.value.value);
    }
  }

  predicate Ordered(k: Key) {
    forall i, j :: 0 <= i < j < |k| ==> NotAfter(k[i], k[j])
  }

  function Insert(x: Entry, k: Key): Key {
    if k == [] || NotAfter(x, k[0]) then [x] + k else [k[0]] + Insert(x, k[1..])
  }

  /** `sorted`. */
  function Sort(entries: seq<Entry>): Key {
    if entries == [] then [] else Insert(entries[0], Sort(entries[1..]))
  }

  lemma {:induction false} InsertFacts(x: Entry, k: Key)
    requires Ordered(k)
    ensures Ordered(Insert(x, k)) && multiset(Insert(x, k)) == multiset(k) + multiset{x}
  {
    hide NotAfter;
    if k == [] || NotAfter(x, k[0]) {
      forall j | 0 <= j < |k| ensures NotAfter(x, k[j]) {
        if j > 0 {
          NotAfterIsTransitive(x, k[0], k[j]);
        }
      }
    } else {
      InsertFacts(x, k[1..]);
      var rest := Insert(x, k[1..]);
      assert k == [k[0]] + k[1..];
      NotAfterIsTotal(x, k[0]);
      forall j | 0 <= j < |rest| ensures NotAfter(k[0], rest[j]) {
        assert rest[j] in multiset(rest);
        assert rest[j] in k[1..] || rest[j] == x;
      }
    }
  }

  lemma {:induction false} SortFacts(entries: seq<Entry>)
    ensures Ordered(Sort(entries)) && multiset(Sort(entries)) == multiset(entries)
  {
    if entries != [] {
      SortFacts(entries[1..]);
      InsertFacts(entries[0], Sort(entries[1..]));
      assert entries == [entries[0]] + entries[1..];
    }
  }

  lemma {:induction false} OrderedIsUnique(a: Key, b: Key)
    requires Ordered(a) && Ordered(b) && multiset(a) == multiset(b)
    ensures a == b
    decreases |a|
  {
    hide NotAfter;
    if a == [] {
      NothingElse(b);
    } else {
      SameFirst(a, b);
      TailsAgree(a, b);
      OrderedRest(a);
      OrderedRest(b);
      hide Ordered;
      OrderedIsUnique(a[1..], b[1..]);
      HeadAndTail(a, b);
    }
  }

  lemma HeadAndTail<T>(a: seq<T>, b: seq<T>)
    requires a != [] && b != [] && a[0] == b[0] && a[1..] == b[1..]
    ensures a == b
  {
    assert a == [a[0]] + a[1..] && b == [b[0]] + b[1..];
  }

  lemma OrderedRest(k: Key)
    requires Ordered(k) && k != []
    ensures Ordered(k[1..])
  {
    hide NotAfter;
  }

  lemma SameFirst(a: Key, b: Key)
    requires Ordered(a) && Ordered(b) && multiset(a) == multiset(b) && a != []
    ensures b != [] && a[0] == b[0]
  {
    hide Ordered, NotAfter;
    assert a[0] in multiset(b);
    assert b[0] in multiset(a);
    LeastIsFirst(a, b[0]);
    LeastIsFirst(b, a[0]);
    NotAfterIsTotal(a[0], b[0]);
  }

  lemma LeastIsFirst(k: Key, x: Entry)
    requires Ordered(k) && x in k
    ensures NotAfter(k[0], x)
  {
    var i :| 0 <= i < |k| && k[i] == x;
  }

  /** Sorted, two lists are equal exactly when they hold the same entries as often. */
  lemma SortIsCanonical(a: seq<Entry>, b: seq<Entry>)
    ensures Sort(a) == Sort(b) <==> multiset(a) == multiset(b)
  {
    SortFacts(a);
    SortFacts(b);
    if multiset(a) == multiset(b) {
      OrderedIsUnique(Sort(a), Sort(b));
    }
  }

  // ---- the key -----------------------------------------------------------------------------------

  function KeyOf(c: Config): Key {
    Sort(Entries(Items(c)))
  }

  lemma {:induction false} EntriesAppend(a: seq<Item>, b: seq<Item>)
    ensures Entries(a + b) == Entries(a) + Entries(b)
  {
    if b == [] {
      assert a + b == a;
    } else {
      assert (a + b)[..|a + b| - 1] == a + b[..|b| - 1];
      EntriesAppend(a, b[..|b| - 1]);
    }
  }

  lemma SlotItemsSnoc(slots: seq<Slot>, i: nat)
    requires i < |slots|
    ensures SlotItems(slots[..i + 1]) == SlotItems(slots[..i]) +
      if slots[i].affectsCache && slots[i].present then [Item(slots[i].place, Some(slots[i].value))] else []
  {
    assert slots[..i + 1][..i] == slots[..i];
  }

  lemma GroupItemsSnoc(role: string, groups: seq<Group>, i: nat)
    requires i < |groups|
    ensures GroupItems(role, groups[..i + 1]) ==
      GroupItems(role, groups[..i]) + TagItem(role, i, true, groups[i].arch) + TagItem(role, i, false, groups[i].worker)
  {
    assert groups[..i + 1][..i] == groups[..i];
  }

  lemma PoolItemsSnoc(pools: seq<Pool>, i: nat)
    requires i < |pools|
    ensures PoolItems(pools[..i + 1]) == PoolItems(pools[..i]) + GroupItems(pools[i].role, pools[i].groups)
  {
    assert pools[..i + 1][..i] == pools[..i];
  }

  lemma OneEntry(x: Item)
    ensures Entries([x]) == [EntryOf(x)]
  {
    assert [x][..0] == [];
  }

  method CacheKey(c: Config) returns (key: Key)
    ensures key == KeyOf(c)
  {
    hide SlotItems, GroupItems, PoolItems, TagItem, Entries, EntryOf, Sort;
    var entries := [Entry("deployment", c.deployment)];
    ghost var items := [Item(Deployment, c.deployment)];
    NothingYet(c.deployment);
    for i := 0 to |c.slots|
      invariant items == [Item(Deployment, c.deployment)] + SlotItems(c.slots[..i]) && entries == Entries(items)
    {
      var slot := c.slots[i];
      SlotItemsSnoc(c.slots, i);
      if slot.affectsCache && slot.present {
        entries := entries + [Entry(Join(PathOf(slot.place)), Some(slot.value))];
        ghost var x := Item(slot.place, Some(slot.value));
        ItsEntry(x);
        EntriesAppend(items, [x]);
        OneEntry(x);
        items := items + [x];
      }
    }
    assert c.slots[..|c.slots|] == c.slots;
    ghost var before := items;
    for p := 0 to |c.pools|
      invariant items == before + PoolItems(c.pools[..p]) && entries == Entries(items)
    {
      PoolItemsSnoc(c.pools, p);
      var added := GroupTags(c.pools[p]);
      EntriesAppend(items, GroupItems(c.pools[p].role, c.pools[p].groups));
      entries := entries + added;
      items := items + GroupItems(c.pools[p].role, c.pools[p].groups);
    }
    assert c.pools[..|c.pools|] == c.pools;
    key := Sort(entries);
  }

  lemma NothingYet(deployment: Option<Value>)
    ensures SlotItems([]) == [] && PoolItems([]) == [] && (forall r :: GroupItems(r, []) == []) && Entries([]) == []
    ensures Entries([Item(Deployment, deployment)]) == [Entry("deployment", deployment)]
  {
    OneEntry(Item(Deployment, deployment));
  }

  lemma ItsEntry(x: Item)
    ensures EntryOf(x) == Entry(Join(PathOf(x.place)), x.value)
  {
  }

  /** `f"pools.{role}.groups.{gi}.{block}.type"`. */
  function TagName(role: string, group: nat, block: string): string {
    "pools." + role + ".groups." + Decimal(group) + "." + block + ".type"
  }

  lemma TagEntry(role: string, group: nat, isArch: bool, tag: Option<Value>)
    ensures Entries(TagItem(role, group, isArch, tag)) ==
      if tag.Some? then [Entry(TagName(role, group, BlockName(isArch)), tag)] else []
  {
    var place := Block(role, group, isArch, "type");
    assert PathOf(place) == ["pools", role, "groups", Decimal(group), BlockName(isArch), "type"];
    if tag.Some? {
      OneEntry(Item(place, tag));
      hide PathOf, Join;
      JoinOfSix("pools", role, "groups", Decimal(group), BlockName(isArch), "type");
      TagNameJoins(role, Decimal(group), BlockName(isArch));
    }
  }

  lemma TagNameJoins(role: string, group: string, block: string)
    ensures "pools." + role + ".groups." + group + "." + block + ".type"
         == "pools" + "." + role + "." + "groups" + "." + group + "." + block + "." + "type"
  {
    assert "pools" + "." == "pools." && "." + "groups" + "." == ".groups." && "." + "type" == ".type";
    var before := "pools." + role;
    assert before + "." + "groups" + "." == before + ".groups.";
    var front := before + ".groups." + group + "." + block;
    assert front + "." + "type" == front + ".type";
  }

  lemma JoinOfSix(a: string, b: string, c: string, d: string, e: string, f: string)
    ensures Join([a, b, c, d, e, f]) == a + "." + b + "." + c + "." + d + "." + e + "." + f
  {
    assert [a, b, c, d, e, f][1..] == [b, c, d, e, f] && [b, c, d, e, f][1..] == [c, d, e, f];
    assert [c, d, e, f][1..] == [d, e, f] && [d, e, f][1..] == [e, f] && [e, f][1..] == [f];
    assert Join([e, f]) == e + "." + f;
    assert Join([d, e, f]) == d + "." + Join([e, f]);
    assert Join([c, d, e, f]) == c + "." + Join([d, e, f]);
    assert Join([b, c, d, e, f]) == b + "." + Join([c, d, e, f]);
  }

  /** The inner loop over one pool's groups. */
  method GroupTags(pool: Pool) returns (added: seq<Entry>)
    ensures added == Entries(GroupItems(pool.role, pool.groups))
  {
    hide GroupItems, TagItem, Entries, TagName;
    NothingYet(None);
    added := [];
    ghost var items := [];
    for g := 0 to |pool.groups|
      invariant items == GroupItems(pool.role, pool.groups[..g]) && added == Entries(items)
    {
      var group := pool.groups[g];
      ghost var arch, worker := TagItem(pool.role, g, true, group.arch), TagItem(pool.role, g, false, group.worker);
      GroupItemsSnoc(pool.role, pool.groups, g);
      TagEntry(pool.role, g, true, group.arch);
      TagEntry(pool.role, g, false, group.worker);
      EntriesAppend(items, arch);
      EntriesAppend(items + arch, worker);
      if group.arch.Some? {
        added := added + [Entry(TagName(pool.role, g, BlockName(true)), group.arch)];
      }
      if group.worker.Some? {
        added := added + [Entry(TagName(pool.role, g, BlockName(false)), group.worker)];
      }
      items := items + arch + worker;
    }
    assert pool.groups[..|pool.groups|] == pool.groups;
  }

  // ---- when two parameter sets share a build -----------------------------------------------------

  /** They agree on the deployment, on the tagged leaves they set, and on every provider tag. */
  ghost predicate SameKernels(a: Config, b: Config) {
    multiset(Items(a)) == multiset(Items(b))
  }

  lemma EntriesWithout(items: seq<Item>, k: nat)
    requires k < |items|
    ensures multiset(Entries(items)) == multiset(Entries(items[..k] + items[k+1..])) + multiset{EntryOf(items[k])}
  {
    hide Entries, EntryOf;
    var front, x, back := items[..k], items[k], items[k+1..];
    assert items == front + [x] + back;
    EntriesAppend(front + [x], back);
    EntriesAppend(front, [x]);
    EntriesAppend(front, back);
    OneEntry(x);
    Spread(Entries(front), EntryOf(x), Entries(back));
  }

  lemma Spread<T>(front: seq<T>, x: T, back: seq<T>)
    ensures multiset(front + [x] + back) == multiset(front + back) + multiset{x}
  {
  }

  lemma {:induction false} SameItemsSameEntries(a: seq<Item>, b: seq<Item>)
    requires multiset(a) == multiset(b)
    ensures multiset(Entries(a)) == multiset(Entries(b))
    decreases |a|
  {
    hide Entries, EntryOf;
    if a == [] {
      NothingElse(b);
    } else {
      var k := PlaceOf(b, a);
      RestsAgree(a, b, k);
      EntriesWithout(a, 0);
      EntriesWithout(b, k);
      assert a[..0] + a[1..] == a[1..];
      SameItemsSameEntries(a[1..], b[..k] + b[k+1..]);
    }
  }

  /** No two different items of the list become one entry. */
  ghost predicate ToldApart(items: seq<Item>) {
    forall x, y :: x in items && y in items && EntryOf(x) == EntryOf(y) ==> x == y
  }

  lemma {:induction false} EntryCount(items: seq<Item>, all: seq<Item>, x: Item)
    requires ToldApart(all) && x in all && forall y :: y in items ==> y in all
    ensures multiset(Entries(items))[EntryOf(x)] == multiset(items)[x]
  {
    if items != [] {
      var init, y := items[..|items| - 1], items[|items| - 1];
      assert items == init + [y];
      EntryCount(init, all, x);
      hide EntryOf;
      assert EntryOf(y) == EntryOf(x) <==> y == x;
    }
  }

  lemma SameEntriesSameItems(a: seq<Item>, b: seq<Item>)
    requires ToldApart(a + b) && multiset(Entries(a)) == multiset(Entries(b))
    ensures multiset(a) == multiset(b)
  {
    hide Entries, EntryOf, ToldApart;
    forall x ensures multiset(a)[x] == multiset(b)[x] {
      if x in a + b {
        EntryCount(a, a + b, x);
        EntryCount(b, a + b, x);
      } else {
        assert x !in a && x !in b;
      }
    }
  }

  /** Named as the registry names its parameters, by identifiers, with `placement` kept for the
      pools; the roles may be any strings. */
  predicate Registered(p: Place) {
    match p
    case Workload(name) => NoDot(name)
    case Io(name) => NoDot(name)
    case Block(_, _, _, name) => NoDot(name) && name != "placement"
    case _ => true
  }

  predicate InPool(p: Place) {
    p.Placement? || p.Gpu? || p.Replicas? || p.Block?
  }

  lemma SplitPoolName(p: Place)
    requires Registered(p) && InPool(p)
    ensures SplitDots(Join(PathOf(p))) == ["pools"] + SplitDots(p.role) + Tail(p)
    ensures SplitDots(p.role) != []
  {
    if !p.Placement? {
      DecimalThenDigits(p.group);
    }
    SplitAround("pools", p.role, Tail(p));
  }

  lemma SplitOtherName(p: Place)
    requires Registered(p) && !InPool(p)
    ensures SplitDots(Join(PathOf(p))) == PathOf(p)
  {
    JoinThenSplit(PathOf(p));
  }

  /** Read from the right, the fixed words tell where the role ends. */
  lemma TailIsKnown(p: Place, q: Place, front: seq<string>, other: seq<string>)
    requires Registered(p) && InPool(p) && Registered(q) && InPool(q)
    requires front + Tail(p) == other + Tail(q)
    ensures front == other && Tail(p) == Tail(q)
    ensures q == match p
            case Placement(_) => Placement(q.role)
            case Gpu(_, group) => Gpu(q.role, group)
            case Replicas(_, group) => Replicas(q.role, group)
            case Block(_, group, isArch, name) => Block(q.role, group, isArch, name)
  {
    var all := front + Tail(p);
    var n := |all|;
    assert all[n - 1] == Tail(p)[|Tail(p)| - 1] == Tail(q)[|Tail(q)| - 1];
    if !p.Placement? && !q.Placement? {
      DecimalThenDigits(p.group);
      DecimalThenDigits(q.group);
      assert Digits("arch") == None && Digits("worker") == None by { WordsAreNoNumbers(); }
      assert all[n - 2] == Tail(p)[|Tail(p)| - 2] == Tail(q)[|Tail(q)| - 2];
      assert |Tail(p)| == |Tail(q)|;
    }
    assert |Tail(p)| == |Tail(q)|;
    assert front == all[..n - |Tail(p)|] && other == all[..n - |Tail(q)|];
    assert Tail(p) == all[n - |Tail(p)|..] && Tail(q) == all[n - |Tail(q)|..];
    if !p.Placement? {
      assert Tail(p)[1] == Tail(q)[1];
    }
    if p.Block? {
      assert Tail(p)[2] == Tail(q)[2] && Tail(p)[3] == Tail(q)[3];
    }
  }

  lemma WordsAreNoNumbers()
    ensures Digits("arch") == None && Digits("worker") == None
  {
    assert "arch"[3] == 'h' && "worker"[5] == 'r';
  }

  lemma SamePoolName(p: Place, q: Place)
    requires Registered(p) && InPool(p) && Registered(q) && InPool(q) && Join(PathOf(p)) == Join(PathOf(q))
    ensures p == q
  {
    SplitPoolName(p);
    SplitPoolName(q);
    TailIsKnown(p, q, ["pools"] + SplitDots(p.role), ["pools"] + SplitDots(q.role));
    assert (["pools"] + SplitDots(p.role))[1..] == SplitDots(p.role);
    assert (["pools"] + SplitDots(q.role))[1..] == SplitDots(q.role);
    SplitThenJoin(p.role);
    SplitThenJoin(q.role);
  }

  lemma FirstWord(p: Place)
    requires Registered(p)
    ensures InPool(p) <==> SplitDots(Join(PathOf(p)))[0] == "pools"
  {
    if InPool(p) {
      SplitPoolName(p);
    } else {
      SplitOtherName(p);
    }
  }

  lemma SameNameSamePlace(p: Place, q: Place)
    requires Registered(p) && Registered(q) && Join(PathOf(p)) == Join(PathOf(q))
    ensures p == q
  {
    FirstWord(p);
    FirstWord(q);
    if InPool(p) {
      SamePoolName(p, q);
    } else {
      SplitOtherName(p);
      SplitOtherName(q);
      assert PathOf(p)[|PathOf(p)| - 1] == PathOf(q)[|PathOf(q)| - 1];
    }
  }

  lemma RegisteredIsToldApart(items: seq<Item>)
    requires forall x :: x in items ==> Registered(x.place)
    ensures ToldApart(items)
  {
    forall x, y | x in items && y in items && EntryOf(x) == EntryOf(y) ensures x == y {
      SameNameSamePlace(x.place, y.place);
    }
  }

  /** The walk yields only such leaves. */
  predicate WellNamed(c: Config) {
    forall s :: s in c.slots ==> Registered(s.place) && !s.place.Deployment?
  }

  lemma {:induction false} SlotItemsRegistered(slots: seq<Slot>)
    requires forall s :: s in slots ==> Registered(s.place)
    ensures forall x :: x in SlotItems(slots) ==> Registered(x.place)
  {
    if slots != [] {
      SlotItemsRegistered(slots[..|slots| - 1]);
    }
  }

  lemma {:induction false} GroupItemsRegistered(role: string, groups: seq<Group>)
    ensures forall x :: x in GroupItems(role, groups) ==> Registered(x.place)
  {
    if groups != [] {
      GroupItemsRegistered(role, groups[..|groups| - 1]);
    }
  }

  lemma {:induction false} PoolItemsRegistered(pools: seq<Pool>)
    ensures forall x :: x in PoolItems(pools) ==> Registered(x.place)
  {
    if pools != [] {
      PoolItemsRegistered(pools[..|pools| - 1]);
      GroupItemsRegistered(pools[|pools| - 1].role, pools[|pools| - 1].groups);
    }
  }

  lemma ItemsRegistered(c: Config)
    requires WellNamed(c)
    ensures forall x :: x in Items(c) ==> Registered(x.place)
  {
    SlotItemsRegistered(c.slots);
    PoolItemsRegistered(c.pools);
  }

  /** Parameter sets that differ only in what is not tagged share a key; and, as the registry names
      its parameters, sets of one key agree on the deployment, on the tagged leaves they set, and
      on every provider tag, whatever their roles are called. */
  lemma SharedBuild(a: Config, b: Config)
    ensures SameKernels(a, b) ==> KeyOf(a) == KeyOf(b)
    ensures WellNamed(a) && WellNamed(b) ==> (KeyOf(a) == KeyOf(b) <==> SameKernels(a, b))
  {
    SortIsCanonical(Entries(Items(a)), Entries(Items(b)));
    if SameKernels(a, b) {
      SameItemsSameEntries(Items(a), Items(b));
    } else if KeyOf(a) == KeyOf(b) && WellNamed(a) && WellNamed(b) {
      ItemsRegistered(a);
      ItemsRegistered(b);
      RegisteredIsToldApart(Items(a) + Items(b));
      SameEntriesSameItems(Items(a), Items(b));
    }
  }

  // ---- one representative per key ---------------------------------------------------------

  function Keys(configs: seq<Config>): set<Key> {
    set i | 0 <= i < |configs| :: KeyOf(configs[i])
  }

  function Representatives(configs: seq<Config>): seq<Config> {
    if configs == [] then []
    else
      var init, last := configs[..|configs| - 1], configs[|configs| - 1];
      Representatives(init) + if KeyOf(last) in Keys(init) then [] else [last]
  }

  lemma RepresentativesSnoc(configs: seq<Config>, i: nat)
    requires i < |configs|
    ensures Representatives(configs[..i + 1]) ==
      Representatives(configs[..i]) + if KeyOf(configs[i]) in Keys(configs[..i]) then [] else [configs[i]]
    ensures Keys(configs[..i + 1]) == Keys(configs[..i]) + {KeyOf(configs[i])}
  {
    hide KeyOf, Keys;
    assert configs[..i + 1][..i] == configs[..i] && configs[..i + 1] == configs[..i] + [configs[i]];
    KeysSnoc(configs[..i], configs[i]);
  }

  method UniqueByCacheKey(configs: seq<Config>) returns (representatives: seq<Config>)
    ensures representatives == Representatives(configs)
  {
    hide KeyOf;
    var seen: set<Key> := {};
    representatives := [];
    assert Keys(configs[..0]) == {};
    hide Keys;
    for i := 0 to |configs|
      invariant seen == Keys(configs[..i])
      invariant representatives == Representatives(configs[..i])
    {
      var key := CacheKey(configs[i]);
      RepresentativesSnoc(configs, i);
      if key !in seen {
        seen := seen + {key};
        representatives := representatives + [configs[i]];
      }
    }
    assert configs[..|configs|] == configs;
  }

  lemma KeysSnoc(configs: seq<Config>, c: Config)
    ensures Keys(configs + [c]) == Keys(configs) + {KeyOf(c)}
  {
    hide KeyOf;
    var more := configs + [c];
    assert more[|configs|] == c;
    forall k | k in Keys(configs) ensures k in Keys(more) {
      var i :| 0 <= i < |configs| && KeyOf(configs[i]) == k;
      assert more[i] == configs[i];
    }
  }

  ghost predicate DistinctKeys(r: seq<Config>) {
    forall i, j :: 0 <= i < j < |r| ==> KeyOf(r[i]) != KeyOf(r[j])
  }

  lemma KeyIn(configs: seq<Config>, i: nat)
    requires i < |configs|
    ensures KeyOf(configs[i]) in Keys(configs)
  {
    hide KeyOf;
  }

  /** No key twice, no key lost, and only sets that were given. */
  lemma {:induction false} RepresentativesFacts(configs: seq<Config>)
    ensures Keys(Representatives(configs)) == Keys(configs)
    ensures DistinctKeys(Representatives(configs))
    ensures forall c :: c in Representatives(configs) ==> c in configs
  {
    hide KeyOf, Keys;
    if configs == [] {
      assert Representatives(configs) == configs;
    } else {
      var init, last := configs[..|configs| - 1], configs[|configs| - 1];
      RepresentativesFacts(init);
      assert configs == init + [last];
      KeysSnoc(init, last);
      var r := Representatives(init);
      KeysSnoc(r, last);
      if KeyOf(last) !in Keys(init) {
        forall i | 0 <= i < |r| ensures KeyOf(r[i]) != KeyOf(last) {
          KeyIn(r, i);
        }
      } else {
        assert r + [] == r;
      }
    }
  }

  /** Each key is represented by the first parameter set that has it. */
  lemma {:induction false} FirstIsRepresentative(configs: seq<Config>, i: nat)
    requires i < |configs| && KeyOf(configs[i]) !in Keys(configs[..i])
    ensures configs[i] in Representatives(configs)
  {
    hide KeyOf, Keys;
    if i < |configs| - 1 {
      assert configs[..|configs| - 1][..i] == configs[..i];
      FirstIsRepresentative(configs[..|configs| - 1], i);
    }
  }

  // ---- what the sets agree on ------------------------------------------------------------------------

  /** A leaf the configuration sets, of a parameter tagged as affecting the cache. */
  predicate Sets(c: Config, p: Place, value: Value) {
    Slot(p, true, true, value) in c.slots
  }

  /** A provider tag of one of its groups. */
  predicate HasTag(c: Config, role: string, group: nat, isArch: bool, tag: Value) {
    exists k :: 0 <= k < |c.pools| && c.pools[k].role == role && group < |c.pools[k].groups|
      && (if isArch then c.pools[k].groups[group].arch else c.pools[k].groups[group].worker) == Some(tag)
  }

  predicate TagOf(c: Config, x: Item) {
    x.place.Block? && x.place.name == "type" && x.value.Some?
    && HasTag(c, x.place.role, x.place.group, x.place.isArch, x.value.value)
  }

  lemma {:induction false} SlotItemsAre(slots: seq<Slot>, x: Item)
    ensures x in SlotItems(slots) <==> x.value.Some? && Slot(x.place, true, true, x.value.value) in slots
  {
    if slots != [] {
      var init, last := slots[..|slots| - 1], slots[|slots| - 1];
      assert slots == init + [last];
      SlotItemsAre(init, x);
    }
  }

  predicate GroupTag(role: string, groups: seq<Group>, x: Item) {
    && x.place.Block? && x.place.name == "type" && x.place.role == role && x.place.group < |groups| && x.value.Some?
    && (if x.place.isArch then groups[x.place.group].arch else groups[x.place.group].worker) == x.value
  }

  lemma {:induction false} GroupItemsAre(role: string, groups: seq<Group>, x: Item)
    ensures x in GroupItems(role, groups) <==> GroupTag(role, groups, x)
  {
    if groups != [] {
      GroupItemsAre(role, groups[..|groups| - 1], x);
    }
  }

  lemma {:induction false} PoolItemsAre(pools: seq<Pool>, x: Item)
    ensures x in PoolItems(pools) <==> exists k :: 0 <= k < |pools| && GroupTag(pools[k].role, pools[k].groups, x)
  {
    if pools != [] {
      var init, last := pools[..|pools| - 1], pools[|pools| - 1];
      PoolItemsAre(init, x);
      GroupItemsAre(last.role, last.groups, x);
      if k :| 0 <= k < |init| && GroupTag(init[k].role, init[k].groups, x) {
        assert GroupTag(pools[k].role, pools[k].groups, x);
      }
      if GroupTag(last.role, last.groups, x) {
        assert GroupTag(pools[|pools| - 1].role, pools[|pools| - 1].groups, x);
      }
    }
  }

  /** What a configuration says of the kernels: its deployment, a tagged leaf it sets, a provider tag. */
  predicate Mentions(c: Config, x: Item) {
    x == Item(Deployment, c.deployment) || (x.value.Some? && Sets(c, x.place, x.value.value)) || TagOf(c, x)
  }

  lemma ItemsAre(c: Config, x: Item)
    ensures x in Items(c) <==> Mentions(c, x)
  {
    SlotItemsAre(c.slots, x);
    PoolItemsAre(c.pools, x);
    if k :| 0 <= k < |c.pools| && GroupTag(c.pools[k].role, c.pools[k].groups, x) {
      assert TagOf(c, x);
    }
    if TagOf(c, x) {
      var k :| 0 <= k < |c.pools| && c.pools[k].role == x.place.role && x.place.group < |c.pools[k].groups|
        && (if x.place.isArch then c.pools[k].groups[x.place.group].arch else c.pools[k].groups[x.place.group].worker)
          == Some(x.value.value);
      assert GroupTag(c.pools[k].role, c.pools[k].groups, x);
    }
  }

  lemma {:induction false} SameMembers<T(!new)>(a: seq<T>, b: seq<T>)
    requires Distinct(a) && Distinct(b) && forall x :: x in a <==> x in b
    ensures multiset(a) == multiset(b)
  {
    forall x ensures multiset(a)[x] == multiset(b)[x] {
      OnceEach(a, x);
      OnceEach(b, x);
    }
  }

  lemma {:induction false} OnceEach<T>(a: seq<T>, x: T)
    requires Distinct(a)
    ensures multiset(a)[x] == if x in a then 1 else 0
  {
    if a != [] {
      assert a == [a[0]] + a[1..];
      OnceEach(a[1..], x);
    }
  }

  /** Sets of one key say the same of the kernels; and sets that do, and find no leaf twice, have one
      key. */
  lemma KeyMeans(a: Config, b: Config)
    ensures WellNamed(a) && WellNamed(b) && KeyOf(a) == KeyOf(b) ==>
      a.deployment == b.deployment && forall x :: Mentions(a, x) <==> Mentions(b, x)
    ensures Distinct(Items(a)) && Distinct(Items(b)) && (forall x :: Mentions(a, x) <==> Mentions(b, x)) ==>
      KeyOf(a) == KeyOf(b)
  {
    SharedBuild(a, b);
    forall x ensures x in Items(a) <==> Mentions(a, x) {
      ItemsAre(a, x);
    }
    forall x ensures x in Items(b) <==> Mentions(b, x) {
      ItemsAre(b, x);
    }
    if WellNamed(a) && WellNamed(b) && KeyOf(a) == KeyOf(b) {
      assert forall x :: x in Items(a) <==> x in multiset(Items(a));
      assert forall x :: x in Items(b) <==> x in multiset(Items(b));
      assert Mentions(a, Item(Deployment, a.deployment)) && Mentions(b, Item(Deployment, a.deployment));
    }
    hide Mentions, Items, KeyOf;
    if Distinct(Items(a)) && Distinct(Items(b)) && forall x :: Mentions(a, x) <==> Mentions(b, x) {
      SameMembers(Items(a), Items(b));
    }
  }
}
