/** Where a sweep's experiment lives, and why launchers that hold nested directory leases never
    wait for each other in a circle (launcher/sweep.py:76-83, 127, 181-182, 425-426, 502-512). */
module SweepGeometry {

  /** A resolved path: its names from the file-system root, which is []. */
  type Path = seq<string>

  /** `Path.parent`; the root is its own parent. */
  function Parent(p: Path): (up: Path)
    ensures up <= p && (p != [] ==> |up| == |p| - 1)
  {
    if p == [] then [] else p[..|p| - 1]
  }

  /** `a in d.parents` is: strictly above. */
  predicate Above(a: Path, d: Path) {
    a <= d && a != d
  }

  /** The paths the sweep could use: at or above the parent of every run directory. */
  predicate Holds(a: Path, dirs: seq<Path>) {
    forall d :: d in dirs ==> a <= Parent(d)
  }

  lemma AboveIsUnderParent(a: Path, d: Path)
    ensures Above(a, d) || a == Parent(d) <==> a <= Parent(d)
    ensures d != [] ==> (a <= Parent(d) <==> Above(a, d))
  {
    if a <= Parent(d) {
      assert a <= d;
    }
    if Above(a, d) {
      assert a == d[..|a|] && Parent(d)[..|a|] == d[..|a|];
    }
  }

  /** Two prefixes of one path are comparable, so walking up from one never skips another. */
  lemma StepUp(a: Path, common: Path)
    requires a <= common && a != common
    ensures a <= Parent(common)
  {
    AboveIsUnderParent(a, common);
  }

  /** The deepest directory at or above the parent of every run directory. */
  method ExperimentRoot(dirs: seq<Path>, logs: Path) returns (common: Path)
    ensures dirs == [] ==> common == logs
    ensures dirs != [] ==> Holds(common, dirs) && forall a :: Holds(a, dirs) ==> a <= common
  {
    if dirs == [] {
      return logs;
    }
    common := Parent(dirs[0]);
    for i := 1 to |dirs|
      invariant forall d :: d in dirs[..i] ==> common <= Parent(d)
      invariant forall a :: Holds(a, dirs) ==> a <= common
    {
      var d := dirs[i];
      while !Above(common, d) && common != Parent(d)
        invariant forall e :: e in dirs[..i] ==> common <= Parent(e)
        invariant forall a :: Holds(a, dirs) ==> a <= common
        decreases |common|
      {
        AboveIsUnderParent(common, d);
        forall a | Holds(a, dirs) ensures a <= Parent(common) {
          assert a <= Parent(d);
          StepUp(a, common);
        }
        common := Parent(common);
      }
      AboveIsUnderParent(common, d);
      assert dirs[..i + 1] == dirs[..i] + [d];
    }
    assert dirs[..|dirs|] == dirs;
  }

  ghost predicate IsExperimentRoot(root: Path, dirs: seq<Path>) {
    dirs != [] && Holds(root, dirs) && forall a :: Holds(a, dirs) ==> a <= root
  }

  predicate AllBelow(a: Path, dirs: seq<Path>) {
    forall d :: d in dirs ==> Above(a, d)
  }

  lemma AllBelowHolds(a: Path, dirs: seq<Path>)
    requires [] !in dirs
    ensures AllBelow(a, dirs) <==> Holds(a, dirs)
  {
    forall d | d in dirs ensures Above(a, d) <==> a <= Parent(d) {
      AboveIsUnderParent(a, d);
    }
  }

  /** It is strictly above every run directory, and the deepest such, exactly when no run
      directory is the file-system root. */
  lemma RootIsStrictlyAbove(root: Path, dirs: seq<Path>)
    requires IsExperimentRoot(root, dirs)
    ensures AllBelow(root, dirs) <==> [] !in dirs
    ensures [] !in dirs ==> forall a :: AllBelow(a, dirs) ==> a <= root
  {
    if [] !in dirs {
      AllBelowHolds(root, dirs);
      forall a | AllBelow(a, dirs) ensures a <= root {
        AllBelowHolds(a, dirs);
      }
    }
  }

  // ---- the order of leases ---------------------------------------------------------------------

  datatype Resource =
    | Directory(path: Path)
    | SimulationSlot(launcher: nat)
    | AnalysisSlot(launcher: nat)
    | ProfileDatabase

  /** What one task of a launcher takes, in this order, keeping what it has: for a simulation, and
      for an analysis, which begins once slot and database have been given back. */
  function SweepRunLeases(launcher: nat, root: Path, run: Path): seq<Resource> {
    [Directory(root), Directory(run), SimulationSlot(launcher), ProfileDatabase]
  }

  function SweepAnalysisLeases(launcher: nat, root: Path, run: Path): seq<Resource> {
    [Directory(root), Directory(run), AnalysisSlot(launcher)]
  }

  function SingleRunLeases(launcher: nat, run: Path): seq<Resource> {
    [Directory(run), SimulationSlot(launcher), ProfileDatabase]
  }

  function SingleAnalysisLeases(launcher: nat, run: Path): seq<Resource> {
    [Directory(run), AnalysisSlot(launcher)]
  }

  function PrebuildLeases(held: Path): seq<Resource> {
    [Directory(held), ProfileDatabase]
  }

  function Class(r: Resource): nat {
    match r
    case Directory(_) => 0
    case SimulationSlot(_) => 1
    case AnalysisSlot(_) => 1
    case ProfileDatabase => 2
  }

  function Depth(r: Resource): nat {
    if r.Directory? then |r.path| else 0
  }

  /** Directories by depth, then a slot, then the database. */
  predicate Before(r: Resource, q: Resource) {
    Class(r) < Class(q) || (Class(r) == Class(q) && Depth(r) < Depth(q))
  }

  predicate Ordered(leases: seq<Resource>) {
    forall i, j :: 0 <= i < j < |leases| ==> Before(leases[i], leases[j])
  }

  /** A sweep's tasks climb the order exactly when no run directory is the file-system root; a
      run that is would wait for the lease its own sweep holds. */
  lemma LaunchersClimb(launcher: nat, root: Path, dirs: seq<Path>)
    requires IsExperimentRoot(root, dirs)
    ensures forall d :: d in dirs ==> (Ordered(SweepRunLeases(launcher, root, d)) <==> d != [])
    ensures forall d :: d in dirs ==> (Ordered(SweepAnalysisLeases(launcher, root, d)) <==> d != [])
    ensures forall d :: d in dirs ==> (root == d <==> d == [])
  {
    forall d | d in dirs
      ensures Ordered(SweepRunLeases(launcher, root, d)) <==> d != []
      ensures Ordered(SweepAnalysisLeases(launcher, root, d)) <==> d != []
      ensures root == d <==> d == []
    {
      AboveIsUnderParent(root, d);
      assert root <= Parent(d);
      SweepRunOrder(launcher, root, d);
    }
  }

  lemma SweepRunOrder(launcher: nat, root: Path, run: Path)
    ensures Ordered(SweepRunLeases(launcher, root, run)) <==> |root| < |run|
    ensures Ordered(SweepAnalysisLeases(launcher, root, run)) <==> |root| < |run|
  {
    var leases, later := SweepRunLeases(launcher, root, run), SweepAnalysisLeases(launcher, root, run);
    if Ordered(leases) {
      assert Before(leases[0], leases[1]);
    }
    if Ordered(later) {
      assert Before(later[0], later[1]);
    }
  }

  lemma OtherPlansClimb(launcher: nat, run: Path)
    ensures Ordered(SingleRunLeases(launcher, run)) && Ordered(SingleAnalysisLeases(launcher, run))
    ensures Ordered(PrebuildLeases(run))
  {
  }

  /** A task in progress: it has taken the first `taken` leases of its plan and wants the next. */
  datatype Task = Task(plan: seq<Resource>, taken: nat)

  predicate Waits(t: Task) {
    t.taken < |t.plan|
  }

  function Wanted(t: Task): Resource {
    if Waits(t) then t.plan[t.taken] else ProfileDatabase
  }

  predicate WaitsFor(t: Task, u: Task) {
    Waits(t) && exists i :: 0 <= i < u.taken && i < |u.plan| && u.plan[i] == Wanted(t)
  }

  ghost predicate Circle(tasks: seq<Task>) {
    && |tasks| > 0
    && (forall k :: 0 <= k < |tasks| - 1 ==> WaitsFor(tasks[k], tasks[k + 1]))
    && WaitsFor(tasks[|tasks| - 1], tasks[0])
  }

  lemma WaitClimbs(t: Task, u: Task)
    requires WaitsFor(t, u) && Waits(u) && Ordered(u.plan)
    ensures Before(Wanted(t), Wanted(u))
  {
  }

  lemma {:induction false} WaitsClimb(tasks: seq<Task>, k: nat)
    requires k < |tasks| && (forall t :: t in tasks ==> Ordered(t.plan) && Waits(t))
    requires forall i :: 0 <= i < |tasks| - 1 ==> WaitsFor(tasks[i], tasks[i + 1])
    ensures k > 0 ==> Before(Wanted(tasks[0]), Wanted(tasks[k]))
  {
    if k > 0 {
      WaitsClimb(tasks, k - 1);
      assert tasks[k] in tasks;
      WaitClimbs(tasks[k - 1], tasks[k]);
    }
  }

  /** Tasks that each take leases in the order, whatever launchers they belong to and however
      far each has come, never wait for one another in a circle. */
  lemma NoCircularWait(tasks: seq<Task>)
    requires forall t :: t in tasks ==> Ordered(t.plan)
    ensures !Circle(tasks)
  {
    if Circle(tasks) {
      var last := |tasks| - 1;
      forall t | t in tasks ensures Waits(t) {
        var k :| 0 <= k < |tasks| && tasks[k] == t;
        assert k < last ==> WaitsFor(tasks[k], tasks[k + 1]);
      }
      WaitsClimb(tasks, last);
      assert tasks[0] in tasks;
      WaitClimbs(tasks[last], tasks[0]);
      assert false;
    }
  }
}
