/** Exactly which directories and files `create_phase_structure` creates: the write
    plan of a run, as sets of paths, with nothing beyond what the phases call for. */
module RunLayout {
  import opened Text
  import opened PlanModel
  import opened Materializer

  /** The paths `f(base, n, i)` of the tasks `1..count` of phase `n`. */
  function IndexPaths(base: Path, n: nat, count: nat, f: (Path, nat, nat) -> Path): set<Path> {
    set i: nat | 1 <= i <= count :: f(base, n, i)
  }

  /** The path `g(base, number)` of every phase. */
  function PhasePaths(base: Path, ps: seq<PhaseData>, g: (Path, nat) -> Path): set<Path> {
    set k | 0 <= k < |ps| :: g(base, ps[k].number)
  }

  /** The path `f(base, number, i)` of every task `i` of every phase. */
  function TaskPaths(base: Path, ps: seq<PhaseData>, f: (Path, nat, nat) -> Path): set<Path> {
    set k, i: nat | 0 <= k < |ps| && 1 <= i <= |ps[k].tasks| :: f(base, ps[k].number, i)
  }

  lemma IndexPathsSnoc(base: Path, n: nat, count: nat, f: (Path, nat, nat) -> Path)
    requires count >= 1
    ensures IndexPaths(base, n, count, f) == IndexPaths(base, n, count - 1, f) + {f(base, n, count)}
  {
  }

  lemma PhasePathsSnoc(base: Path, ps: seq<PhaseData>, g: (Path, nat) -> Path)
    requires ps != []
    ensures PhasePaths(base, ps, g) == PhasePaths(base, ps[..|ps| - 1], g) + {g(base, ps[|ps| - 1].number)}
  {
    var init := ps[..|ps| - 1];
    forall d | d in PhasePaths(base, init, g)
      ensures d in PhasePaths(base, ps, g)
    {
      var k :| 0 <= k < |init| && d == g(base, init[k].number);
      assert ps[k] == init[k];
    }
  }

  lemma TaskPathsSnoc(base: Path, ps: seq<PhaseData>, f: (Path, nat, nat) -> Path)
    requires ps != []
    ensures var last := ps[|ps| - 1];
      TaskPaths(base, ps, f) == TaskPaths(base, ps[..|ps| - 1], f) + IndexPaths(base, last.number, |last.tasks|, f)
  {
    var init, last := ps[..|ps| - 1], ps[|ps| - 1];
    forall d | d in TaskPaths(base, ps, f)
      ensures d in TaskPaths(base, init, f) || d in IndexPaths(base, last.number, |last.tasks|, f)
    {
      var k, i: nat :| 0 <= k < |ps| && 1 <= i <= |ps[k].tasks| && d == f(base, ps[k].number, i);
      if k < |init| {
        assert init[k] == ps[k];
      }
    }
    forall d | d in TaskPaths(base, init, f)
      ensures d in TaskPaths(base, ps, f)
    {
      var k, i: nat :| 0 <= k < |init| && 1 <= i <= |init[k].tasks| && d == f(base, init[k].number, i);
      assert ps[k] == init[k];
    }
    forall d | d in IndexPaths(base, last.number, |last.tasks|, f)
      ensures d in TaskPaths(base, ps, f)
    {
      var i: nat :| 1 <= i <= |last.tasks| && d == f(base, last.number, i);
      assert d == f(base, ps[|ps| - 1].number, i);
    }
  }

  lemma TaskOpsDirSet(base: Path, n: nat, i: nat, t: Task)
    ensures DirsOf(TaskOps(base, n, i, t)) == {TaskDir(base, n, i)}
  {
    var a := [MkDir(TaskDir(base, n, i))];
    var b := a + [WriteFile(TaskPagePath(base, n, i), TaskMd(t))];
    var c := b + [WriteFile(CompleteNotePath(base, n, i), "")];
    var ops := c + [WriteFile(ReviewPath(base, n, i), "")];
    assert ops == TaskOps(base, n, i, t);
    assert ops[..3] == c && c[..2] == b && b[..1] == a && a[..0] == [];
    assert DirsOf(a) == {TaskDir(base, n, i)};
    assert DirsOf(b) == DirsOf(a) && DirsOf(c) == DirsOf(b) && DirsOf(ops) == DirsOf(c);
  }

  lemma {:induction false} TasksOpsDirSet(base: Path, n: nat, ts: seq<Task>)
    ensures DirsOf(TasksOps(base, n, ts)) == IndexPaths(base, n, |ts|, TaskDir)
    decreases |ts|
  {
    if ts != [] {
      var m := |ts|;
      DirsOfAppend(TasksOps(base, n, ts[..m - 1]), TaskOps(base, n, m, ts[m - 1]));
      TasksOpsDirSet(base, n, ts[..m - 1]);
      TaskOpsDirSet(base, n, m, ts[m - 1]);
      IndexPathsSnoc(base, n, m, TaskDir);
    }
  }

  /** The three files of each of the tasks `1..count` of phase `n`. */
  function TaskFileSet(base: Path, n: nat, count: nat): set<Path> {
    IndexPaths(base, n, count, TaskPagePath) + IndexPaths(base, n, count, CompleteNotePath)
    + IndexPaths(base, n, count, ReviewPath)
  }

  lemma TaskFileSetSnoc(base: Path, n: nat, m: nat)
    requires m >= 1
    ensures TaskFileSet(base, n, m)
      == TaskFileSet(base, n, m - 1) + {TaskPagePath(base, n, m), CompleteNotePath(base, n, m), ReviewPath(base, n, m)}
  {
    IndexPathsSnoc(base, n, m, TaskPagePath);
    IndexPathsSnoc(base, n, m, CompleteNotePath);
    IndexPathsSnoc(base, n, m, ReviewPath);
  }

  lemma MergeKeys(a: map<Path, string>, b: map<Path, string>)
    ensures (a + b).Keys == a.Keys + b.Keys
  {
  }

  lemma {:induction false} TasksOpsWriteSet(base: Path, n: nat, ts: seq<Task>)
    ensures WritesOf(TasksOps(base, n, ts)).Keys == TaskFileSet(base, n, |ts|)
    decreases |ts|
  {
    if ts != [] {
      var m := |ts|;
      var front, last := TasksOps(base, n, ts[..m - 1]), TaskOps(base, n, m, ts[m - 1]);
      WritesOfAppend(front, last);
      MergeKeys(WritesOf(front), WritesOf(last));
      TasksOpsWriteSet(base, n, ts[..m - 1]);
      TaskOpsWrites(base, n, m, ts[m - 1]);
      TaskFileSetSnoc(base, n, m);
    }
  }

  lemma PhaseOpsDirSet(base: Path, p: PhaseData)
    ensures DirsOf(PhaseOps(base, p)) == {PhaseDir(base, p.number)} + IndexPaths(base, p.number, |p.tasks|, TaskDir)
  {
    var head := PhaseHead(base, p);
    var first := [MkDir(PhaseDir(base, p.number))];
    assert head[..1] == first && first[..0] == [];
    assert DirsOf(first) == {PhaseDir(base, p.number)};
    assert DirsOf(head) == DirsOf(first);
    DirsOfAppend(head, TasksOps(base, p.number, p.tasks));
    TasksOpsDirSet(base, p.number, p.tasks);
  }

  lemma PhaseOpsWriteSet(base: Path, p: PhaseData)
    ensures WritesOf(PhaseOps(base, p)).Keys == {ChecklistPath(base, p.number)} + TaskFileSet(base, p.number, |p.tasks|)
  {
    PhaseOpsSplit(base, p);
    TasksOpsWriteSet(base, p.number, p.tasks);
  }

  lemma {:induction false} PhasesOpsDirSet(base: Path, ps: seq<PhaseData>)
    ensures DirsOf(PhasesOps(base, ps)) == PhasePaths(base, ps, PhaseDir) + TaskPaths(base, ps, TaskDir)
    decreases |ps|
  {
    if ps != [] {
      PhasesOpsSnocDirs(base, ps);
      PhasesOpsDirSet(base, ps[..|ps| - 1]);
      PhaseOpsDirSet(base, ps[|ps| - 1]);
      PhasePathsSnoc(base, ps, PhaseDir);
      TaskPathsSnoc(base, ps, TaskDir);
    }
  }

  /** The three files of every task of every phase. */
  function PlanTaskFiles(base: Path, ps: seq<PhaseData>): set<Path> {
    TaskPaths(base, ps, TaskPagePath) + TaskPaths(base, ps, CompleteNotePath) + TaskPaths(base, ps, ReviewPath)
  }

  lemma PlanTaskFilesSnoc(base: Path, ps: seq<PhaseData>)
    requires ps != []
    ensures var last := ps[|ps| - 1];
      PlanTaskFiles(base, ps) == PlanTaskFiles(base, ps[..|ps| - 1]) + TaskFileSet(base, last.number, |last.tasks|)
  {
    var init, last := ps[..|ps| - 1], ps[|ps| - 1];
    TaskPathsSnoc(base, ps, TaskPagePath);
    TaskPathsSnoc(base, ps, CompleteNotePath);
    TaskPathsSnoc(base, ps, ReviewPath);
    UnionShuffle3(TaskPaths(base, init, TaskPagePath), TaskPaths(base, init, CompleteNotePath),
      TaskPaths(base, init, ReviewPath), IndexPaths(base, last.number, |last.tasks|, TaskPagePath),
      IndexPaths(base, last.number, |last.tasks|, CompleteNotePath), IndexPaths(base, last.number, |last.tasks|, ReviewPath));
  }

  lemma UnionShuffle<T>(a: set<T>, b: set<T>, c: set<T>, d: set<T>)
    ensures (a + c) + (b + d) == (a + b) + (c + d)
  {
  }

  lemma UnionShuffle3<T>(a: set<T>, b: set<T>, c: set<T>, x: set<T>, y: set<T>, z: set<T>)
    ensures (a + x) + (b + y) + (c + z) == (a + b + c) + (x + y + z)
  {
  }

  lemma {:induction false} PhasesOpsWriteSet(base: Path, ps: seq<PhaseData>)
    ensures WritesOf(PhasesOps(base, ps)).Keys == PhasePaths(base, ps, ChecklistPath) + PlanTaskFiles(base, ps)
    decreases |ps|
  {
    if ps != [] {
      var init, last := ps[..|ps| - 1], ps[|ps| - 1];
      WritesOfAppend(PhasesOps(base, init), PhaseOps(base, last));
      MergeKeys(WritesOf(PhasesOps(base, init)), WritesOf(PhaseOps(base, last)));
      PhasesOpsWriteSet(base, init);
      PhaseOpsWriteSet(base, last);
      PhasePathsSnoc(base, ps, ChecklistPath);
      PlanTaskFilesSnoc(base, ps);
      UnionShuffle(PhasePaths(base, init, ChecklistPath), PlanTaskFiles(base, init),
        {ChecklistPath(base, last.number)}, TaskFileSet(base, last.number, |last.tasks|));
    }
  }

  /** A run creates exactly the base directory, one directory per phase number and one
      `Task<i>` directory for each task `i` of each phase, and nothing else. */
  lemma PlanDirSet(base: Path, ps: seq<PhaseData>)
    ensures DirsOf(WritePlan(base, ps)) == {base} + PhasePaths(base, ps, PhaseDir) + TaskPaths(base, ps, TaskDir)
  {
    PlanWrites(base, ps);
    PhasesOpsDirSet(base, ps);
  }

  /** A run writes exactly one checklist per phase number and the page, completion note
      and review file of each task of each phase, and no other file. */
  lemma PlanFileSet(base: Path, ps: seq<PhaseData>)
    ensures WritesOf(WritePlan(base, ps)).Keys == PhasePaths(base, ps, ChecklistPath)
      + TaskPaths(base, ps, TaskPagePath) + TaskPaths(base, ps, CompleteNotePath) + TaskPaths(base, ps, ReviewPath)
  {
    PlanWrites(base, ps);
    PhasesOpsWriteSet(base, ps);
  }

  lemma TaskDirInjective(base: Path, n: nat, i: nat, m: nat, j: nat)
    requires TaskDir(base, n, i) == TaskDir(base, m, j)
    ensures n == m && i == j
  {
    assert TaskDir(base, n, i)[|base|] == TaskDir(base, m, j)[|base|];
    NameInjective("Phase", n, m);
    assert TaskDir(base, n, i)[|base| + 1] == TaskDir(base, m, j)[|base| + 1];
    NameInjective("Task", i, j);
  }

  /** When no other phase has the number of phase `k`, the `Task<i>` directories a run
      creates in that phase's directory are exactly `Task1` up to `Task<count>`, where
      `count` is the number of tasks of phase `k`. */
  lemma TaskDirsOfPhase(base: Path, ps: seq<PhaseData>, k: nat, i: nat)
    requires k < |ps| && forall j :: 0 <= j < |ps| && j != k ==> ps[j].number != ps[k].number
    ensures TaskDir(base, ps[k].number, i) in DirsOf(WritePlan(base, ps)) <==> 1 <= i <= |ps[k].tasks|
  {
    var n := ps[k].number;
    var d := TaskDir(base, n, i);
    PlanDirSet(base, ps);
    if 1 <= i <= |ps[k].tasks| {
      assert d in TaskPaths(base, ps, TaskDir);
    }
    if d in TaskPaths(base, ps, TaskDir) {
      var j, i': nat :| 0 <= j < |ps| && 1 <= i' <= |ps[j].tasks| && d == TaskDir(base, ps[j].number, i');
      TaskDirInjective(base, n, i, ps[j].number, i');
    }
    assert |d| == |base| + 2;
    assert d !in PhasePaths(base, ps, PhaseDir) by {
      forall j | 0 <= j < |ps|
        ensures d != PhaseDir(base, ps[j].number)
      {
        assert |PhaseDir(base, ps[j].number)| == |base| + 1;
      }
    }
  }
}
