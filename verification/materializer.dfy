/** `create_phase_structure`: the directories and files written for parsed phases.
    The filesystem is abstract: a set of directories and a map from paths (sequences
    of names below the root) to file contents. */
module Materializer {
  import opened Text
  import opened PlanModel
  import opened PlanParser

  type Path = seq<string>

  datatype FileSystem = FileSystem(dirs: set<Path>, files: map<Path, string>)

  /** `mkdir(exist_ok=True)`, or `open(path, 'w').write(contents)`. */
  datatype Op = MkDir(path: Path) | WriteFile(path: Path, contents: string)

  function PhaseDir(base: Path, number: nat): Path {
    base + ["Phase" + NatToString(number)]
  }

  function ChecklistPath(base: Path, number: nat): Path {
    PhaseDir(base, number) + ["TaskCheckList" + NatToString(number) + ".md"]
  }

  function TaskDir(base: Path, number: nat, i: nat): Path {
    PhaseDir(base, number) + ["Task" + NatToString(i)]
  }

  function TaskPagePath(base: Path, number: nat, i: nat): Path {
    TaskDir(base, number, i) + ["Task" + NatToString(i) + ".md"]
  }

  function CompleteNotePath(base: Path, number: nat, i: nat): Path {
    TaskDir(base, number, i) + ["TaskCompleteNote" + NatToString(i) + ".md"]
  }

  function ReviewPath(base: Path, number: nat, i: nat): Path {
    TaskDir(base, number, i) + ["TaskReview" + NatToString(i) + ".md"]
  }

  /** The operations for the task at 1-based position `i` of phase `number`. */
  function TaskOps(base: Path, number: nat, i: nat, t: Task): seq<Op> {
    [MkDir(TaskDir(base, number, i)),
     WriteFile(TaskPagePath(base, number, i), TaskMd(t)),
     WriteFile(CompleteNotePath(base, number, i), ""),
     WriteFile(ReviewPath(base, number, i), "")]
  }

  /** The operations for the tasks of phase `number`, numbered 1, 2, ... by position. */
  function TasksOps(base: Path, number: nat, ts: seq<Task>): seq<Op> {
    if ts == [] then [] else TasksOps(base, number, ts[..|ts| - 1]) + TaskOps(base, number, |ts|, ts[|ts| - 1])
  }

  /** The phase directory and its checklist, written before the phase's tasks. */
  function PhaseHead(base: Path, p: PhaseData): seq<Op> {
    [MkDir(PhaseDir(base, p.number)), WriteFile(ChecklistPath(base, p.number), ChecklistMd(p))]
  }

  function PhaseOps(base: Path, p: PhaseData): seq<Op> {
    PhaseHead(base, p) + TasksOps(base, p.number, p.tasks)
  }

  function PhasesOps(base: Path, ps: seq<PhaseData>): seq<Op> {
    if ps == [] then [] else PhasesOps(base, ps[..|ps| - 1]) + PhaseOps(base, ps[|ps| - 1])
  }

  /** Every operation `create_phase_structure` performs, in order. */
  function WritePlan(base: Path, ps: seq<PhaseData>): seq<Op> {
    [MkDir(base)] + PhasesOps(base, ps)
  }

  function ApplyOp(fs: FileSystem, op: Op): FileSystem {
    match op
    case MkDir(path) => fs.(dirs := fs.dirs + {path})
    case WriteFile(path, contents) => fs.(files := fs.files[path := contents])
  }

  function Apply(fs: FileSystem, ops: seq<Op>): FileSystem {
    if ops == [] then fs else ApplyOp(Apply(fs, ops[..|ops| - 1]), ops[|ops| - 1])
  }

  /** The directories the operations create. */
  function DirsOf(ops: seq<Op>): set<Path> {
    if ops == [] then {}
    else DirsOf(ops[..|ops| - 1]) + match ops[|ops| - 1] case MkDir(p) => {p} case WriteFile(_, _) => {}
  }

  /** The final contents of every file the operations write: the last write wins. */
  function WritesOf(ops: seq<Op>): map<Path, string> {
    if ops == [] then map[]
    else
      match ops[|ops| - 1]
      case MkDir(_) => WritesOf(ops[..|ops| - 1])
      case WriteFile(p, c) => WritesOf(ops[..|ops| - 1])[p := c]
  }

  /** Applying operations adds their directories and overwrites the files they write
      with the last contents written to each. */
  lemma {:induction false} ApplyIsMerge(fs: FileSystem, ops: seq<Op>)
    ensures Apply(fs, ops) == FileSystem(fs.dirs + DirsOf(ops), fs.files + WritesOf(ops))
    decreases |ops|
  {
    if ops != [] {
      var init := ops[..|ops| - 1];
      ApplyIsMerge(fs, init);
      match ops[|ops| - 1]
      case MkDir(p) =>
        assert fs.dirs + DirsOf(init) + {p} == fs.dirs + DirsOf(ops);
      case WriteFile(p, c) =>
        assert (fs.files + WritesOf(init))[p := c] == fs.files + WritesOf(init)[p := c];
    }
  }

  lemma {:induction false} DirsOfAppend(xs: seq<Op>, ys: seq<Op>)
    ensures DirsOf(xs + ys) == DirsOf(xs) + DirsOf(ys)
    decreases |ys|
  {
    if ys == [] {
      assert xs + ys == xs;
    } else {
      var zs := xs + ys;
      assert zs[..|zs| - 1] == xs + ys[..|ys| - 1];
      assert zs[|zs| - 1] == ys[|ys| - 1];
      DirsOfAppend(xs, ys[..|ys| - 1]);
    }
  }

  lemma {:induction false} WritesOfAppend(xs: seq<Op>, ys: seq<Op>)
    ensures WritesOf(xs + ys) == WritesOf(xs) + WritesOf(ys)
    decreases |ys|
  {
    if ys == [] {
      assert xs + ys == xs;
    } else {
      var zs := xs + ys;
      assert zs[..|zs| - 1] == xs + ys[..|ys| - 1];
      assert zs[|zs| - 1] == ys[|ys| - 1];
      WritesOfAppend(xs, ys[..|ys| - 1]);
      match ys[|ys| - 1]
      case MkDir(p) =>
      case WriteFile(p, c) =>
        assert (WritesOf(xs) + WritesOf(ys[..|ys| - 1]))[p := c] == WritesOf(xs) + WritesOf(ys[..|ys| - 1])[p := c];
    }
  }

  lemma ApplyAppend(fs: FileSystem, xs: seq<Op>, ys: seq<Op>)
    ensures Apply(fs, xs + ys) == Apply(Apply(fs, xs), ys)
  {
    ApplyIsMerge(fs, xs + ys);
    ApplyIsMerge(fs, xs);
    ApplyIsMerge(Apply(fs, xs), ys);
    WritesOfAppend(xs, ys);
    DirsOfAppend(xs, ys);
    MergeAssoc(fs.files, WritesOf(xs), WritesOf(ys));
  }

  lemma MergeKeepsLeft(a: map<Path, string>, b: map<Path, string>, k: Path)
    requires k in a && k !in b
    ensures k in a + b && (a + b)[k] == a[k]
  {
  }

  lemma MergeAssoc(m: map<Path, string>, a: map<Path, string>, b: map<Path, string>)
    ensures m + (a + b) == m + a + b
  {
  }

  /** Running the generator twice on the same phases leaves the same tree as running it
      once: every file ends with the same contents and no directory is added. */
  lemma RunTwiceSameTree(fs: FileSystem, base: Path, ps: seq<PhaseData>)
    ensures Apply(Apply(fs, WritePlan(base, ps)), WritePlan(base, ps)) == Apply(fs, WritePlan(base, ps))
  {
    var ops := WritePlan(base, ps);
    ApplyIsMerge(fs, ops);
    ApplyIsMerge(Apply(fs, ops), ops);
    assert fs.files + WritesOf(ops) + WritesOf(ops) == fs.files + WritesOf(ops);
  }

  // Which paths the operations of one task, one phase and one run write.

  lemma NameInjective(prefix: string, a: nat, b: nat)
    requires prefix + NatToString(a) == prefix + NatToString(b)
    ensures a == b
  {
    assert (prefix + NatToString(a))[|prefix|..] == NatToString(a);
    assert (prefix + NatToString(b))[|prefix|..] == NatToString(b);
    NatToStringInjective(a, b);
  }

  /** The three files of a task directory have different names. */
  lemma TaskFileNamesDistinct(i: nat)
    ensures "Task" + NatToString(i) + ".md" != "TaskCompleteNote" + NatToString(i) + ".md"
    ensures "Task" + NatToString(i) + ".md" != "TaskReview" + NatToString(i) + ".md"
    ensures "TaskCompleteNote" + NatToString(i) + ".md" != "TaskReview" + NatToString(i) + ".md"
  {
    var d := NatToString(i);
    assert ("Task" + d + ".md")[4] == d[0];
    assert ("TaskCompleteNote" + d + ".md")[4] == 'C';
    assert ("TaskReview" + d + ".md")[4] == 'R';
  }

  lemma TaskOpsWrites(base: Path, n: nat, i: nat, t: Task)
    ensures WritesOf(TaskOps(base, n, i, t)).Keys
      == {TaskPagePath(base, n, i), CompleteNotePath(base, n, i), ReviewPath(base, n, i)}
    ensures WritesOf(TaskOps(base, n, i, t))[TaskPagePath(base, n, i)] == TaskMd(t)
    ensures WritesOf(TaskOps(base, n, i, t))[CompleteNotePath(base, n, i)] == ""
    ensures WritesOf(TaskOps(base, n, i, t))[ReviewPath(base, n, i)] == ""
  {
    var dir := TaskDir(base, n, i);
    var a := [MkDir(dir)];
    var b := a + [WriteFile(TaskPagePath(base, n, i), TaskMd(t))];
    var c := b + [WriteFile(CompleteNotePath(base, n, i), "")];
    var ops := c + [WriteFile(ReviewPath(base, n, i), "")];
    assert ops == TaskOps(base, n, i, t);
    assert ops[..3] == c && c[..2] == b && b[..1] == a && a[..0] == [];
    assert WritesOf(a) == map[];
    assert WritesOf(b) == map[TaskPagePath(base, n, i) := TaskMd(t)];
    assert WritesOf(c) == WritesOf(b)[CompleteNotePath(base, n, i) := ""];
    assert WritesOf(ops) == WritesOf(c)[ReviewPath(base, n, i) := ""];
    TaskFileNamesDistinct(i);
    assert TaskPagePath(base, n, i)[|dir|] != CompleteNotePath(base, n, i)[|dir|];
    assert TaskPagePath(base, n, i)[|dir|] != ReviewPath(base, n, i)[|dir|];
    assert CompleteNotePath(base, n, i)[|dir|] != ReviewPath(base, n, i)[|dir|];
  }

  /** Every file of task `i` lies directly inside that task's directory. */
  lemma TaskOpsKeys(base: Path, n: nat, i: nat, t: Task)
    ensures forall path | path in WritesOf(TaskOps(base, n, i, t)) ::
      |path| == |base| + 3 && path[..|base| + 2] == TaskDir(base, n, i) && path[..|base| + 1] == PhaseDir(base, n)
  {
    TaskOpsWrites(base, n, i, t);
    var dir := TaskDir(base, n, i);
    assert TaskPagePath(base, n, i)[..|base| + 2] == dir;
    assert CompleteNotePath(base, n, i)[..|base| + 2] == dir;
    assert ReviewPath(base, n, i)[..|base| + 2] == dir;
    assert TaskPagePath(base, n, i)[..|base| + 1] == PhaseDir(base, n);
    assert CompleteNotePath(base, n, i)[..|base| + 1] == PhaseDir(base, n);
    assert ReviewPath(base, n, i)[..|base| + 1] == PhaseDir(base, n);
  }

  /** A file inside the directory of a task number beyond the list is never written. */
  lemma {:induction false} TaskPathAbsent(base: Path, n: nat, ts: seq<Task>, i: nat, path: Path)
    requires i > |ts| && |path| >= |base| + 2 && path[..|base| + 2] == TaskDir(base, n, i)
    ensures path !in WritesOf(TasksOps(base, n, ts))
    decreases |ts|
  {
    if ts != [] {
      var m := |ts|;
      TaskPathAbsent(base, n, ts[..m - 1], i, path);
      WritesOfAppend(TasksOps(base, n, ts[..m - 1]), TaskOps(base, n, m, ts[m - 1]));
      TaskOpsKeys(base, n, m, ts[m - 1]);
      if path in WritesOf(TaskOps(base, n, m, ts[m - 1])) {
        assert TaskDir(base, n, i)[|base| + 1] == TaskDir(base, n, m)[|base| + 1];
        NameInjective("Task", i, m);
        assert false;
      }
    }
  }

  /** Every file the tasks of phase `n` write lies two levels inside the phase directory. */
  lemma {:induction false} TasksOpsKeys(base: Path, n: nat, ts: seq<Task>)
    ensures forall path | path in WritesOf(TasksOps(base, n, ts)) ::
      |path| == |base| + 3 && path[..|base| + 1] == PhaseDir(base, n)
    decreases |ts|
  {
    if ts != [] {
      var m := |ts|;
      TasksOpsKeys(base, n, ts[..m - 1]);
      WritesOfAppend(TasksOps(base, n, ts[..m - 1]), TaskOps(base, n, m, ts[m - 1]));
      TaskOpsKeys(base, n, m, ts[m - 1]);
    }
  }

  /** After the tasks of a phase are written, task `i` has its page and two empty files. */
  lemma {:induction false} TasksOpsFiles(base: Path, n: nat, ts: seq<Task>, i: nat)
    requires 1 <= i <= |ts|
    ensures WritesOf(TasksOps(base, n, ts)).Keys >=
      {TaskPagePath(base, n, i), CompleteNotePath(base, n, i), ReviewPath(base, n, i)}
    ensures WritesOf(TasksOps(base, n, ts))[TaskPagePath(base, n, i)] == TaskMd(ts[i - 1])
    ensures WritesOf(TasksOps(base, n, ts))[CompleteNotePath(base, n, i)] == ""
    ensures WritesOf(TasksOps(base, n, ts))[ReviewPath(base, n, i)] == ""
    decreases |ts|
  {
    var m := |ts|;
    var init := ts[..m - 1];
    WritesOfAppend(TasksOps(base, n, init), TaskOps(base, n, m, ts[m - 1]));
    TaskOpsWrites(base, n, m, ts[m - 1]);
    if i < m {
      TasksOpsFiles(base, n, init, i);
      assert init[i - 1] == ts[i - 1];
      OtherTaskLeaves(base, n, i, m, ts[m - 1], TaskPagePath(base, n, i));
      OtherTaskLeaves(base, n, i, m, ts[m - 1], CompleteNotePath(base, n, i));
      OtherTaskLeaves(base, n, i, m, ts[m - 1], ReviewPath(base, n, i));
    }
  }

  /** The operations of task `m` do not touch the files of another task `i`. */
  lemma OtherTaskLeaves(base: Path, n: nat, i: nat, m: nat, t: Task, path: Path)
    requires i != m && |path| == |base| + 3 && path[..|base| + 2] == TaskDir(base, n, i)
    ensures path !in WritesOf(TaskOps(base, n, m, t))
  {
    TaskOpsKeys(base, n, m, t);
    if path in WritesOf(TaskOps(base, n, m, t)) {
      assert TaskDir(base, n, i)[|base| + 1] == TaskDir(base, n, m)[|base| + 1];
      NameInjective("Task", i, m);
      assert false;
    }
  }

  /** One phase writes its checklist, then the files of its tasks. */
  lemma PhaseOpsSplit(base: Path, p: PhaseData)
    ensures WritesOf(PhaseOps(base, p))
      == map[ChecklistPath(base, p.number) := ChecklistMd(p)] + WritesOf(TasksOps(base, p.number, p.tasks))
  {
    var head := PhaseHead(base, p);
    assert head[..1] == [MkDir(PhaseDir(base, p.number))];
    assert [MkDir(PhaseDir(base, p.number))][..0] == [];
    assert WritesOf(head[..1]) == map[];
    WritesOfAppend(head, TasksOps(base, p.number, p.tasks));
  }

  /** Every file one phase writes lies inside that phase's directory: its checklist
      directly, its task files two levels down. */
  lemma PhaseOpsKeys(base: Path, p: PhaseData)
    ensures forall path | path in WritesOf(PhaseOps(base, p)) ::
      |path| >= |base| + 2 && path[..|base| + 1] == PhaseDir(base, p.number)
  {
    PhaseOpsSplit(base, p);
    TasksOpsKeys(base, p.number, p.tasks);
    assert ChecklistPath(base, p.number)[..|base| + 1] == PhaseDir(base, p.number);
  }

  /** What one phase writes: its checklist, and for task `i` the page and two empty files. */
  lemma PhaseOpsWrites(base: Path, p: PhaseData, i: nat)
    requires 1 <= i <= |p.tasks|
    ensures var w := WritesOf(PhaseOps(base, p));
      ChecklistPath(base, p.number) in w && w[ChecklistPath(base, p.number)] == ChecklistMd(p)
      && TaskPagePath(base, p.number, i) in w && w[TaskPagePath(base, p.number, i)] == TaskMd(p.tasks[i - 1])
      && CompleteNotePath(base, p.number, i) in w && w[CompleteNotePath(base, p.number, i)] == ""
      && ReviewPath(base, p.number, i) in w && w[ReviewPath(base, p.number, i)] == ""
  {
    PhaseOpsSplit(base, p);
    TasksOpsKeys(base, p.number, p.tasks);
    TasksOpsFiles(base, p.number, p.tasks, i);
  }

  /** The operations of a phase with another number do not touch this phase's directory. */
  lemma OtherPhaseLeaves(base: Path, p: PhaseData, n: nat, path: Path)
    requires p.number != n && |path| >= |base| + 1 && path[..|base| + 1] == PhaseDir(base, n)
    ensures path !in WritesOf(PhaseOps(base, p))
  {
    PhaseOpsKeys(base, p);
    if path in WritesOf(PhaseOps(base, p)) {
      assert PhaseDir(base, n)[|base|] == PhaseDir(base, p.number)[|base|];
      NameInjective("Phase", n, p.number);
      assert false;
    }
  }

  /** A file phase `k` writes keeps that contents unless a later phase has the same number. */
  lemma {:induction false} LastPhaseWrite(base: Path, ps: seq<PhaseData>, k: nat, path: Path)
    requires k < |ps|
    requires forall j :: k < j < |ps| ==> ps[j].number != ps[k].number
    requires |path| >= |base| + 1 && path[..|base| + 1] == PhaseDir(base, ps[k].number)
    requires path in WritesOf(PhaseOps(base, ps[k]))
    ensures path in WritesOf(PhasesOps(base, ps))
    ensures WritesOf(PhasesOps(base, ps))[path] == WritesOf(PhaseOps(base, ps[k]))[path]
    decreases |ps|
  {
    var m := |ps|;
    WritesOfAppend(PhasesOps(base, ps[..m - 1]), PhaseOps(base, ps[m - 1]));
    if k < m - 1 {
      LastPhaseWrite(base, ps[..m - 1], k, path);
      OtherPhaseLeaves(base, ps[m - 1], ps[k].number, path);
    }
  }

  /** Files outside the directories of every phase are never written. */
  lemma {:induction false} OutsidePhasesUnwritten(base: Path, ps: seq<PhaseData>, path: Path)
    requires forall k :: 0 <= k < |ps| ==> !(|path| >= |base| + 1 && path[..|base| + 1] == PhaseDir(base, ps[k].number))
    ensures path !in WritesOf(PhasesOps(base, ps))
    decreases |ps|
  {
    if ps != [] {
      var m := |ps|;
      var init := ps[..m - 1];
      assert forall k :: 0 <= k < |init| ==> init[k] == ps[k];
      WritesOfAppend(PhasesOps(base, init), PhaseOps(base, ps[m - 1]));
      OutsidePhasesUnwritten(base, init, path);
      PhaseOpsKeys(base, ps[m - 1]);
    }
  }

  lemma PlanWrites(base: Path, ps: seq<PhaseData>)
    ensures WritesOf(WritePlan(base, ps)) == WritesOf(PhasesOps(base, ps))
    ensures DirsOf(WritePlan(base, ps)) == {base} + DirsOf(PhasesOps(base, ps))
  {
    BaseOp(base);
    WritesOfAppend([MkDir(base)], PhasesOps(base, ps));
    DirsOfAppend([MkDir(base)], PhasesOps(base, ps));
  }

  lemma BaseOp(base: Path)
    ensures WritesOf([MkDir(base)]) == map[] && DirsOf([MkDir(base)]) == {base}
  {
    assert [MkDir(base)][..0] == [];
  }

  // What a run of `create_phase_structure` leaves on disk.

  /** Phase `k`'s checklist is written, unless a later phase has the same number
      (whose checklist then replaces it). */
  lemma ChecklistWritten(fs: FileSystem, base: Path, ps: seq<PhaseData>, k: nat)
    requires k < |ps| && forall j :: k < j < |ps| ==> ps[j].number != ps[k].number
    ensures var out := Apply(fs, WritePlan(base, ps)).files;
      ChecklistPath(base, ps[k].number) in out && out[ChecklistPath(base, ps[k].number)] == ChecklistMd(ps[k])
  {
    var path := ChecklistPath(base, ps[k].number);
    ApplyIsMerge(fs, WritePlan(base, ps));
    PlanWrites(base, ps);
    PhaseOpsSplit(base, ps[k]);
    TasksOpsKeys(base, ps[k].number, ps[k].tasks);
    assert path[..|base| + 1] == PhaseDir(base, ps[k].number);
    LastPhaseWrite(base, ps, k, path);
  }

  /** Task `i` (counting from 1) of phase `k` gets `Task<i>.md` holding its rendering and
      empty `TaskCompleteNote<i>.md` and `TaskReview<i>.md`, unless a later phase has the
      same number. */
  lemma TaskFilesWritten(fs: FileSystem, base: Path, ps: seq<PhaseData>, k: nat, i: nat)
    requires k < |ps| && forall j :: k < j < |ps| ==> ps[j].number != ps[k].number
    requires 1 <= i <= |ps[k].tasks|
    ensures var out := Apply(fs, WritePlan(base, ps)).files; var n := ps[k].number;
      TaskPagePath(base, n, i) in out && out[TaskPagePath(base, n, i)] == TaskMd(ps[k].tasks[i - 1])
      && CompleteNotePath(base, n, i) in out && out[CompleteNotePath(base, n, i)] == ""
      && ReviewPath(base, n, i) in out && out[ReviewPath(base, n, i)] == ""
  {
    var n := ps[k].number;
    ApplyIsMerge(fs, WritePlan(base, ps));
    PlanWrites(base, ps);
    PhaseOpsWrites(base, ps[k], i);
    assert TaskPagePath(base, n, i)[..|base| + 1] == PhaseDir(base, n);
    assert CompleteNotePath(base, n, i)[..|base| + 1] == PhaseDir(base, n);
    assert ReviewPath(base, n, i)[..|base| + 1] == PhaseDir(base, n);
    LastPhaseWrite(base, ps, k, TaskPagePath(base, n, i));
    LastPhaseWrite(base, ps, k, CompleteNotePath(base, n, i));
    LastPhaseWrite(base, ps, k, ReviewPath(base, n, i));
  }

  /** Nothing outside the phase directories changes. */
  lemma OtherFilesUnchanged(fs: FileSystem, base: Path, ps: seq<PhaseData>, path: Path)
    requires forall k :: 0 <= k < |ps| ==> !(|path| >= |base| + 1 && path[..|base| + 1] == PhaseDir(base, ps[k].number))
    ensures var out := Apply(fs, WritePlan(base, ps)).files;
      (path in out <==> path in fs.files) && (path in out ==> out[path] == fs.files[path])
  {
    ApplyIsMerge(fs, WritePlan(base, ps));
    PlanWrites(base, ps);
    OutsidePhasesUnwritten(base, ps, path);
  }

  /** Two phases with the same number share one directory: the later checklist replaces
      the earlier one, but the three files of every task `i` of the earlier phase beyond
      the later phase's task count stay as the earlier phase wrote them. */
  lemma SameNumberLeavesStaleTasks(fs: FileSystem, base: Path, p: PhaseData, q: PhaseData, i: nat)
    requires p.number == q.number && |q.tasks| < i <= |p.tasks|
    ensures var out := Apply(fs, WritePlan(base, [p, q])).files; var n := p.number;
      ChecklistPath(base, n) in out && out[ChecklistPath(base, n)] == ChecklistMd(q)
      && TaskPagePath(base, n, i) in out && out[TaskPagePath(base, n, i)] == TaskMd(p.tasks[i - 1])
      && CompleteNotePath(base, n, i) in out && out[CompleteNotePath(base, n, i)] == ""
      && ReviewPath(base, n, i) in out && out[ReviewPath(base, n, i)] == ""
  {
    ChecklistWritten(fs, base, [p, q], 1);
    ApplyIsMerge(fs, WritePlan(base, [p, q]));
    PlanWrites(base, [p, q]);
    StaleTaskFiles(base, p, q, i);
  }

  /** The write plan of the two phases keeps the earlier phase's files of task `i`. */
  lemma StaleTaskFiles(base: Path, p: PhaseData, q: PhaseData, i: nat)
    requires p.number == q.number && |q.tasks| < i <= |p.tasks|
    ensures var w := WritesOf(PhasesOps(base, [p, q])); var n := p.number;
      TaskPagePath(base, n, i) in w && w[TaskPagePath(base, n, i)] == TaskMd(p.tasks[i - 1])
      && CompleteNotePath(base, n, i) in w && w[CompleteNotePath(base, n, i)] == ""
      && ReviewPath(base, n, i) in w && w[ReviewPath(base, n, i)] == ""
  {
    var n := p.number;
    var wp, wq := WritesOf(PhaseOps(base, p)), WritesOf(PhaseOps(base, q));
    TwoPhasesOps(base, p, q);
    WritesOfAppend(PhaseOps(base, p), PhaseOps(base, q));
    PhaseOpsWrites(base, p, i);
    TaskBeyondPhaseAbsent(base, q, i);
    MergeKeepsLeft(wp, wq, TaskPagePath(base, n, i));
    MergeKeepsLeft(wp, wq, CompleteNotePath(base, n, i));
    MergeKeepsLeft(wp, wq, ReviewPath(base, n, i));
  }

  lemma TwoPhasesOps(base: Path, p: PhaseData, q: PhaseData)
    ensures PhasesOps(base, [p, q]) == PhaseOps(base, p) + PhaseOps(base, q)
  {
    assert [p, q][..1] == [p] && [p][..0] == [];
    assert PhasesOps(base, [p]) == PhasesOps(base, []) + PhaseOps(base, p);
    assert PhasesOps(base, [p]) == PhaseOps(base, p);
  }

  /** A phase writes none of the three files of a task number beyond its task count. */
  lemma TaskBeyondPhaseAbsent(base: Path, q: PhaseData, i: nat)
    requires i > |q.tasks|
    ensures var w := WritesOf(PhaseOps(base, q));
      TaskPagePath(base, q.number, i) !in w && CompleteNotePath(base, q.number, i) !in w
      && ReviewPath(base, q.number, i) !in w
  {
    var dir := TaskDir(base, q.number, i);
    assert TaskPagePath(base, q.number, i)[..|base| + 2] == dir;
    assert CompleteNotePath(base, q.number, i)[..|base| + 2] == dir;
    assert ReviewPath(base, q.number, i)[..|base| + 2] == dir;
    PhaseOpsSplit(base, q);
    TaskPathAbsent(base, q.number, q.tasks, i, TaskPagePath(base, q.number, i));
    TaskPathAbsent(base, q.number, q.tasks, i, CompleteNotePath(base, q.number, i));
    TaskPathAbsent(base, q.number, q.tasks, i, ReviewPath(base, q.number, i));
  }

  // Every directory exists before anything is created inside it.

  function Parent(path: Path): Path
    requires path != []
  {
    path[..|path| - 1]
  }

  /** Each operation's parent directory is in `roots` or was made by an earlier
      operation: with `exist_ok` but without `parents`, that is when none of them fails. */
  predicate CreatedBeforeUse(roots: set<Path>, ops: seq<Op>) {
    ops == []
    || (CreatedBeforeUse(roots, ops[..|ops| - 1])
        && ops[|ops| - 1].path != []
        && Parent(ops[|ops| - 1].path) in roots + DirsOf(ops[..|ops| - 1]))
  }

  lemma {:induction false} CreatedBeforeUseAppend(roots: set<Path>, xs: seq<Op>, ys: seq<Op>)
    requires CreatedBeforeUse(roots, xs) && CreatedBeforeUse(roots + DirsOf(xs), ys)
    ensures CreatedBeforeUse(roots, xs + ys)
    decreases |ys|
  {
    if ys == [] {
      assert xs + ys == xs;
    } else {
      var zs := xs + ys;
      var init := ys[..|ys| - 1];
      assert zs[..|zs| - 1] == xs + init;
      assert zs[|zs| - 1] == ys[|ys| - 1];
      CreatedBeforeUseAppend(roots, xs, init);
      DirsOfAppend(xs, init);
    }
  }

  lemma TaskOpsOrdered(roots: set<Path>, base: Path, n: nat, i: nat, t: Task)
    requires PhaseDir(base, n) in roots
    ensures CreatedBeforeUse(roots, TaskOps(base, n, i, t))
  {
    var dir := TaskDir(base, n, i);
    var a := [MkDir(dir)];
    var b := a + [WriteFile(TaskPagePath(base, n, i), TaskMd(t))];
    var c := b + [WriteFile(CompleteNotePath(base, n, i), "")];
    var ops := c + [WriteFile(ReviewPath(base, n, i), "")];
    assert ops == TaskOps(base, n, i, t);
    assert ops[..3] == c && c[..2] == b && b[..1] == a && a[..0] == [];
    assert Parent(dir) == PhaseDir(base, n);
    assert DirsOf(a) == {dir};
    assert DirsOf(b) == {dir} && DirsOf(c) == {dir};
    assert Parent(TaskPagePath(base, n, i)) == dir;
    assert Parent(CompleteNotePath(base, n, i)) == dir;
    assert Parent(ReviewPath(base, n, i)) == dir;
    assert CreatedBeforeUse(roots, a);
    assert CreatedBeforeUse(roots, b);
    assert CreatedBeforeUse(roots, c);
  }

  lemma {:induction false} TasksOpsOrdered(roots: set<Path>, base: Path, n: nat, ts: seq<Task>)
    requires PhaseDir(base, n) in roots
    ensures CreatedBeforeUse(roots, TasksOps(base, n, ts))
    decreases |ts|
  {
    if ts != [] {
      var init := TasksOps(base, n, ts[..|ts| - 1]);
      TasksOpsOrdered(roots, base, n, ts[..|ts| - 1]);
      TaskOpsOrdered(roots + DirsOf(init), base, n, |ts|, ts[|ts| - 1]);
      CreatedBeforeUseAppend(roots, init, TaskOps(base, n, |ts|, ts[|ts| - 1]));
    }
  }

  lemma PhaseOpsOrdered(roots: set<Path>, base: Path, p: PhaseData)
    requires base in roots
    ensures CreatedBeforeUse(roots, PhaseOps(base, p))
  {
    var head := PhaseHead(base, p);
    var dir := PhaseDir(base, p.number);
    assert head[..1] == [MkDir(dir)] && [MkDir(dir)][..0] == [];
    assert Parent(dir) == base;
    assert Parent(ChecklistPath(base, p.number)) == dir;
    assert DirsOf([MkDir(dir)]) == {dir};
    assert DirsOf(head) == {dir};
    assert CreatedBeforeUse(roots, head);
    TasksOpsOrdered(roots + DirsOf(head), base, p.number, p.tasks);
    CreatedBeforeUseAppend(roots, head, TasksOps(base, p.number, p.tasks));
  }

  lemma {:induction false} PhasesOpsOrdered(roots: set<Path>, base: Path, ps: seq<PhaseData>)
    requires base in roots
    ensures CreatedBeforeUse(roots, PhasesOps(base, ps))
    decreases |ps|
  {
    if ps != [] {
      var init := PhasesOps(base, ps[..|ps| - 1]);
      PhasesOpsOrdered(roots, base, ps[..|ps| - 1]);
      PhaseOpsOrdered(roots + DirsOf(init), base, ps[|ps| - 1]);
      CreatedBeforeUseAppend(roots, init, PhaseOps(base, ps[|ps| - 1]));
    }
  }

  /** When the parent of the base directory exists, every directory and file the run
      creates lands in a directory that already exists at that point. */
  lemma PlanCreatedBeforeUse(base: Path, ps: seq<PhaseData>)
    requires base != []
    ensures CreatedBeforeUse({Parent(base)}, WritePlan(base, ps))
  {
    var head := [MkDir(base)];
    assert head[..0] == [];
    assert DirsOf(head) == {base};
    assert CreatedBeforeUse({Parent(base)}, head);
    PhasesOpsOrdered({Parent(base)} + {base}, base, ps);
    CreatedBeforeUseAppend({Parent(base)}, head, PhasesOps(base, ps));
  }

  // The directories a run creates.

  lemma {:induction false} TasksOpsDirs(base: Path, n: nat, ts: seq<Task>, i: nat)
    requires 1 <= i <= |ts|
    ensures TaskDir(base, n, i) in DirsOf(TasksOps(base, n, ts))
    decreases |ts|
  {
    var m := |ts|;
    var last := TaskOps(base, n, m, ts[m - 1]);
    DirsOfAppend(TasksOps(base, n, ts[..m - 1]), last);
    if i < m {
      TasksOpsDirs(base, n, ts[..m - 1], i);
    } else {
      TaskOpsDirs(base, n, m, ts[m - 1]);
    }
  }

  lemma TaskOpsDirs(base: Path, n: nat, i: nat, t: Task)
    ensures TaskDir(base, n, i) in DirsOf(TaskOps(base, n, i, t))
  {
    var ops := TaskOps(base, n, i, t);
    assert ops == [ops[0]] + ops[1..];
    DirsOfAppend([ops[0]], ops[1..]);
    assert [ops[0]][..0] == [];
  }

  lemma PhasesOpsSnocDirs(base: Path, ps: seq<PhaseData>)
    requires ps != []
    ensures DirsOf(PhasesOps(base, ps))
      == DirsOf(PhasesOps(base, ps[..|ps| - 1])) + DirsOf(PhaseOps(base, ps[|ps| - 1]))
  {
    DirsOfAppend(PhasesOps(base, ps[..|ps| - 1]), PhaseOps(base, ps[|ps| - 1]));
  }

  lemma {:induction false} PhasesOpsDirs(base: Path, ps: seq<PhaseData>, k: nat, d: Path)
    requires k < |ps| && d in DirsOf(PhaseOps(base, ps[k]))
    ensures d in DirsOf(PhasesOps(base, ps))
    decreases |ps|
  {
    PhasesOpsSnocDirs(base, ps);
    if k < |ps| - 1 {
      assert ps[..|ps| - 1][k] == ps[k];
      PhasesOpsDirs(base, ps[..|ps| - 1], k, d);
    }
  }

  /** The base directory, every phase directory and every task directory exist afterwards. */
  lemma DirsCreated(fs: FileSystem, base: Path, ps: seq<PhaseData>, k: nat, i: nat)
    requires k < |ps| && 1 <= i <= |ps[k].tasks|
    ensures var out := Apply(fs, WritePlan(base, ps)).dirs;
      base in out && PhaseDir(base, ps[k].number) in out && TaskDir(base, ps[k].number, i) in out
  {
    var p := ps[k];
    ApplyIsMerge(fs, WritePlan(base, ps));
    PlanWrites(base, ps);
    DirsOfAppend(PhaseHead(base, p), TasksOps(base, p.number, p.tasks));
    assert PhaseHead(base, p)[..1] == [MkDir(PhaseDir(base, p.number))];
    assert [MkDir(PhaseDir(base, p.number))][..0] == [];
    TasksOpsDirs(base, p.number, p.tasks, i);
    PhasesOpsDirs(base, ps, k, PhaseDir(base, p.number));
    PhasesOpsDirs(base, ps, k, TaskDir(base, p.number, i));
  }

  // The program: a disk updated in place, one directory or file at a time.

  class Disk {
    var dirs: set<Path>
    var files: map<Path, string>

    function Value(): FileSystem
      reads this
    {
      FileSystem(dirs, files)
    }

    constructor (fs: FileSystem)
      ensures Value() == fs
    {
      dirs := fs.dirs;
      files := fs.files;
    }

    /** `Path.mkdir(exist_ok=True)`. */
    method MakeDir(path: Path)
      modifies this
      ensures Value() == ApplyOp(old(Value()), MkDir(path))
    {
      dirs := dirs + {path};
    }

    /** Opening `path` for writing and writing `contents`, replacing any previous file. */
    method WriteText(path: Path, contents: string)
      modifies this
      ensures Value() == ApplyOp(old(Value()), WriteFile(path, contents))
    {
      files := files[path := contents];
    }
  }

  lemma ApplySnoc(fs: FileSystem, ops: seq<Op>, op: Op)
    ensures Apply(fs, ops + [op]) == ApplyOp(Apply(fs, ops), op)
  {
    assert (ops + [op])[..|ops|] == ops;
  }

  lemma PlanSnoc(base: Path, ps: seq<PhaseData>, k: nat)
    requires k < |ps|
    ensures WritePlan(base, ps[..k + 1]) == WritePlan(base, ps[..k]) + PhaseOps(base, ps[k])
  {
    assert ps[..k + 1][..k] == ps[..k] && ps[..k + 1][k] == ps[k];
  }

  lemma TasksSnoc(before: seq<Op>, base: Path, n: nat, ts: seq<Task>, i: nat)
    requires 1 <= i <= |ts|
    ensures before + TasksOps(base, n, ts[..i]) == before + TasksOps(base, n, ts[..i - 1]) + TaskOps(base, n, i, ts[i - 1])
  {
    assert ts[..i][..i - 1] == ts[..i - 1] && ts[..i][i - 1] == ts[i - 1];
  }

  lemma PlanStart(base: Path, ps: seq<PhaseData>)
    ensures WritePlan(base, ps[..0]) == [] + [MkDir(base)]
  {
    assert ps[..0] == [];
  }

  lemma PlanEnd(base: Path, ps: seq<PhaseData>)
    ensures WritePlan(base, ps[..|ps|]) == WritePlan(base, ps)
  {
    assert ps[..|ps|] == ps;
  }

  lemma PhaseOpsAfter(before: seq<Op>, base: Path, p: PhaseData)
    ensures before + PhaseHead(base, p) + TasksOps(base, p.number, p.tasks) == before + PhaseOps(base, p)
  {
  }

  /** Applying the four operations of one task, one after the other. */
  lemma ApplyTaskOps(fs: FileSystem, done: seq<Op>, base: Path, n: nat, i: nat, t: Task)
    ensures Apply(fs, done + TaskOps(base, n, i, t))
      == ApplyOp(ApplyOp(ApplyOp(ApplyOp(Apply(fs, done),
           MkDir(TaskDir(base, n, i))),
           WriteFile(TaskPagePath(base, n, i), TaskMd(t))),
           WriteFile(CompleteNotePath(base, n, i), "")),
           WriteFile(ReviewPath(base, n, i), ""))
  {
    var g := Apply(fs, done);
    var a := [MkDir(TaskDir(base, n, i))];
    var b := a + [WriteFile(TaskPagePath(base, n, i), TaskMd(t))];
    var c := b + [WriteFile(CompleteNotePath(base, n, i), "")];
    var ops := c + [WriteFile(ReviewPath(base, n, i), "")];
    assert ops == TaskOps(base, n, i, t);
    ApplyAppend(fs, done, ops);
    ApplySnoc(g, [], a[0]);
    assert [] + [a[0]] == a;
    ApplySnoc(g, a, b[1]);
    ApplySnoc(g, b, c[2]);
    ApplySnoc(g, c, ops[3]);
  }

  /** The head of one phase: its directory, then its checklist. */
  lemma ApplyPhaseHead(fs: FileSystem, done: seq<Op>, base: Path, p: PhaseData)
    ensures Apply(fs, done + PhaseHead(base, p))
      == ApplyOp(ApplyOp(Apply(fs, done), MkDir(PhaseDir(base, p.number))),
           WriteFile(ChecklistPath(base, p.number), ChecklistMd(p)))
  {
    var g := Apply(fs, done);
    var ops := PhaseHead(base, p);
    ApplyAppend(fs, done, ops);
    ApplySnoc(g, [], ops[0]);
    assert [] + [ops[0]] == ops[..1];
    ApplySnoc(g, ops[..1], ops[1]);
    assert ops[..1] + [ops[1]] == ops;
  }

  /** `create_phase_structure`: the base directory, then for each phase its directory and
      checklist, then for each of its tasks the task directory and its three files. */
  method CreatePhaseStructure(phases: seq<Phase>, base: Path, disk: Disk)
    modifies disk
    ensures disk.Value() == Apply(old(disk.Value()), WritePlan(base, Values(phases)))
  {
    ghost var fs := disk.Value();
    ghost var ps := Values(phases);
    disk.MakeDir(base);
    ApplySnoc(fs, [], MkDir(base));
    PlanStart(base, ps);
    for k := 0 to |phases|
      invariant Values(phases) == ps
      invariant disk.Value() == Apply(fs, WritePlan(base, ps[..k]))
    {
      WritePhase(phases[k], base, disk, fs, WritePlan(base, ps[..k]));
      PlanSnoc(base, ps, k);
    }
    PlanEnd(base, ps);
  }

  /** One iteration of the outer loop: the phase directory, its checklist, its tasks. */
  method WritePhase(phase: Phase, base: Path, disk: Disk, ghost fs: FileSystem, ghost before: seq<Op>)
    requires disk.Value() == Apply(fs, before)
    modifies disk
    ensures disk.Value() == Apply(fs, before + PhaseOps(base, phase.Value()))
  {
    disk.MakeDir(PhaseDir(base, phase.number));
    disk.WriteText(ChecklistPath(base, phase.number), phase.ToChecklistMd());
    ApplyPhaseHead(fs, before, base, phase.Value());
    WriteTasks(phase, base, disk, fs, before + PhaseHead(base, phase.Value()));
    PhaseOpsAfter(before, base, phase.Value());
  }

  /** The inner loop of `create_phase_structure`: the tasks of one phase, numbered from 1. */
  method WriteTasks(phase: Phase, base: Path, disk: Disk, ghost fs: FileSystem, ghost before: seq<Op>)
    requires disk.Value() == Apply(fs, before)
    modifies disk
    ensures disk.Value() == Apply(fs, before + TasksOps(base, phase.number, phase.tasks))
  {
    var n := phase.number;
    var tasks := phase.tasks;
    assert tasks[..0] == [] && before + [] == before;
    for i := 1 to |tasks| + 1
      invariant disk.Value() == Apply(fs, before + TasksOps(base, n, tasks[..i - 1]))
    {
      var task := tasks[i - 1];
      disk.MakeDir(TaskDir(base, n, i));
      disk.WriteText(TaskPagePath(base, n, i), TaskMd(task));
      disk.WriteText(CompleteNotePath(base, n, i), "");
      disk.WriteText(ReviewPath(base, n, i), "");
      ApplyTaskOps(fs, before + TasksOps(base, n, tasks[..i - 1]), base, n, i, task);
      TasksSnoc(before, base, n, tasks, i);
    }
    assert tasks[..|tasks|] == tasks;
  }
}
