/** The sample action plan: one phase with one task, parsed and then laid out on disk. */
module WorkedExample {
  import opened Text
  import opened PlanModel
  import opened PlanParser
  import opened ParserProperties
  import opened PlanDocument
  import opened Materializer

  /** The lines of the sample document, spelled with the markers the parser looks for:
      "## Phase 1: Setup", "### Task 1.1: Init repo", "**Goal**: Create the base
      repository", "**Actions**:", two bullets, and "**Success Criteria**: Repo exists
      with readme". */
  function SampleLines(): seq<string> {
    [PhasePrefix + "1" + ": " + "Setup",
     "### " + ("Task " + "1.1" + ": " + "Init repo"),
     GoalMarker + " " + "Create the base repository",
     ActionsMarker,
     "- " + "Run init command",
     "- " + "Add readme",
     SuccessMarker + " " + "Repo exists with readme"]
  }

  function SampleTask(): Task {
    Task("1.1", "Init repo", "Create the base repository", ["Run init command", "Add readme"], "Repo exists with readme")
  }

  function SamplePhase(): PhaseData {
    PhaseData(1, "Setup", "", [SampleTask()])
  }

  /** A character of the marker that the text lacks rules the marker out. */
  lemma MarkerAbsent(marker: string, s: string, c: char)
    requires c in marker && c !in s
    ensures !Occurs(marker, s)
  {
  }

  lemma SampleGoalField()
    ensures FieldText(SampleTask().goal, GoalMarker)
  {
    var goal := SampleTask().goal;
    NoStarInGoal();
    assert GoalMarker[0] == '*';
    MarkerAbsent(GoalMarker, " " + goal, '*');
    NoNewlineInGoal();
  }

  lemma NoNewlineInGoal()
    ensures '\n' !in SampleTask().goal
  {
  }

  lemma NoStarInGoal()
    ensures '*' !in " " + SampleTask().goal
  {
  }

  lemma SampleSuccessField()
    ensures FieldText(SampleTask().successCriteria, SuccessMarker)
  {
    var criteria := SampleTask().successCriteria;
    NoStarInCriteria();
    assert SuccessMarker[0] == '*';
    MarkerAbsent(SuccessMarker, " " + criteria, '*');
    NoNewlineInCriteria();
  }

  lemma NoNewlineInCriteria()
    ensures '\n' !in SampleTask().successCriteria
  {
  }

  lemma NoStarInCriteria()
    ensures '*' !in " " + SampleTask().successCriteria
  {
  }

  lemma SampleWellFormed()
    ensures WellFormedPlan([SamplePhase()])
  {
    var t := SampleTask();
    SampleGoalField();
    SampleSuccessField();
    assert IsTaskNumber(t.number);
    assert ActionText(t.actions[0]) && ActionText(t.actions[1]);
    assert WellFormedTask(t);
    assert WellFormedPhase(SamplePhase());
  }

  lemma SampleTaskLines()
    ensures TaskLines(SampleTask()) == SampleLines()[1..]
  {
    var t := SampleTask();
    var bullets := Bullets("- ", t.actions);
    assert bullets == ["- " + "Run init command", "- " + "Add readme"];
    assert TaskBodyLines(t) == SampleLines()[2..];
  }

  lemma SampleRendering()
    ensures PlanLines([SamplePhase()]) == SampleLines()
  {
    var t := SampleTask();
    assert [SamplePhase()][..0] == [];
    assert PlanLines([SamplePhase()]) == PhaseLines(SamplePhase());
    assert [t][..0] == [];
    assert TasksLines([t]) == TaskLines(t);
    assert NatToString(1) == "1";
    SampleTaskLines();
  }

  /** The sample document parses to phase 1 "Setup" holding task 1.1 with its goal,
      both actions in order and its success criteria. */
  lemma SampleParses()
    ensures Parse(Join("\n", SampleLines())) == Ok([SamplePhase()])
  {
    SampleWellFormed();
    SampleRendering();
    ParseRendersBack([SamplePhase()]);
  }

  /** Generating the sample under `base` creates `Phase1/TaskCheckList1.md` with the phase's
      checklist and `Phase1/Task1/` holding `Task1.md` and the two empty files. */
  lemma SampleLayout(fs: FileSystem, base: Path)
    ensures var out := Apply(fs, WritePlan(base, [SamplePhase()]));
      base + ["Phase1", "Task1"] in out.dirs
      && base + ["Phase1", "TaskCheckList1.md"] in out.files
      && out.files[base + ["Phase1", "TaskCheckList1.md"]] == ChecklistMd(SamplePhase())
      && base + ["Phase1", "Task1", "Task1.md"] in out.files
      && out.files[base + ["Phase1", "Task1", "Task1.md"]] == TaskMd(SampleTask())
      && base + ["Phase1", "Task1", "TaskCompleteNote1.md"] in out.files
      && out.files[base + ["Phase1", "Task1", "TaskCompleteNote1.md"]] == ""
      && base + ["Phase1", "Task1", "TaskReview1.md"] in out.files
      && out.files[base + ["Phase1", "Task1", "TaskReview1.md"]] == ""
  {
    SamplePaths(base);
    ChecklistWritten(fs, base, [SamplePhase()], 0);
    TaskFilesWritten(fs, base, [SamplePhase()], 0, 1);
    DirsCreated(fs, base, [SamplePhase()], 0, 1);
  }

  lemma SamplePaths(base: Path)
    ensures PhaseDir(base, 1) == base + ["Phase1"]
    ensures TaskDir(base, 1, 1) == base + ["Phase1", "Task1"]
    ensures ChecklistPath(base, 1) == base + ["Phase1", "TaskCheckList1.md"]
    ensures TaskPagePath(base, 1, 1) == base + ["Phase1", "Task1", "Task1.md"]
    ensures CompleteNotePath(base, 1, 1) == base + ["Phase1", "Task1", "TaskCompleteNote1.md"]
    ensures ReviewPath(base, 1, 1) == base + ["Phase1", "Task1", "TaskReview1.md"]
  {
    assert NatToString(1) == "1";
    assert "Phase" + "1" == "Phase1" && "Task" + "1" == "Task1";
    assert "TaskCheckList" + "1" + ".md" == "TaskCheckList1.md";
    assert "Task" + "1" + ".md" == "Task1.md";
    assert "TaskCompleteNote" + "1" + ".md" == "TaskCompleteNote1.md";
    assert "TaskReview" + "1" + ".md" == "TaskReview1.md";
    assert base + ["Phase1"] + ["Task1"] == base + ["Phase1", "Task1"];
    assert base + ["Phase1"] + ["TaskCheckList1.md"] == base + ["Phase1", "TaskCheckList1.md"];
    assert base + ["Phase1", "Task1"] + ["Task1.md"] == base + ["Phase1", "Task1", "Task1.md"];
    assert base + ["Phase1", "Task1"] + ["TaskCompleteNote1.md"] == base + ["Phase1", "Task1", "TaskCompleteNote1.md"];
    assert base + ["Phase1", "Task1"] + ["TaskReview1.md"] == base + ["Phase1", "Task1", "TaskReview1.md"];
  }
}
