/** The entities of the action plan (`Task`, `Phase`) and their markdown renderings. */
module PlanModel {
  import opened Text

  /** One task: its dotted number ("2.3"), title, goal, ordered actions and success criteria. */
  datatype Task = Task(number: string, title: string, goal: string, actions: seq<string>, successCriteria: string)

  /** The value of a phase: number, title, description and its tasks in insertion order. */
  datatype PhaseData = PhaseData(number: nat, title: string, description: string, tasks: seq<Task>)

  /** `Task.get_full_title`. */
  function FullTitle(t: Task): string {
    "Task " + t.number + ": " + t.title
  }

  /** The list comprehension `[f"{marker}{item}" for item in items]`. */
  function Bullets(marker: string, items: seq<string>): (r: seq<string>)
    ensures |r| == |items|
    ensures forall k :: 0 <= k < |items| ==> r[k] == marker + items[k]
  {
    seq(|items|, k requires 0 <= k < |items| => marker + items[k])
  }

  /** `Task.to_task_md`: the page written to `Task<i>.md`, given as the lines of
      its template. */
  function TaskMd(t: Task): string {
    var actionsText := Join("\n", Bullets("- ", t.actions));
    Join("\n", [
      "# " + FullTitle(t),
      "",
      "**Goal**: " + t.goal,
      "",
      "**Actions**:",
      "",
      actionsText,
      "",
      "**Success Criteria**: " + t.successCriteria,
      ""])
  }

  /** `Task.to_checklist_section`: the entry of a task in its phase's checklist. */
  function ChecklistSection(t: Task): string {
    var actionsText := Join("\n", Bullets("- [ ] ", t.actions));
    Join("\n", [
      "### " + FullTitle(t),
      "",
      actionsText,
      "- [ ] **Success Criteria**: " + t.successCriteria,
      ""])
  }

  function Sections(tasks: seq<Task>): (r: seq<string>)
    ensures |r| == |tasks|
    ensures forall k :: 0 <= k < |tasks| ==> r[k] == ChecklistSection(tasks[k])
  {
    seq(|tasks|, k requires 0 <= k < |tasks| => ChecklistSection(tasks[k]))
  }

  /** The Tasks part of a phase checklist: the sections joined by a blank line. */
  function TasksText(tasks: seq<Task>): string {
    Join("\n\n", Sections(tasks))
  }

  /** The description when it is non-empty, otherwise a sentence built from the title. */
  function Overview(p: PhaseData): string {
    if p.description != "" then p.description else "This phase focuses on " + Lower(p.title) + "."
  }

  /** `Phase.to_checklist_md`: the page written to `TaskCheckList<N>.md`. */
  function ChecklistMd(p: PhaseData): string {
    Join("\n", [
      "# Task Checklist for Phase " + NatToString(p.number) + ": " + p.title,
      "",
      "## Overview",
      "",
      Overview(p),
      "",
      "## Tasks",
      "",
      TasksText(p.tasks),
      ""])
  }

  /** A phase whose `tasks` list grows in place through `AddTask`. */
  class Phase {
    var number: nat
    var title: string
    var description: string
    var tasks: seq<Task>

    function Value(): PhaseData
      reads this
    {
      PhaseData(number, title, description, tasks)
    }

    constructor (number: nat, title: string, description: string := "")
      ensures Value() == PhaseData(number, title, description, [])
    {
      this.number := number;
      this.title := title;
      this.description := description;
      this.tasks := [];
    }

    /** `Phase.add_task`: appends, and the checklist gains exactly the new section. */
    method AddTask(task: Task)
      modifies this
      ensures Value() == old(Value()).(tasks := old(tasks) + [task])
      ensures TasksText(tasks) ==
        if old(tasks) == [] then ChecklistSection(task) else TasksText(old(tasks)) + "\n\n" + ChecklistSection(task)
    {
      TasksTextAppend(tasks, task);
      tasks := tasks + [task];
    }

    function ToChecklistMd(): string
      reads this
    {
      ChecklistMd(Value())
    }
  }

  /** No newline in any field: every field stays on its own line once rendered. */
  predicate SingleLine(t: Task) {
    '\n' !in t.number && '\n' !in t.title && '\n' !in t.goal && '\n' !in t.successCriteria
    && forall k :: 0 <= k < |t.actions| ==> '\n' !in t.actions[k]
  }

  /** The lines of a rendered action list: one line `marker + action` per action, in
      order, or one empty line when there are no actions. */
  lemma BulletLines(marker: string, items: seq<string>)
    requires '\n' !in marker
    requires forall k :: 0 <= k < |items| ==> '\n' !in items[k]
    ensures Split(Join("\n", Bullets(marker, items)), '\n') ==
      if items == [] then [""] else Bullets(marker, items)
  {
    if items != [] {
      SplitJoin(Bullets(marker, items), '\n');
    }
  }

  /** The detail page, line by line: the "# " title, the goal after its marker, every
      action once and in order as "- " + action, and the success criteria after its marker. */
  lemma TaskMdLines(t: Task)
    requires SingleLine(t)
    ensures Split(TaskMd(t), '\n') ==
      ["# " + FullTitle(t), "", "**Goal**: " + t.goal, "", "**Actions**:", ""]
      + (if t.actions == [] then [""] else Bullets("- ", t.actions))
      + ["", "**Success Criteria**: " + t.successCriteria, ""]
  {
    var pre := ["# " + FullTitle(t), "", "**Goal**: " + t.goal, "", "**Actions**:", ""];
    var mid := Join("\n", Bullets("- ", t.actions));
    var post := ["", "**Success Criteria**: " + t.successCriteria, ""];
    assert pre + [mid] + post == ["# " + FullTitle(t), "", "**Goal**: " + t.goal, "", "**Actions**:", "",
      mid, "", "**Success Criteria**: " + t.successCriteria, ""];
    SplitOfJoinAround(pre, mid, post, '\n');
    BulletLines("- ", t.actions);
  }

  /** The checklist entry, line by line: the "### " title, every action once and in
      order as an unchecked box, then exactly one unchecked success-criteria box,
      also when there are no actions. */
  lemma ChecklistSectionLines(t: Task)
    requires SingleLine(t)
    ensures Split(ChecklistSection(t), '\n') ==
      ["### " + FullTitle(t), ""]
      + (if t.actions == [] then [""] else Bullets("- [ ] ", t.actions))
      + ["- [ ] **Success Criteria**: " + t.successCriteria, ""]
  {
    var pre := ["### " + FullTitle(t), ""];
    var mid := Join("\n", Bullets("- [ ] ", t.actions));
    var post := ["- [ ] **Success Criteria**: " + t.successCriteria, ""];
    assert pre + [mid] + post == ["### " + FullTitle(t), "", mid, "- [ ] **Success Criteria**: " + t.successCriteria, ""];
    SplitOfJoinAround(pre, mid, post, '\n');
    BulletLines("- [ ] ", t.actions);
  }

  /** Adding a task extends the Tasks part by a blank line and the new task's section. */
  lemma TasksTextAppend(tasks: seq<Task>, t: Task)
    ensures TasksText(tasks + [t]) ==
      if tasks == [] then ChecklistSection(t) else TasksText(tasks) + "\n\n" + ChecklistSection(t)
  {
    assert Sections(tasks + [t]) == Sections(tasks) + [ChecklistSection(t)];
    if tasks != [] {
      JoinSnoc("\n\n", Sections(tasks), ChecklistSection(t));
    }
  }

  lemma LowerKeepsLines(s: string)
    requires '\n' !in s
    ensures '\n' !in Lower(s)
  {
    assert forall k :: 0 <= k < |s| ==> Lower(s)[k] != '\n';
  }

  /** The phase checklist, line by line: the title line with the phase number, the
      Overview (the description, or the fallback sentence built from the lower-cased
      title), then the Tasks part, which is empty for a phase without tasks. */
  lemma ChecklistMdLines(p: PhaseData)
    requires '\n' !in p.title && '\n' !in p.description
    ensures Split(ChecklistMd(p), '\n') ==
      ["# Task Checklist for Phase " + NatToString(p.number) + ": " + p.title, "", "## Overview", "",
       if p.description != "" then p.description else "This phase focuses on " + Lower(p.title) + ".",
       "", "## Tasks", ""]
      + Split(TasksText(p.tasks), '\n') + [""]
    ensures p.tasks == [] ==> Split(TasksText(p.tasks), '\n') == [""]
  {
    var pre := ["# Task Checklist for Phase " + NatToString(p.number) + ": " + p.title, "", "## Overview", "",
                Overview(p), "", "## Tasks", ""];
    var mid := TasksText(p.tasks);
    assert '\n' !in NatToString(p.number);
    LowerKeepsLines(p.title);
    assert pre + [mid] + [""] == ["# Task Checklist for Phase " + NatToString(p.number) + ": " + p.title, "",
      "## Overview", "", Overview(p), "", "## Tasks", "", mid, ""];
    SplitOfJoinAround(pre, mid, [""], '\n');
  }
}
