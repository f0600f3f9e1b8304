/** The action-plan document the parser reads, written out from phases: a phase
    heading per phase, then per task its "### Task" heading (the same line as its
    checklist heading), its goal line, the actions marker, one "- " bullet per action
    and its success line. Parsing that document gives the phases back. */
module PlanDocument {
  import opened Text
  import opened PlanModel
  import opened PlanParser
  import opened ParserProperties

  /** A goal or success text that reads back unchanged from its marker line: stripped,
      on one line, and without the marker inside it. */
  predicate FieldText(s: string, marker: string) {
    IsStripped(s) && '\n' !in s && !Occurs(marker, " " + s)
  }

  /** An action that reads back from its bullet: non-empty, stripped, on one line. */
  predicate ActionText(a: string) {
    a != [] && IsStripped(a) && '\n' !in a
  }

  predicate WellFormedTask(t: Task) {
    IsTaskNumber(t.number) && t.title != [] && '\n' !in t.title
    && FieldText(t.goal, GoalMarker) && FieldText(t.successCriteria, SuccessMarker)
    && forall k :: 0 <= k < |t.actions| ==> ActionText(t.actions[k])
  }

  /** A phase as the parser builds it: no description, a one-line non-empty title and
      well-formed tasks. */
  predicate WellFormedPhase(p: PhaseData) {
    p.description == "" && p.title != [] && '\n' !in p.title
    && forall k :: 0 <= k < |p.tasks| ==> WellFormedTask(p.tasks[k])
  }

  predicate WellFormedPlan(ps: seq<PhaseData>) {
    forall k :: 0 <= k < |ps| ==> WellFormedPhase(ps[k])
  }

  function TaskLines(t: Task): seq<string> {
    ["### " + FullTitle(t)] + TaskBodyLines(t)
  }

  /** The lines after a task heading: goal, actions marker, bullets, success criteria. */
  function TaskBodyLines(t: Task): seq<string> {
    [GoalMarker + " " + t.goal] + ([ActionsMarker] + (Bullets("- ", t.actions) + [SuccessMarker + " " + t.successCriteria]))
  }

  function TasksLines(ts: seq<Task>): seq<string> {
    if ts == [] then [] else TasksLines(ts[..|ts| - 1]) + TaskLines(ts[|ts| - 1])
  }

  function PhaseLines(p: PhaseData): seq<string> {
    [PhasePrefix + NatToString(p.number) + ": " + p.title] + TasksLines(p.tasks)
  }

  function PlanLines(ps: seq<PhaseData>): seq<string> {
    if ps == [] then [] else PlanLines(ps[..|ps| - 1]) + PhaseLines(ps[|ps| - 1])
  }

  /** The document: its lines joined by newlines. */
  function PlanText(ps: seq<PhaseData>): string {
    Join("\n", PlanLines(ps))
  }

  /** The phases with `ts` appended, in order, to the tasks of the last one. */
  function AppendAllToLast(phases: seq<PhaseData>, ts: seq<Task>): seq<PhaseData>
    requires phases != []
  {
    var last := phases[|phases| - 1];
    phases[..|phases| - 1] + [last.(tasks := last.tasks + ts)]
  }

  /** A parser state whose final save would give `done`, with a pending task that is
      either absent or numbered, and none while no phase exists. */
  predicate Settled(st: ParseState, done: seq<PhaseData>) {
    Flushed(st.phases, st.draft) == Ok(done)
    && (st.draft == NoDraft || st.draft.header.Some?)
    && (st.phases == [] ==> st.draft == NoDraft)
  }

  /** The actions of a task come back from its bullets. */
  lemma {:induction false} ActionItemsOfBullets(actions: seq<string>)
    requires forall k :: 0 <= k < |actions| ==> ActionText(actions[k])
    ensures AllContent(Bullets("- ", actions))
    ensures ActionItems(Bullets("- ", actions)) == actions
    decreases |actions|
  {
    if actions != [] {
      var init := actions[..|actions| - 1];
      var last := actions[|actions| - 1];
      BulletsSnoc(actions);
      ActionItemsSnoc(Bullets("- ", init), "- " + last);
      ActionItemsOfBullets(init);
      BulletLine(last);
    }
    BulletsAreContent(actions);
  }

  lemma BulletsSnoc(actions: seq<string>)
    requires actions != []
    ensures Bullets("- ", actions)
      == Bullets("- ", actions[..|actions| - 1]) + ["- " + actions[|actions| - 1]]
    ensures actions == actions[..|actions| - 1] + [actions[|actions| - 1]]
  {
  }

  lemma BulletsAreContent(actions: seq<string>)
    requires forall k :: 0 <= k < |actions| ==> ActionText(actions[k])
    ensures AllContent(Bullets("- ", actions))
  {
    forall k | 0 <= k < |actions|
      ensures IsContentLine(Bullets("- ", actions)[k])
    {
      BulletLine(actions[k]);
    }
  }

  lemma ActionItemsSnoc(lines: seq<string>, line: string)
    ensures ActionItems(lines + [line]) == ActionItems(lines) + ActionItems([line])
  {
    assert (lines + [line])[..|lines|] == lines;
    assert [line][..0] == [];
  }

  /** The task's fields as the dictionary holds them after its lines. */
  function FilledDraft(t: Task): Draft {
    Draft(Some((t.number, t.title)), if t.goal != "" then Some(t.goal) else None, Some(t.actions),
          if t.successCriteria != "" then Some(t.successCriteria) else None)
  }

  /** A task heading after a settled state with a phase saves the pending task and
      starts the new one. */
  lemma TaskHeading(st: ParseState, done: seq<PhaseData>, t: Task)
    requires Settled(st, done) && done != [] && WellFormedTask(t)
    ensures Step(st, "### " + FullTitle(t)) ==
      Ok(ParseState(done, Draft(Some((t.number, t.title)), None, Some([]), None), NoSection, []))
  {
    var heading := "### " + FullTitle(t);
    assert heading == TaskPrefix + t.number + ": " + t.title;
    TaskHeadingLine(t.number, t.title, heading);
    StepCases(st, heading);
  }

  /** The body lines fill in the goal, the actions and the success criteria. */
  lemma TaskBody(done: seq<PhaseData>, t: Task)
    requires WellFormedTask(t)
    ensures Run(ParseState(done, Draft(Some((t.number, t.title)), None, Some([]), None), NoSection, []), TaskBodyLines(t))
         == Ok(ParseState(done, FilledDraft(t), SuccessSection, t.actions))
  {
    var d1 := Draft(Some((t.number, t.title)), None, Some([]), None);
    var s1 := ParseState(done, d1, NoSection, []);
    GoalLine(s1, t.goal);
    var d2 := if t.goal != "" then d1.(goal := Some(t.goal)) else d1;
    var s2 := ParseState(done, d2, GoalSection, []);
    ActionsLine(s2);
    var s3 := ParseState(done, d2, ActionsSection, []);
    var bullets := Bullets("- ", t.actions);
    ActionItemsOfBullets(t.actions);
    ActionsAccumulate(s3, bullets);
    assert [] + t.actions == t.actions;
    var s4 := ParseState(done, d2.(actions := Some(t.actions)), ActionsSection, t.actions);
    assert Run(s3, bullets) == Ok(s4);
    var success := SuccessMarker + " " + t.successCriteria;
    SuccessLine(s4, t.successCriteria);
    RunCons(s4, success, []);
    RunAppend(s3, bullets, [success]);
    RunCons(s2, ActionsMarker, bullets + [success]);
    RunCons(s1, GoalMarker + " " + t.goal, [ActionsMarker] + (bullets + [success]));
  }

  /** One task's lines, after a settled state with a phase, settle with the task
      appended to the last phase. */
  lemma TaskBlock(st: ParseState, done: seq<PhaseData>, t: Task)
    requires Settled(st, done) && done != [] && WellFormedTask(t)
    ensures Run(st, TaskLines(t)).Ok?
    ensures Settled(Run(st, TaskLines(t)).value, AppendToLast(done, t))
  {
    TaskHeading(st, done, t);
    TaskBody(done, t);
    RunCons(st, "### " + FullTitle(t), TaskBodyLines(t));
    assert ToTask(FilledDraft(t)) == t;
  }

  lemma AppendAllSnoc(done: seq<PhaseData>, ts: seq<Task>, t: Task)
    requires done != []
    ensures AppendToLast(AppendAllToLast(done, ts), t) == AppendAllToLast(done, ts + [t])
  {
    var before := AppendAllToLast(done, ts);
    var last := done[|done| - 1];
    assert before[..|before| - 1] == done[..|done| - 1];
    assert last.tasks + ts + [t] == last.tasks + (ts + [t]);
  }

  /** The last element split off, without any other facts in scope. */
  lemma SplitLast<T>(xs: seq<T>)
    requires xs != []
    ensures xs[..|xs| - 1] + [xs[|xs| - 1]] == xs
  {
  }

  lemma TasksLinesSnoc(ts: seq<Task>)
    requires ts != []
    ensures TasksLines(ts) == TasksLines(ts[..|ts| - 1]) + TaskLines(ts[|ts| - 1])
    ensures ts[..|ts| - 1] + [ts[|ts| - 1]] == ts
    ensures forall k :: 0 <= k < |ts| - 1 ==> ts[..|ts| - 1][k] == ts[k]
  {
    SplitLast(ts);
  }

  /** The lines of several tasks append them all, in order, to the last phase. */
  lemma {:induction false} TasksBlock(st: ParseState, done: seq<PhaseData>, ts: seq<Task>)
    requires Settled(st, done) && done != []
    requires forall k :: 0 <= k < |ts| ==> WellFormedTask(ts[k])
    ensures Run(st, TasksLines(ts)).Ok?
    ensures Settled(Run(st, TasksLines(ts)).value, AppendAllToLast(done, ts))
    decreases |ts|
  {
    var last := done[|done| - 1];
    if ts == [] {
      assert last.tasks + ts == last.tasks;
      assert AppendAllToLast(done, ts) == done;
    } else {
      var init := ts[..|ts| - 1];
      var t := ts[|ts| - 1];
      TasksLinesSnoc(ts);
      TasksBlock(st, done, init);
      var mid := Run(st, TasksLines(init)).value;
      var before := AppendAllToLast(done, init);
      TaskBlock(mid, before, t);
      RunAppend(st, TasksLines(init), TaskLines(t));
      AppendAllSnoc(done, init, t);
    }
  }

  /** A phase's lines add that phase, with all its tasks, after the settled ones. */
  lemma PhaseBlock(st: ParseState, done: seq<PhaseData>, p: PhaseData)
    requires Settled(st, done) && WellFormedPhase(p)
    ensures Run(st, PhaseLines(p)).Ok?
    ensures Settled(Run(st, PhaseLines(p)).value, done + [p])
  {
    var heading := PhasePrefix + NatToString(p.number) + ": " + p.title;
    var newPhase := PhaseData(p.number, p.title, "", []);
    PhaseHeadingStep(st, done, p);
    var s1 := Step(st, heading).value;
    TasksBlock(s1, done + [newPhase], p.tasks);
    FillNewPhase(done, p);
    RunCons(st, heading, TasksLines(p.tasks));
  }

  /** A phase heading after settled phases opens that phase, empty, with nothing pending. */
  lemma PhaseHeadingStep(st: ParseState, done: seq<PhaseData>, p: PhaseData)
    requires Settled(st, done) && WellFormedPhase(p)
    ensures var heading := PhasePrefix + NatToString(p.number) + ": " + p.title;
      Step(st, heading).Ok? && Settled(Step(st, heading).value, done + [PhaseData(p.number, p.title, "", [])])
  {
    var heading := PhasePrefix + NatToString(p.number) + ": " + p.title;
    PhaseHeadingLine(NatToString(p.number), p.title, heading);
    DigitsValueOfNatToString(p.number);
    StepCases(st, heading);
    var s1 := Step(st, heading).value;
    assert s1.phases == done + [PhaseData(p.number, p.title, "", [])] && s1.draft == NoDraft;
  }

  /** Appending a phase's tasks to its freshly opened, empty copy gives the phase. */
  lemma FillNewPhase(done: seq<PhaseData>, p: PhaseData)
    requires p.description == ""
    ensures AppendAllToLast(done + [PhaseData(p.number, p.title, "", [])], p.tasks) == done + [p]
  {
    var newPhase := PhaseData(p.number, p.title, "", []);
    assert (done + [newPhase])[..|done|] == done;
    assert newPhase.tasks + p.tasks == p.tasks;
  }

  /** The lines of a whole plan leave a state whose final save gives the plan. */
  lemma {:induction false} PlanRun(ps: seq<PhaseData>)
    requires WellFormedPlan(ps)
    ensures Run(Initial, PlanLines(ps)).Ok?
    ensures Settled(Run(Initial, PlanLines(ps)).value, ps)
    decreases |ps|
  {
    if ps != [] {
      var init, last := ps[..|ps| - 1], ps[|ps| - 1];
      PlanLinesSnoc(ps);
      WellFormedPlanSnoc(ps);
      PlanRun(init);
      var st := Run(Initial, PlanLines(init)).value;
      PhaseBlock(st, init, last);
      RunAppend(Initial, PlanLines(init), PhaseLines(last));
    }
  }

  lemma PlanLinesSnoc(ps: seq<PhaseData>)
    requires ps != []
    ensures PlanLines(ps) == PlanLines(ps[..|ps| - 1]) + PhaseLines(ps[|ps| - 1])
    ensures ps[..|ps| - 1] + [ps[|ps| - 1]] == ps
  {
    SplitLast(ps);
  }

  lemma WellFormedPlanSnoc(ps: seq<PhaseData>)
    requires ps != [] && WellFormedPlan(ps)
    ensures WellFormedPlan(ps[..|ps| - 1]) && WellFormedPhase(ps[|ps| - 1])
  {
    var init := ps[..|ps| - 1];
    assert forall k :: 0 <= k < |init| ==> init[k] == ps[k];
  }

  /** Parsing the lines of a well-formed plan gives the plan back. */
  lemma ParseLinesRendersBack(ps: seq<PhaseData>)
    requires WellFormedPlan(ps)
    ensures ParseLines(PlanLines(ps)) == Ok(ps)
  {
    PlanRun(ps);
  }

  predicate NoNewlines(lines: seq<string>) {
    forall k :: 0 <= k < |lines| ==> '\n' !in lines[k]
  }

  lemma TaskLinesNoNewlines(t: Task)
    requires WellFormedTask(t)
    ensures NoNewlines(TaskLines(t))
  {
    assert '\n' !in t.number by {
      assert forall k :: 0 <= k < |t.number| ==> t.number[k] != '\n';
    }
    var b := Bullets("- ", t.actions);
    assert NoNewlines(b);
  }

  lemma {:induction false} TasksLinesNoNewlines(ts: seq<Task>)
    requires forall k :: 0 <= k < |ts| ==> WellFormedTask(ts[k])
    ensures NoNewlines(TasksLines(ts))
    decreases |ts|
  {
    if ts != [] {
      TasksLinesNoNewlines(ts[..|ts| - 1]);
      TaskLinesNoNewlines(ts[|ts| - 1]);
    }
  }

  lemma {:induction false} PlanLinesNoNewlines(ps: seq<PhaseData>)
    requires WellFormedPlan(ps)
    ensures NoNewlines(PlanLines(ps))
    decreases |ps|
  {
    if ps != [] {
      var p := ps[|ps| - 1];
      PlanLinesNoNewlines(ps[..|ps| - 1]);
      TasksLinesNoNewlines(p.tasks);
      assert '\n' !in NatToString(p.number);
    }
  }

  /** Parsing the document of a well-formed plan gives the plan back: the parser reads
      every phase, every task in order and every field of a task unchanged. */
  lemma ParseRendersBack(ps: seq<PhaseData>)
    requires WellFormedPlan(ps)
    ensures Parse(PlanText(ps)) == Ok(ps)
  {
    if ps == [] {
      assert PlanText(ps) == "";
      assert AllContent([""]);
      UnsectionedLinesIgnored(Initial, [""]);
    } else {
      assert PlanLines(ps) != [] by {
        assert |PhaseLines(ps[|ps| - 1])| >= 1;
      }
      PlanLinesNoNewlines(ps);
      SplitJoin(PlanLines(ps), '\n');
      ParseLinesRendersBack(ps);
    }
  }
}
