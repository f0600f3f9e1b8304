/** Properties of `parse_action_plan` over a whole text: every field it produces is a
    single line, and the tasks of each phase are the task headings found under that
    phase's heading. */
module WholeParse {
  import opened Text
  import opened PlanModel
  import opened PlanParser
  import opened ParserProperties

  // Every field the parser produces is free of newlines.

  predicate PhaseSingleLine(p: PhaseData) {
    '\n' !in p.title && '\n' !in p.description
    && forall j :: 0 <= j < |p.tasks| ==> SingleLine(p.tasks[j])
  }

  predicate PhasesSingleLine(ps: seq<PhaseData>) {
    forall k :: 0 <= k < |ps| ==> PhaseSingleLine(ps[k])
  }

  predicate ItemsSingleLine(items: seq<string>) {
    forall k :: 0 <= k < |items| ==> '\n' !in items[k]
  }

  predicate OptionSingleLine(o: Option<string>) {
    o.Some? ==> '\n' !in o.value
  }

  predicate DraftSingleLine(d: Draft) {
    (d.header.Some? ==> '\n' !in d.header.value.0 && '\n' !in d.header.value.1)
    && OptionSingleLine(d.goal) && OptionSingleLine(d.success)
    && (d.actions.Some? ==> ItemsSingleLine(d.actions.value))
  }

  predicate StateSingleLine(st: ParseState) {
    PhasesSingleLine(st.phases) && DraftSingleLine(st.draft) && ItemsSingleLine(st.items)
  }

  lemma {:induction false} RemoveAllKeepsOut(s: string, p: string, c: char)
    requires p != [] && c !in s
    ensures c !in RemoveAll(s, p)
    decreases |s|
  {
    if |s| < |p| {
    } else if s[..|p|] == p {
      assert forall k :: 0 <= k < |s[|p|..]| ==> s[|p|..][k] == s[k + |p|];
      RemoveAllKeepsOut(s[|p|..], p, c);
    } else {
      assert forall k :: 0 <= k < |s[1..]| ==> s[1..][k] == s[k + 1];
      RemoveAllKeepsOut(s[1..], p, c);
    }
  }

  lemma StripKeepsOut(s: string, c: char)
    requires c !in s
    ensures c !in Strip(s)
  {
    var t := TrimStart(s);
    SuffixKeepsOut(s, |s| - |t|, c);
    PrefixKeepsOut(t, |TrimEnd(t)|, c);
  }

  lemma SuffixKeepsOut(s: string, i: nat, c: char)
    requires i <= |s| && c !in s
    ensures c !in s[i..]
  {
    assert forall k :: 0 <= k < |s| - i ==> s[i..][k] == s[i + k];
  }

  lemma PrefixKeepsOut(s: string, i: nat, c: char)
    requires i <= |s| && c !in s
    ensures c !in s[..i]
  {
    assert forall k :: 0 <= k < i ==> s[..i][k] == s[k];
  }

  /** The marker-line text: `line.replace(marker, '').strip()`. */
  lemma MarkerTextSingleLine(line: string, marker: string)
    requires marker != [] && '\n' !in line
    ensures '\n' !in Strip(RemoveAll(line, marker))
  {
    RemoveAllKeepsOut(line, marker, '\n');
    StripKeepsOut(RemoveAll(line, marker), '\n');
  }

  lemma ExtendSingleLine(field: Option<string>, text: string)
    requires OptionSingleLine(field) && '\n' !in text
    ensures '\n' !in Extend(field, text)
  {
  }

  lemma MatchPhaseSingleLine(line: string)
    requires '\n' !in line && MatchPhase(line).Some?
    ensures '\n' !in MatchPhase(line).value.1
  {
    var rest := line[|PhasePrefix|..];
    var n := LeadingCount(rest, IsDigit);
    SuffixKeepsOut(line, |PhasePrefix|, '\n');
    SuffixKeepsOut(rest, n + 2, '\n');
  }

  lemma MatchTaskSingleLine(line: string)
    requires '\n' !in line && MatchTask(line).Some?
    ensures '\n' !in MatchTask(line).value.0 && '\n' !in MatchTask(line).value.1
  {
    var rest := line[|TaskPrefix|..];
    var n := LeadingCount(rest, IsTaskNumberChar);
    SuffixKeepsOut(line, |TaskPrefix|, '\n');
    PrefixKeepsOut(rest, n, '\n');
    SuffixKeepsOut(rest, n + 2, '\n');
  }

  lemma FlushedSingleLine(phases: seq<PhaseData>, draft: Draft)
    requires PhasesSingleLine(phases) && DraftSingleLine(draft) && Flushed(phases, draft).Ok?
    ensures PhasesSingleLine(Flushed(phases, draft).value)
  {
    if !draft.IsEmpty() && phases != [] {
      var t := ToTask(draft);
      assert SingleLine(t);
      var last := phases[|phases| - 1];
      assert PhaseSingleLine(last.(tasks := last.tasks + [t]));
    }
  }

  lemma OnPhaseSingleLine(st: ParseState, number: nat, title: string)
    requires StateSingleLine(st) && '\n' !in title && OnPhase(st, number, title).Ok?
    ensures StateSingleLine(OnPhase(st, number, title).value)
  {
    if !st.draft.IsEmpty() && st.phases != [] {
      FlushedSingleLine(st.phases, st.draft);
    }
  }

  lemma OnTaskSingleLine(st: ParseState, number: string, title: string)
    requires StateSingleLine(st) && '\n' !in number && '\n' !in title && OnTask(st, number, title).Ok?
    ensures StateSingleLine(OnTask(st, number, title).value)
  {
    FlushedSingleLine(st.phases, st.draft);
  }

  lemma AccumulateSingleLine(st: ParseState, line: string)
    requires StateSingleLine(st) && '\n' !in line
    ensures StateSingleLine(Accumulate(st, line))
  {
    var text := Strip(line);
    StripKeepsOut(line, '\n');
    var r := Accumulate(st, line);
    match st.section
    case GoalSection =>
      ExtendSingleLine(st.draft.goal, text);
      assert r.phases == st.phases && r.items == st.items;
    case ActionsSection =>
      if StartsWith(text, "- ") {
        SuffixKeepsOut(text, 2, '\n');
        assert r.items == st.items + [text[2..]];
        assert r.draft.actions == Some(r.items);
      }
    case SuccessSection =>
      ExtendSingleLine(st.draft.success, text);
      assert r.phases == st.phases && r.items == st.items;
    case NoSection =>
  }

  lemma OnLineSingleLine(st: ParseState, line: string)
    requires StateSingleLine(st) && '\n' !in line
    ensures StateSingleLine(OnLine(st, line))
  {
    var r := OnLine(st, line);
    if StartsWith(line, GoalMarker) {
      MarkerTextSingleLine(line, GoalMarker);
      assert r.phases == st.phases && r.items == st.items;
      assert DraftSingleLine(r.draft);
    } else if StartsWith(line, ActionsMarker) {
      assert r == st.(section := ActionsSection, items := []);
    } else if StartsWith(line, SuccessMarker) {
      MarkerTextSingleLine(line, SuccessMarker);
      assert r.phases == st.phases && r.items == st.items;
      assert DraftSingleLine(r.draft);
    } else {
      AccumulateSingleLine(st, line);
    }
  }

  lemma StepSingleLine(st: ParseState, line: string)
    requires StateSingleLine(st) && '\n' !in line && Step(st, line).Ok?
    ensures StateSingleLine(Step(st, line).value)
  {
    StepCases(st, line);
    if MatchPhase(line).Some? {
      MatchPhaseSingleLine(line);
      OnPhaseSingleLine(st, MatchPhase(line).value.0, MatchPhase(line).value.1);
    } else if MatchTask(line).Some? {
      MatchTaskSingleLine(line);
      OnTaskSingleLine(st, MatchTask(line).value.0, MatchTask(line).value.1);
    } else {
      OnLineSingleLine(st, line);
    }
  }

  lemma {:induction false} RunSingleLine(lines: seq<string>)
    requires ItemsSingleLine(lines) && Run(Initial, lines).Ok?
    ensures StateSingleLine(Run(Initial, lines).value)
    decreases |lines|
  {
    if lines != [] {
      var init := lines[..|lines| - 1];
      assert ItemsSingleLine(init) by {
        assert forall k :: 0 <= k < |init| ==> init[k] == lines[k];
      }
      RunSingleLine(init);
      StepSingleLine(Run(Initial, init).value, lines[|lines| - 1]);
    }
  }

  /** Every phase title, description and task field the parser produces is a single
      line, as the renderers of the task page and the checklist expect. */
  lemma ParsedSingleLine(text: string)
    ensures Parse(text).Ok? ==> PhasesSingleLine(Parse(text).value)
  {
    var lines := Split(text, '\n');
    if Parse(text).Ok? {
      RunSingleLine(lines);
      var st := Run(Initial, lines).value;
      FlushedSingleLine(st.phases, st.draft);
    }
  }

  // The tasks of each phase are the task headings under that phase's heading.

  /** A task heading's (number, title). */
  type TaskId = (string, string)

  function TaskIds(ts: seq<Task>): seq<TaskId> {
    seq(|ts|, k requires 0 <= k < |ts| => (ts[k].number, ts[k].title))
  }

  function TaskIdLists(ps: seq<PhaseData>): seq<seq<TaskId>> {
    seq(|ps|, k requires 0 <= k < |ps| => TaskIds(ps[k].tasks))
  }

  /** The task headings grouped by phase: a phase heading opens a new group, a task
      heading joins the last group, and task headings before any phase heading are
      not counted. */
  function NextGroups(groups: seq<seq<TaskId>>, line: string): seq<seq<TaskId>> {
    if MatchPhase(line).Some? then groups + [[]]
    else if MatchTask(line).Some? && groups != [] then
      groups[..|groups| - 1] + [groups[|groups| - 1] + [MatchTask(line).value]]
    else groups
  }

  function TaskGroups(lines: seq<string>): seq<seq<TaskId>> {
    if lines == [] then [] else NextGroups(TaskGroups(lines[..|lines| - 1]), lines[|lines| - 1])
  }

  /** Every task heading comes after some phase heading. */
  predicate PhaseFirst(lines: seq<string>) {
    lines == []
    || (PhaseFirst(lines[..|lines| - 1])
        && (MatchPhase(lines[|lines| - 1]).None? && MatchTask(lines[|lines| - 1]).Some?
            ==> PhaseHeadings(lines[..|lines| - 1]) != []))
  }

  /** The phases once the pending task, if it has a heading, is added to the last one. */
  function Pending(st: ParseState): seq<PhaseData> {
    if st.draft.header.Some? && st.phases != [] then AppendToLast(st.phases, ToTask(st.draft))
    else st.phases
  }

  predicate GroupsInvariant(st: ParseState, groups: seq<seq<TaskId>>) {
    (st.draft.header.Some? ==> st.phases != []) && TaskIdLists(Pending(st)) == groups
  }

  /** Appending a task to the last phase appends its heading to the last group. */
  lemma TaskIdListsAppend(ps: seq<PhaseData>, t: Task)
    requires ps != []
    ensures var g := TaskIdLists(ps);
      TaskIdLists(AppendToLast(ps, t)) == g[..|g| - 1] + [g[|g| - 1] + [(t.number, t.title)]]
  {
    var g := TaskIdLists(ps);
    var last := ps[|ps| - 1];
    assert TaskIds(last.tasks + [t]) == TaskIds(last.tasks) + [(t.number, t.title)];
  }

  lemma TaskIdListsSnoc(ps: seq<PhaseData>, p: PhaseData)
    requires p.tasks == []
    ensures TaskIdLists(ps + [p]) == TaskIdLists(ps) + [[]]
  {
    assert TaskIds(p.tasks) == [];
    assert forall k :: 0 <= k < |ps| ==> (ps + [p])[k] == ps[k];
  }

  /** The pending phases, which is what the final flush returns when it succeeds. */
  lemma FlushedIsPending(st: ParseState)
    requires (st.draft.header.Some? ==> st.phases != []) && Flushed(st.phases, st.draft).Ok?
    ensures Flushed(st.phases, st.draft).value == Pending(st)
  {
  }

  /** A line that is not a heading changes neither the phases nor the task heading. */
  lemma OnLineGroups(st: ParseState, line: string, groups: seq<seq<TaskId>>)
    requires GroupsInvariant(st, groups)
    ensures GroupsInvariant(OnLine(st, line), groups)
  {
    var r := OnLine(st, line);
    assert r.phases == st.phases && r.draft.header == st.draft.header;
    if st.draft.header.Some? {
      TaskIdListsAppend(st.phases, ToTask(st.draft));
      TaskIdListsAppend(r.phases, ToTask(r.draft));
    }
  }

  lemma PhaseStepGroups(st: ParseState, line: string, groups: seq<seq<TaskId>>)
    requires GroupsInvariant(st, groups) && MatchPhase(line).Some? && Step(st, line).Ok?
    ensures GroupsInvariant(Step(st, line).value, NextGroups(groups, line))
  {
    StepCases(st, line);
    var phase := PhaseData(MatchPhase(line).value.0, MatchPhase(line).value.1, "", []);
    if !st.draft.IsEmpty() && st.phases != [] {
      FlushedIsPending(st);
      TaskIdListsSnoc(Pending(st), phase);
    } else {
      TaskIdListsSnoc(st.phases, phase);
    }
  }

  lemma TaskStepGroups(st: ParseState, line: string, groups: seq<seq<TaskId>>)
    requires GroupsInvariant(st, groups) && MatchPhase(line).None? && MatchTask(line).Some?
    requires st.phases != [] && Step(st, line).Ok?
    ensures GroupsInvariant(Step(st, line).value, NextGroups(groups, line))
  {
    StepCases(st, line);
    FlushedIsPending(st);
    var ps := Pending(st);
    var r := Step(st, line).value;
    assert r.phases == ps && r.draft.header == Some(MatchTask(line).value);
    TaskIdListsAppend(ps, ToTask(r.draft));
  }

  /** One line keeps the invariant, given a current phase whenever it is a task heading. */
  lemma StepGroups(st: ParseState, line: string, groups: seq<seq<TaskId>>)
    requires GroupsInvariant(st, groups) && Step(st, line).Ok?
    requires MatchPhase(line).None? && MatchTask(line).Some? ==> st.phases != []
    ensures GroupsInvariant(Step(st, line).value, NextGroups(groups, line))
  {
    StepCases(st, line);
    if MatchPhase(line).Some? {
      PhaseStepGroups(st, line, groups);
    } else if MatchTask(line).Some? {
      TaskStepGroups(st, line, groups);
    } else {
      OnLineGroups(st, line, groups);
    }
  }

  lemma {:induction false} RunGroups(lines: seq<string>)
    requires PhaseFirst(lines) && Run(Initial, lines).Ok?
    ensures GroupsInvariant(Run(Initial, lines).value, TaskGroups(lines))
    decreases |lines|
  {
    if lines != [] {
      var init, line := lines[..|lines| - 1], lines[|lines| - 1];
      RunGroups(init);
      RunHeaders(init);
      StepGroups(Run(Initial, init).value, line, TaskGroups(init));
    }
  }

  /** When every task heading follows some phase heading, each phase gets exactly the
      task headings between its own heading and the next phase heading, in order, with
      their numbers and titles. */
  lemma TasksFollowHeadings(text: string)
    requires PhaseFirst(Split(text, '\n'))
    ensures Parse(text).Ok? ==> TaskIdLists(Parse(text).value) == TaskGroups(Split(text, '\n'))
  {
    var lines := Split(text, '\n');
    if Parse(text).Ok? {
      RunGroups(lines);
      FlushedIsPending(Run(Initial, lines).value);
    }
  }

  /** Phase `k` has as many tasks as its group has task headings, and its task `j` has
      the number and title of the group's heading `j`. */
  lemma PhaseTasksFromHeadings(text: string, k: nat)
    requires PhaseFirst(Split(text, '\n')) && Parse(text).Ok? && k < |Parse(text).value|
    ensures var g := TaskGroups(Split(text, '\n')); var p := Parse(text).value[k];
      k < |g| && |p.tasks| == |g[k]|
      && forall j :: 0 <= j < |p.tasks| ==> (p.tasks[j].number, p.tasks[j].title) == g[k][j]
  {
    TasksFollowHeadings(text);
    var ps := Parse(text).value;
    assert TaskIdLists(ps)[k] == TaskIds(ps[k].tasks);
  }
}
