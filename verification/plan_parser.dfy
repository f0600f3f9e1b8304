/** `parse_action_plan` once the file has been read: one pass over the lines of the
    text, with the accumulators `phases`, `current_phase` (the last phase, when there
    is one), `current_task`, `current_section` and `current_list_items`. */
module PlanParser {
  import opened Text
  import opened PlanModel

  const PhasePrefix := "## Phase "
  const TaskPrefix := "### Task "
  const GoalMarker := "**Goal**:"
  const ActionsMarker := "**Actions**:"
  const SuccessMarker := "**Success Criteria**:"

  /** The `KeyError: 'number'` raised when a pending task without a number is flushed. */
  datatype ParseError = MissingTaskNumber

  datatype Result<+T> = Ok(value: T) | Err(error: ParseError)

  predicate IsTaskNumberChar(c: char) { IsDigit(c) || c == '.' }

  /** `re.match(r'^## Phase (\d+): (.+)$', line)` on a line (which holds no newline):
      the value of the digits and the title. */
  function MatchPhase(line: string): Option<(nat, string)> {
    if !StartsWith(line, PhasePrefix) then None
    else
      var rest := line[|PhasePrefix|..];
      var n := LeadingCount(rest, IsDigit);
      if n > 0 && StartsWith(rest[n..], ": ") && |rest| > n + 2 then
        assert AllDigits(rest[..n]) by { assert forall k :: 0 <= k < n ==> rest[..n][k] == rest[k]; }
        Some((DigitsValue(rest[..n]), rest[n + 2..]))
      else None
  }

  /** `re.match(r'^### Task ([\d\.]+): (.+)$', line)` on a line: the dotted number and the title. */
  function MatchTask(line: string): Option<(string, string)> {
    if !StartsWith(line, TaskPrefix) then None
    else
      var rest := line[|TaskPrefix|..];
      var n := LeadingCount(rest, IsTaskNumberChar);
      if n > 0 && StartsWith(rest[n..], ": ") && |rest| > n + 2 then Some((rest[..n], rest[n + 2..]))
      else None
  }

  /** The dictionary `current_task`: which of its keys are present, with their values
      ('number' and 'title' are always set together). */
  datatype Draft = Draft(header: Option<(string, string)>, goal: Option<string>,
                         actions: Option<seq<string>>, success: Option<string>)
  {
    /** The dictionary is falsy: it has no key. */
    predicate IsEmpty() {
      header.None? && goal.None? && actions.None? && success.None?
    }
  }

  const NoDraft := Draft(None, None, None, None)

  function GetOr<T>(o: Option<T>, default: T): T {
    match o
    case Some(v) => v
    case None => default
  }

  /** `Task(number=current_task['number'], ..., goal=current_task.get('goal', ''), ...)`. */
  function ToTask(d: Draft): Task
    requires d.header.Some?
  {
    Task(d.header.value.0, d.header.value.1, GetOr(d.goal, ""), GetOr(d.actions, []), GetOr(d.success, ""))
  }

  datatype Section = NoSection | GoalSection | ActionsSection | SuccessSection

  datatype ParseState = ParseState(phases: seq<PhaseData>, draft: Draft, section: Section, items: seq<string>)

  const Initial := ParseState([], NoDraft, NoSection, [])

  /** The phases with `t` appended to the tasks of the last (current) phase. */
  function AppendToLast(phases: seq<PhaseData>, t: Task): (r: seq<PhaseData>)
    requires phases != []
  {
    var last := phases[|phases| - 1];
    phases[..|phases| - 1] + [last.(tasks := last.tasks + [t])]
  }

  /** The phases after `if current_task and current_phase:` has flushed the pending
      task into the current phase; the KeyError when that task has no number. */
  function Flushed(phases: seq<PhaseData>, draft: Draft): Result<seq<PhaseData>> {
    if draft.IsEmpty() || phases == [] then Ok(phases)
    else if draft.header.None? then Err(MissingTaskNumber)
    else Ok(AppendToLast(phases, ToTask(draft)))
  }

  /** A text field after one more continuation line: set, or extended after a space. */
  function Extend(field: Option<string>, text: string): string {
    match field
    case None => text
    case Some(s) => s + " " + text
  }

  /** One iteration of the loop over the lines. */
  function Step(st: ParseState, line: string): Result<ParseState> {
    match MatchPhase(line)
    case Some((number, title)) => OnPhase(st, number, title)
    case None =>
      match MatchTask(line)
      case Some((number, title)) => OnTask(st, number, title)
      case None => Ok(OnLine(st, line))
  }

  /** A phase heading: the pending task is flushed (and the accumulators reset) only
      when a phase is current; otherwise the pending task and items carry over. */
  function OnPhase(st: ParseState, number: nat, title: string): Result<ParseState> {
    var phase := PhaseData(number, title, "", []);
    if !st.draft.IsEmpty() && st.phases != [] then
      match Flushed(st.phases, st.draft)
      case Err(e) => Err(e)
      case Ok(ps) => Ok(ParseState(ps + [phase], NoDraft, NoSection, []))
    else
      Ok(st.(phases := st.phases + [phase], section := NoSection))
  }

  /** A task heading: the pending task is flushed and a fresh one is started. */
  function OnTask(st: ParseState, number: string, title: string): Result<ParseState> {
    match Flushed(st.phases, st.draft)
    case Err(e) => Err(e)
    case Ok(ps) => Ok(ParseState(ps, Draft(Some((number, title)), None, Some([]), None), NoSection, []))
  }

  /** A line that is not a heading: a field marker, or content for the current section. */
  function OnLine(st: ParseState, line: string): (r: ParseState)
    ensures r.phases == st.phases
  {
    if StartsWith(line, GoalMarker) then
      var text := Strip(RemoveAll(line, GoalMarker));
      st.(section := GoalSection, draft := if text != "" then st.draft.(goal := Some(text)) else st.draft)
    else if StartsWith(line, ActionsMarker) then
      st.(section := ActionsSection, items := [])
    else if StartsWith(line, SuccessMarker) then
      var text := Strip(RemoveAll(line, SuccessMarker));
      st.(section := SuccessSection, draft := if text != "" then st.draft.(success := Some(text)) else st.draft)
    else
      Accumulate(st, line)
  }

  /** A line that is neither a heading nor a field marker feeds the current section. */
  function Accumulate(st: ParseState, line: string): (r: ParseState)
    ensures r.phases == st.phases && r.section == st.section
  {
    var text := Strip(line);
    match st.section
    case GoalSection =>
      if text != "" && !StartsWith(line, "#") then st.(draft := st.draft.(goal := Some(Extend(st.draft.goal, text))))
      else st
    case ActionsSection =>
      if StartsWith(text, "- ") then
        var items := st.items + [text[2..]];
        st.(items := items, draft := st.draft.(actions := Some(items)))
      else st
    case SuccessSection =>
      if text != "" && !StartsWith(line, "#") then st.(draft := st.draft.(success := Some(Extend(st.draft.success, text))))
      else st
    case NoSection => st
  }

  /** The loop over `lines` from state `st`, stopping at the first error. */
  function Run(st: ParseState, lines: seq<string>): Result<ParseState>
    decreases |lines|
  {
    if lines == [] then Ok(st)
    else
      match Run(st, lines[..|lines| - 1])
      case Err(e) => Err(e)
      case Ok(s) => Step(s, lines[|lines| - 1])
  }

  /** The loop followed by the final flush. */
  function ParseLines(lines: seq<string>): Result<seq<PhaseData>> {
    match Run(Initial, lines)
    case Err(e) => Err(e)
    case Ok(st) => Flushed(st.phases, st.draft)
  }

  /** `parse_action_plan` on the text of the file. */
  function Parse(text: string): Result<seq<PhaseData>> {
    ParseLines(Split(text, '\n'))
  }

  /** Running two stretches of lines one after the other. */
  lemma {:induction false} RunAppend(st: ParseState, xs: seq<string>, ys: seq<string>)
    ensures Run(st, xs + ys) ==
      match Run(st, xs)
      case Err(e) => Err(e)
      case Ok(s) => Run(s, ys)
    decreases |ys|
  {
    if ys == [] {
      assert xs + ys == xs;
    } else {
      var zs := xs + ys;
      assert zs[..|zs| - 1] == xs + ys[..|ys| - 1];
      assert zs[|zs| - 1] == ys[|ys| - 1];
      RunAppend(st, xs, ys[..|ys| - 1]);
    }
  }

  /** Once a prefix of the lines fails, the whole parse fails with the same error. */
  lemma ErrorIsFinal(lines: seq<string>, i: nat)
    requires i <= |lines| && Run(Initial, lines[..i]).Err?
    ensures ParseLines(lines) == Err(Run(Initial, lines[..i]).error)
  {
    assert lines == lines[..i] + lines[i..];
    RunAppend(Initial, lines[..i], lines[i..]);
  }

  /** The phase objects as values. */
  function Values(phases: seq<Phase>): (r: seq<PhaseData>)
    reads phases
    ensures |r| == |phases|
    ensures forall j :: 0 <= j < |phases| ==> r[j] == phases[j].Value()
  {
    seq(|phases|, j requires 0 <= j < |phases| reads phases => phases[j].Value())
  }

  /** The three ways a line is handled, by which heading (if any) it matches. */
  lemma StepCases(st: ParseState, line: string)
    ensures MatchPhase(line).Some? ==> Step(st, line) == OnPhase(st, MatchPhase(line).value.0, MatchPhase(line).value.1)
    ensures MatchPhase(line).None? && MatchTask(line).Some? ==>
      Step(st, line) == OnTask(st, MatchTask(line).value.0, MatchTask(line).value.1)
    ensures MatchPhase(line).None? && MatchTask(line).None? ==> Step(st, line) == Ok(OnLine(st, line))
  {
  }

  /** One more line of the loop. */
  lemma RunSnoc(lines: seq<string>, i: nat)
    requires i < |lines|
    ensures Run(Initial, lines[..i + 1]) ==
      match Run(Initial, lines[..i])
      case Err(e) => Err(e)
      case Ok(s) => Step(s, lines[i])
  {
    assert lines[..i + 1][..i] == lines[..i];
  }

  /** `current_phase` is the last of `phases`, and no phase object occurs twice. */
  predicate IsCurrent(phases: seq<Phase>, currentPhase: Phase?) {
    (currentPhase == null <==> phases == [])
    && (currentPhase != null ==> currentPhase == phases[|phases| - 1])
    && forall j, k :: 0 <= j < k < |phases| ==> phases[j] != phases[k]
  }

  /** The "Save previous task if exists" block: when the task dictionary is not empty
      and a phase is current, the pending task is appended to the current phase; it
      fails, as the KeyError does, when the dictionary has no number. */
  method SavePendingTask(phases: seq<Phase>, currentPhase: Phase?, currentTask: Draft) returns (failed: bool)
    requires IsCurrent(phases, currentPhase)
    modifies currentPhase
    ensures failed <==> Flushed(old(Values(phases)), currentTask).Err?
    ensures !failed ==> Values(phases) == Flushed(old(Values(phases)), currentTask).value
  {
    failed := false;
    if !currentTask.IsEmpty() && currentPhase != null {
      if currentTask.header.None? {
        failed := true;
        return;
      }
      ghost var before := Values(phases);
      currentPhase.AddTask(ToTask(currentTask));
      assert forall j :: 0 <= j < |phases| - 1 ==> phases[j].Value() == before[j];
      assert Values(phases) == AppendToLast(before, ToTask(currentTask));
    }
  }

  /** The part of the loop body after the two heading matches: a field marker opens
      its section (and sets the field from the rest of the marker line), any other line
      feeds the section that is open. Only the task dictionary, the section and the
      item list change. */
  method ReadFieldLine(line: string, task: Draft, section: Section, items: seq<string>)
    returns (task': Draft, section': Section, items': seq<string>)
    ensures forall ps :: OnLine(ParseState(ps, task, section, items), line) == ParseState(ps, task', section', items')
  {
    task', section', items' := task, section, items;
    if StartsWith(line, GoalMarker) {
      section' := GoalSection;
      var goalText := Strip(RemoveAll(line, GoalMarker));
      if goalText != "" {
        task' := task'.(goal := Some(goalText));
      }
    } else if StartsWith(line, ActionsMarker) {
      section' := ActionsSection;
      items' := [];
    } else if StartsWith(line, SuccessMarker) {
      section' := SuccessSection;
      var criteriaText := Strip(RemoveAll(line, SuccessMarker));
      if criteriaText != "" {
        task' := task'.(success := Some(criteriaText));
      }
    } else {
      var stripped := Strip(line);
      if section' == GoalSection && stripped != "" && !StartsWith(line, "#") {
        task' := task'.(goal := Some(Extend(task'.goal, stripped)));
      }
      if section' == ActionsSection && StartsWith(stripped, "- ") {
        items' := items' + [stripped[2..]];
        task' := task'.(actions := Some(items'));
      }
      if section' == SuccessSection && stripped != "" && !StartsWith(line, "#") {
        task' := task'.(success := Some(Extend(task'.success, stripped)));
      }
    }
  }

  /** The branch for a phase heading: save the pending task when a phase is current
      (and only then reset the task dictionary and the item list), then create the new
      phase, append it and make it current. */
  method StartPhase(phases: seq<Phase>, currentPhase: Phase?, currentTask: Draft, section: Section,
                    items: seq<string>, number: nat, title: string)
    returns (failed: bool, phases': seq<Phase>, currentPhase': Phase?, task': Draft, section': Section, items': seq<string>)
    requires IsCurrent(phases, currentPhase)
    modifies currentPhase
    ensures var st := ParseState(old(Values(phases)), currentTask, section, items);
      if failed then OnPhase(st, number, title).Err?
      else OnPhase(st, number, title) == Ok(ParseState(Values(phases'), task', section', items'))
    ensures !failed ==> currentPhase' != null && fresh(currentPhase') && phases' == phases + [currentPhase']
    ensures !failed ==> IsCurrent(phases', currentPhase')
  {
    var hadTask := !currentTask.IsEmpty() && currentPhase != null;
    failed := SavePendingTask(phases, currentPhase, currentTask);
    task', section', items' := currentTask, NoSection, items;
    if failed {
      phases', currentPhase' := phases, currentPhase;
      return;
    }
    if hadTask {
      task' := NoDraft;
      items' := [];
    }
    ghost var flushed := Values(phases);
    var phase := new Phase(number, title);
    phases', currentPhase' := phases + [phase], phase;
    assert Values(phases') == flushed + [PhaseData(number, title, "", [])];
  }

  /** The branch for a task heading: save the pending task, then start a new task
      dictionary holding the number, the title and an empty action list. */
  method StartTask(phases: seq<Phase>, currentPhase: Phase?, currentTask: Draft, section: Section,
                   items: seq<string>, number: string, title: string)
    returns (failed: bool, task': Draft, section': Section, items': seq<string>)
    requires IsCurrent(phases, currentPhase)
    modifies currentPhase
    ensures var st := ParseState(old(Values(phases)), currentTask, section, items);
      if failed then OnTask(st, number, title).Err?
      else OnTask(st, number, title) == Ok(ParseState(Values(phases), task', section', items'))
  {
    failed := SavePendingTask(phases, currentPhase, currentTask);
    task' := Draft(Some((number, title)), None, Some([]), None);
    items' := [];
    section' := NoSection;
  }

  /** One pass of the loop body: the phase heading, the task heading, or a field line. */
  method ParseLine(phases: seq<Phase>, currentPhase: Phase?, currentTask: Draft, section: Section,
                   items: seq<string>, line: string)
    returns (failed: bool, phases': seq<Phase>, currentPhase': Phase?, task': Draft, section': Section, items': seq<string>)
    requires IsCurrent(phases, currentPhase)
    modifies currentPhase
    ensures var st := ParseState(old(Values(phases)), currentTask, section, items);
      if failed then Step(st, line).Err?
      else Step(st, line) == Ok(ParseState(Values(phases'), task', section', items'))
    ensures !failed ==> IsCurrent(phases', currentPhase')
    ensures !failed ==> phases' == phases || (currentPhase' != null && fresh(currentPhase') && phases' == phases + [currentPhase'])
  {
    ghost var before := ParseState(Values(phases), currentTask, section, items);
    StepCases(before, line);
    phases', currentPhase' := phases, currentPhase;
    var phaseMatch := MatchPhase(line);
    if phaseMatch.Some? {
      var (number, title) := phaseMatch.value;
      failed, phases', currentPhase', task', section', items' :=
        StartPhase(phases, currentPhase, currentTask, section, items, number, title);
      return;
    }
    var taskMatch := MatchTask(line);
    if taskMatch.Some? {
      var (number, title) := taskMatch.value;
      failed, task', section', items' := StartTask(phases, currentPhase, currentTask, section, items, number, title);
      return;
    }
    failed := false;
    task', section', items' := ReadFieldLine(line, currentTask, section, items);
  }

  /** The loop over the lines, with the accumulators as local variables and the phases
      as objects whose task lists grow in place: either a line raised the missing-number
      error, or the phases, pending task, section and items are where `Run` leaves them. */
  method ParseAllLines(lines: seq<string>)
    returns (failed: bool, phases: seq<Phase>, currentPhase: Phase?, currentTask: Draft,
             currentSection: Section, currentListItems: seq<string>)
    ensures failed ==> ParseLines(lines) == Err(MissingTaskNumber)
    ensures !failed ==> Run(Initial, lines) == Ok(ParseState(Values(phases), currentTask, currentSection, currentListItems))
    ensures !failed ==> IsCurrent(phases, currentPhase) && fresh(phases)
  {
    phases, currentPhase := [], null;
    currentTask, currentSection, currentListItems := NoDraft, NoSection, [];
    for i := 0 to |lines|
      invariant Run(Initial, lines[..i]) == Ok(ParseState(Values(phases), currentTask, currentSection, currentListItems))
      invariant IsCurrent(phases, currentPhase)
      invariant fresh(phases)
    {
      RunSnoc(lines, i);
      failed, phases, currentPhase, currentTask, currentSection, currentListItems :=
        ParseLine(phases, currentPhase, currentTask, currentSection, currentListItems, lines[i]);
      if failed {
        ErrorIsFinal(lines, i + 1);
        return;
      }
    }
    assert lines[..|lines|] == lines;
    failed := false;
  }

  /** `parse_action_plan` over the file's text: the loop over its lines, then the save
      of the last pending task. The result is the value `Parse` specifies, or the KeyError. */
  method ParseActionPlan(text: string) returns (result: Result<seq<Phase>>)
    ensures Parse(text).Err? ==> result == Err(Parse(text).error)
    ensures Parse(text).Ok? ==> result.Ok? && Values(result.value) == Parse(text).value
    ensures result.Ok? ==> fresh(result.value)
  {
    var lines := Split(text, '\n');
    var failed, phases, currentPhase, currentTask, currentSection, currentListItems := ParseAllLines(lines);
    if failed {
      return Err(MissingTaskNumber);
    }
    failed := SavePendingTask(phases, currentPhase, currentTask);
    if failed {
      return Err(MissingTaskNumber);
    }
    return Ok(phases);
  }
}
