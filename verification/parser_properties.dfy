/** What `parse_action_plan` promises about its result: the heading shapes it
    recognises, the phases it returns, how task lists grow, when a pending task is
    flushed (including the orphan-task and missing-number behaviours), and how the
    fields of a task accumulate. */
module ParserProperties {
  import opened Text
  import opened PlanModel
  import opened PlanParser

  // ---------------------------------------------------------------------------
  // The two heading shapes

  /** A dotted task number: one or more digits and dots. */
  predicate IsTaskNumber(s: string) {
    s != [] && forall k :: 0 <= k < |s| ==> IsTaskNumberChar(s[k])
  }

  /** A line the task regex matches has the shape "### Task " number ": " title, with
      a non-empty dotted number and a non-empty title, and those are its two groups. */
  lemma MatchTaskSound(line: string)
    requires MatchTask(line).Some?
    ensures IsTaskNumber(MatchTask(line).value.0) && MatchTask(line).value.1 != []
    ensures line == TaskPrefix + MatchTask(line).value.0 + ": " + MatchTask(line).value.1
  {
    var rest := line[|TaskPrefix|..];
    var n := LeadingCount(rest, IsTaskNumberChar);
    assert rest == rest[..n] + ": " + rest[n + 2..];
    assert line == line[..|TaskPrefix|] + rest;
  }

  /** Every line of that shape matches, with its number and title as the groups. */
  lemma MatchTaskComplete(number: string, title: string)
    requires IsTaskNumber(number) && title != []
    ensures MatchTask(TaskPrefix + number + ": " + title) == Some((number, title))
  {
    HeadingParts(TaskPrefix, number, title);
    LeadingCountOf(number, ": " + title, IsTaskNumberChar);
  }

  /** How a heading line `prefix + number + ": " + title` slices apart. */
  lemma HeadingParts(prefix: string, number: string, title: string)
    ensures var line := prefix + number + ": " + title; var rest := line[|prefix|..];
      |line| == |prefix| + |number| + 2 + |title|
      && StartsWith(line, prefix) && rest == number + (": " + title)
      && rest[..|number|] == number && StartsWith(rest[|number|..], ": ")
      && rest[|number| + 2..] == title
  {
    var line := prefix + number + ": " + title;
    var rest := number + (": " + title);
    assert line == prefix + rest;
    assert line[..|prefix|] == prefix;
    assert line[|prefix|..] == rest;
    assert rest[|number|..] == ": " + title;
    assert (": " + title)[..2] == ": ";
  }

  /** A line the phase regex matches is "## Phase " digits ": " title with non-empty
      digits and title; the phase number is the value of those digits. */
  lemma MatchPhaseSound(line: string)
    requires MatchPhase(line).Some?
    ensures MatchPhase(line).value.1 != []
    ensures exists digits ::
      AllDigits(digits) && digits != [] && DigitsValue(digits) == MatchPhase(line).value.0
      && line == PhasePrefix + digits + ": " + MatchPhase(line).value.1
  {
    var rest := line[|PhasePrefix|..];
    var n := LeadingCount(rest, IsDigit);
    var digits := rest[..n];
    assert AllDigits(digits) by { assert forall k :: 0 <= k < n ==> digits[k] == rest[k]; }
    assert rest == digits + ": " + rest[n + 2..];
    assert line == line[..|PhasePrefix|] + rest;
    assert line == PhasePrefix + digits + ": " + MatchPhase(line).value.1;
  }

  /** Every line of that shape matches; leading zeros do not change the number. */
  lemma MatchPhaseComplete(digits: string, title: string)
    requires AllDigits(digits) && digits != [] && title != []
    ensures MatchPhase(PhasePrefix + digits + ": " + title) == Some((DigitsValue(digits), title))
  {
    HeadingParts(PhasePrefix, digits, title);
    LeadingCountOf(digits, ": " + title, IsDigit);
  }

  /** No line matches both headings, so the order in which the loop tries them does
      not matter. */
  lemma HeadingsExclusive(line: string)
    ensures !(MatchPhase(line).Some? && MatchTask(line).Some?)
  {
    if MatchPhase(line).Some? && |line| > 2 {
      assert line[2] == PhasePrefix[..|PhasePrefix|][2];
      NotStartsWith(line, TaskPrefix, 2);
    }
  }

  // ---------------------------------------------------------------------------
  // The phases returned: one per phase heading, in document order

  /** The (number, title) of every line that matches the phase heading, in order. */
  function PhaseHeadings(lines: seq<string>): seq<(nat, string)> {
    if lines == [] then []
    else
      PhaseHeadings(lines[..|lines| - 1])
      + match MatchPhase(lines[|lines| - 1])
        case Some(h) => [h]
        case None => []
  }

  /** The (number, title) of each phase. */
  function Headers(phases: seq<PhaseData>): (r: seq<(nat, string)>)
    ensures |r| == |phases|
    ensures forall k :: 0 <= k < |phases| ==> r[k] == (phases[k].number, phases[k].title)
  {
    seq(|phases|, k requires 0 <= k < |phases| => (phases[k].number, phases[k].title))
  }

  predicate NoDescriptions(phases: seq<PhaseData>) {
    forall k :: 0 <= k < |phases| ==> phases[k].description == ""
  }

  lemma FlushedKeepsHeaders(phases: seq<PhaseData>, draft: Draft)
    requires Flushed(phases, draft).Ok?
    ensures Headers(Flushed(phases, draft).value) == Headers(phases)
    ensures NoDescriptions(phases) ==> NoDescriptions(Flushed(phases, draft).value)
  {
  }

  /** A phase heading adds its (number, title) at the end; any other line keeps the
      headers; no line sets a description. */
  lemma StepHeaders(st: ParseState, line: string)
    requires Step(st, line).Ok?
    ensures Headers(Step(st, line).value.phases) ==
      Headers(st.phases) + match MatchPhase(line) case Some(h) => [h] case None => []
    ensures NoDescriptions(st.phases) ==> NoDescriptions(Step(st, line).value.phases)
  {
    StepCases(st, line);
    if MatchPhase(line).Some? {
      var phase := PhaseData(MatchPhase(line).value.0, MatchPhase(line).value.1, "", []);
      if !st.draft.IsEmpty() && st.phases != [] {
        FlushedKeepsHeaders(st.phases, st.draft);
        var f := Flushed(st.phases, st.draft).value;
        assert Headers(f + [phase]) == Headers(f) + [MatchPhase(line).value];
      } else {
        assert Headers(st.phases + [phase]) == Headers(st.phases) + [MatchPhase(line).value];
      }
    } else if MatchTask(line).Some? {
      FlushedKeepsHeaders(st.phases, st.draft);
    }
  }

  lemma {:induction false} RunHeaders(lines: seq<string>)
    requires Run(Initial, lines).Ok?
    ensures Headers(Run(Initial, lines).value.phases) == PhaseHeadings(lines)
    ensures NoDescriptions(Run(Initial, lines).value.phases)
    decreases |lines|
  {
    if lines != [] {
      var init := lines[..|lines| - 1];
      RunHeaders(init);
      StepHeaders(Run(Initial, init).value, lines[|lines| - 1]);
    }
  }

  /** The phases correspond one to one, in order, to the lines matching the phase
      heading: same number (the value of the digits, by `MatchPhaseSound`) and title,
      and an empty description. */
  lemma PhasesFollowHeadings(text: string)
    requires Parse(text).Ok?
    ensures Headers(Parse(text).value) == PhaseHeadings(Split(text, '\n'))
    ensures NoDescriptions(Parse(text).value)
  {
    var lines := Split(text, '\n');
    RunHeaders(lines);
    FlushedKeepsHeaders(Run(Initial, lines).value.phases, Run(Initial, lines).value.draft);
  }

  /** Without a phase heading nothing can fail and the result is empty: a task seen
      with no current phase is never flushed. */
  lemma {:induction false} RunWithoutPhases(lines: seq<string>)
    requires PhaseHeadings(lines) == []
    ensures Run(Initial, lines).Ok? && Run(Initial, lines).value.phases == []
    decreases |lines|
  {
    if lines != [] {
      var init := lines[..|lines| - 1];
      assert PhaseHeadings(init) == [];
      RunWithoutPhases(init);
      StepCases(Run(Initial, init).value, lines[|lines| - 1]);
    }
  }

  lemma NoPhaseHeadingNoPhases(lines: seq<string>)
    requires PhaseHeadings(lines) == []
    ensures ParseLines(lines) == Ok([])
  {
    RunWithoutPhases(lines);
  }

  // ---------------------------------------------------------------------------
  // Task lists only grow, by appending to the current (last) phase

  /** `after` extends `before` by appends only: the same phases in the same order with
      the same headers, each task list a prefix of the new one, and every phase but
      the last unchanged. */
  predicate Grows(before: seq<PhaseData>, after: seq<PhaseData>) {
    |before| <= |after|
    && (forall k :: 0 <= k < |before| ==>
          after[k].number == before[k].number && after[k].title == before[k].title
          && after[k].description == before[k].description && before[k].tasks <= after[k].tasks)
    && (forall k :: 0 <= k < |before| - 1 ==> after[k] == before[k])
  }

  lemma GrowsTrans(a: seq<PhaseData>, b: seq<PhaseData>, c: seq<PhaseData>)
    requires Grows(a, b) && Grows(b, c)
    ensures Grows(a, c)
  {
    forall k | 0 <= k < |a| - 1
      ensures c[k] == a[k]
    {
      assert b[k] == a[k];
      assert c[k] == b[k];
    }
  }

  /** Flushing appends the pending task to the last phase, or changes nothing. */
  lemma FlushedGrows(phases: seq<PhaseData>, draft: Draft)
    requires Flushed(phases, draft).Ok?
    ensures Grows(phases, Flushed(phases, draft).value)
    ensures Flushed(phases, draft).value == phases
         || Flushed(phases, draft).value == AppendToLast(phases, ToTask(draft))
  {
  }

  lemma StepGrows(st: ParseState, line: string)
    requires Step(st, line).Ok?
    ensures Grows(st.phases, Step(st, line).value.phases)
  {
    StepCases(st, line);
    if MatchPhase(line).Some? {
      var phase := PhaseData(MatchPhase(line).value.0, MatchPhase(line).value.1, "", []);
      if !st.draft.IsEmpty() && st.phases != [] {
        FlushedGrows(st.phases, st.draft);
        var f := Flushed(st.phases, st.draft).value;
        assert Grows(f, f + [phase]);
        GrowsTrans(st.phases, f, f + [phase]);
      } else {
        assert Grows(st.phases, st.phases + [phase]);
      }
    } else if MatchTask(line).Some? {
      FlushedGrows(st.phases, st.draft);
    }
  }

  /** The phases after any prefix of the lines are grown, by appends only, into the
      phases after all of them. */
  lemma {:induction false} RunGrows(lines: seq<string>, i: nat)
    requires i <= |lines| && Run(Initial, lines).Ok?
    ensures Run(Initial, lines[..i]).Ok?
    ensures Grows(Run(Initial, lines[..i]).value.phases, Run(Initial, lines).value.phases)
    decreases |lines|
  {
    if i == |lines| {
      assert lines[..i] == lines;
    } else {
      var init := lines[..|lines| - 1];
      assert init[..i] == lines[..i];
      RunGrows(init, i);
      StepGrows(Run(Initial, init).value, lines[|lines| - 1]);
      GrowsTrans(Run(Initial, lines[..i]).value.phases, Run(Initial, init).value.phases, Run(Initial, lines).value.phases);
    }
  }

  /** The phases built so far, at any line, are extended by appends only into the
      returned phases. */
  lemma ParseGrows(lines: seq<string>, i: nat)
    requires i <= |lines| && ParseLines(lines).Ok?
    ensures Run(Initial, lines[..i]).Ok?
    ensures Grows(Run(Initial, lines[..i]).value.phases, ParseLines(lines).value)
  {
    var st := Run(Initial, lines).value;
    RunGrows(lines, i);
    FlushedGrows(st.phases, st.draft);
    GrowsTrans(Run(Initial, lines[..i]).value.phases, st.phases, ParseLines(lines).value);
  }

  // ---------------------------------------------------------------------------
  // When the pending task is flushed

  /** At a phase heading, with a phase current, the pending task is appended to it, and
      the new phase starts empty with no pending task. */
  lemma FlushAtPhaseHeading(st: ParseState, line: string)
    requires MatchPhase(line).Some? && st.phases != [] && st.draft.header.Some?
    ensures Step(st, line) == Ok(ParseState(
      AppendToLast(st.phases, ToTask(st.draft)) + [PhaseData(MatchPhase(line).value.0, MatchPhase(line).value.1, "", [])],
      NoDraft, NoSection, []))
  {
    StepCases(st, line);
  }

  /** At a task heading, with a phase current, the pending task is appended to it and a
      new one starts with an empty action list. */
  lemma FlushAtTaskHeading(st: ParseState, line: string)
    requires MatchTask(line).Some? && st.phases != [] && st.draft.header.Some?
    ensures Step(st, line) == Ok(ParseState(
      AppendToLast(st.phases, ToTask(st.draft)), Draft(Some(MatchTask(line).value), None, Some([]), None), NoSection, []))
  {
    HeadingsExclusive(line);
    StepCases(st, line);
  }

  /** At the end of the input, with a phase current, the pending task is appended. */
  lemma FlushAtEnd(lines: seq<string>)
    requires Run(Initial, lines).Ok?
    requires Run(Initial, lines).value.phases != [] && Run(Initial, lines).value.draft.header.Some?
    ensures ParseLines(lines) ==
      Ok(AppendToLast(Run(Initial, lines).value.phases, ToTask(Run(Initial, lines).value.draft)))
  {
  }

  /** Only a heading flushes: any other line leaves the phases as they are. */
  lemma OnlyHeadingsFlush(st: ParseState, line: string)
    requires MatchPhase(line).None? && MatchTask(line).None?
    ensures Step(st, line).Ok? && Step(st, line).value.phases == st.phases
  {
    StepCases(st, line);
  }

  /** A task seen before any phase survives the first phase heading: it stays pending,
      with its items, and is flushed into that phase later. */
  lemma OrphanSurvivesPhaseHeading(st: ParseState, line: string)
    requires st.phases == [] && MatchPhase(line).Some?
    ensures Step(st, line) ==
      Ok(ParseState([PhaseData(MatchPhase(line).value.0, MatchPhase(line).value.1, "", [])], st.draft, NoSection, st.items))
  {
    StepCases(st, line);
    assert st.phases + [PhaseData(MatchPhase(line).value.0, MatchPhase(line).value.1, "", [])]
      == [PhaseData(MatchPhase(line).value.0, MatchPhase(line).value.1, "", [])];
  }

  /** A task seen before any phase is replaced, unsaved, by the next task heading. */
  lemma OrphanOverwritten(st: ParseState, line: string)
    requires st.phases == [] && MatchTask(line).Some?
    ensures Step(st, line) == Ok(ParseState([], Draft(Some(MatchTask(line).value), None, Some([]), None), NoSection, []))
  {
    HeadingsExclusive(line);
    StepCases(st, line);
  }

  /** A task dictionary holding a field but no number fails at the next heading once a
      phase is current (the KeyError). */
  lemma FieldWithoutTaskFails(st: ParseState, line: string)
    requires st.phases != [] && !st.draft.IsEmpty() && st.draft.header.None?
    requires MatchPhase(line).Some? || MatchTask(line).Some?
    ensures Step(st, line) == Err(MissingTaskNumber)
  {
    StepCases(st, line);
  }

  // ---------------------------------------------------------------------------
  // How the fields of a task accumulate

  /** A line that is neither a heading nor a field marker: it only feeds the open section. */
  predicate IsContentLine(line: string) {
    MatchPhase(line).None? && MatchTask(line).None?
    && !StartsWith(line, GoalMarker) && !StartsWith(line, ActionsMarker) && !StartsWith(line, SuccessMarker)
  }

  /** The pieces a run of content lines adds to an open goal or success text: each
      non-blank line not starting with '#', stripped. */
  function Continuations(lines: seq<string>): seq<string> {
    if lines == [] then []
    else
      var line := lines[|lines| - 1];
      Continuations(lines[..|lines| - 1]) + if Strip(line) != "" && !StartsWith(line, "#") then [Strip(line)] else []
  }

  /** The actions a run of content lines adds to an open action list: each line whose
      stripped form starts with "- ", without those two characters. */
  function ActionItems(lines: seq<string>): seq<string> {
    if lines == [] then []
    else
      var line := lines[|lines| - 1];
      ActionItems(lines[..|lines| - 1]) + if StartsWith(Strip(line), "- ") then [Strip(line)[2..]] else []
  }

  /** A text field followed by its continuation pieces, all joined by single spaces. */
  function Continued(field: Option<string>, pieces: seq<string>): Option<string> {
    if pieces == [] then field
    else
      match field
      case None => Some(Join(" ", pieces))
      case Some(s) => Some(Join(" ", [s] + pieces))
  }

  lemma ContinuedSnoc(field: Option<string>, pieces: seq<string>, piece: string)
    ensures Continued(field, pieces + [piece]) == Some(Extend(Continued(field, pieces), piece))
  {
    if pieces == [] {
      assert pieces + [piece] == [piece];
      if field.Some? {
        assert [field.value] + [piece] == [field.value, piece];
        assert [field.value, piece][1..] == [piece];
        assert Join(" ", [piece]) == piece;
        assert Join(" ", [field.value, piece]) == field.value + " " + Join(" ", [piece]);
      }
    } else {
      match field
      case None =>
        JoinSnoc(" ", pieces, piece);
      case Some(s) =>
        assert [s] + (pieces + [piece]) == ([s] + pieces) + [piece];
        JoinSnoc(" ", [s] + pieces, piece);
    }
  }

  predicate AllContent(lines: seq<string>) {
    forall k :: 0 <= k < |lines| ==> IsContentLine(lines[k])
  }

  lemma StepOnContent(st: ParseState, line: string)
    requires IsContentLine(line)
    ensures Step(st, line) == Ok(Accumulate(st, line))
  {
    StepCases(st, line);
  }

  /** In the goal section, the goal becomes the text so far and every continuation,
      stripped and joined by single spaces; nothing else changes. */
  lemma {:induction false} GoalAccumulates(st: ParseState, lines: seq<string>)
    requires st.section == GoalSection && AllContent(lines)
    ensures Run(st, lines) == Ok(st.(draft := st.draft.(goal := Continued(st.draft.goal, Continuations(lines)))))
    decreases |lines|
  {
    if lines != [] {
      var init := lines[..|lines| - 1];
      var line := lines[|lines| - 1];
      GoalAccumulates(st, init);
      StepOnContent(Run(st, init).value, line);
      if Strip(line) != "" && !StartsWith(line, "#") {
        ContinuedSnoc(st.draft.goal, Continuations(init), Strip(line));
      } else {
        assert Continuations(lines) == Continuations(init);
      }
    }
  }

  /** The same for the success criteria. */
  lemma {:induction false} SuccessAccumulates(st: ParseState, lines: seq<string>)
    requires st.section == SuccessSection && AllContent(lines)
    ensures Run(st, lines) == Ok(st.(draft := st.draft.(success := Continued(st.draft.success, Continuations(lines)))))
    decreases |lines|
  {
    if lines != [] {
      var init := lines[..|lines| - 1];
      var line := lines[|lines| - 1];
      SuccessAccumulates(st, init);
      StepOnContent(Run(st, init).value, line);
      if Strip(line) != "" && !StartsWith(line, "#") {
        ContinuedSnoc(st.draft.success, Continuations(init), Strip(line));
      } else {
        assert Continuations(lines) == Continuations(init);
      }
    }
  }

  /** In the actions section, every bullet is appended in order to the item list, and
      the task's actions become that list as soon as there is one bullet. */
  lemma {:induction false} ActionsAccumulate(st: ParseState, lines: seq<string>)
    requires st.section == ActionsSection && AllContent(lines)
    ensures Run(st, lines) == Ok(st.(items := st.items + ActionItems(lines),
      draft := if ActionItems(lines) == [] then st.draft else st.draft.(actions := Some(st.items + ActionItems(lines)))))
    decreases |lines|
  {
    if lines == [] {
      assert st.items + [] == st.items;
    } else {
      var init := lines[..|lines| - 1];
      var line := lines[|lines| - 1];
      ActionsAccumulate(st, init);
      var mid := Run(st, init).value;
      StepOnContent(mid, line);
      assert Run(st, lines) == Ok(Accumulate(mid, line));
      ActionLineAppends(st, init, line);
    }
  }

  /** One more content line in the actions section: the items so far grow by that line's
      bullet, if it has one. */
  lemma ActionLineAppends(st: ParseState, init: seq<string>, line: string)
    requires st.section == ActionsSection
    ensures var items := st.items + ActionItems(init);
      var mid := st.(items := items,
        draft := if ActionItems(init) == [] then st.draft else st.draft.(actions := Some(items)));
      var all := ActionItems(init + [line]);
      Accumulate(mid, line) == st.(items := st.items + all,
        draft := if all == [] then st.draft else st.draft.(actions := Some(st.items + all)))
  {
    var items := st.items + ActionItems(init);
    var mid := st.(items := items,
      draft := if ActionItems(init) == [] then st.draft else st.draft.(actions := Some(items)));
    var all := ActionItems(init + [line]);
    assert (init + [line])[..|init|] == init && (init + [line])[|init|] == line;
    if StartsWith(Strip(line), "- ") {
      var x := Strip(line)[2..];
      assert all == ActionItems(init) + [x];
      assert st.items + all == items + [x];
      assert Accumulate(mid, line) == mid.(items := items + [x], draft := mid.draft.(actions := Some(items + [x])));
    } else {
      assert all == ActionItems(init);
      assert Accumulate(mid, line) == mid;
    }
  }

  /** Outside any section, content lines change nothing. */
  lemma {:induction false} UnsectionedLinesIgnored(st: ParseState, lines: seq<string>)
    requires st.section == NoSection && AllContent(lines)
    ensures Run(st, lines) == Ok(st)
    decreases |lines|
  {
    if lines != [] {
      UnsectionedLinesIgnored(st, lines[..|lines| - 1]);
      StepOnContent(st, lines[|lines| - 1]);
    }
  }

  /** The marker's own line contributes its remainder: the text after the marker,
      stripped, when the marker does not occur again in it. */
  lemma MarkerRemainder(marker: string, rest: string)
    requires marker != [] && !Occurs(marker, rest)
    ensures RemoveAll(marker + rest, marker) == rest
  {
    assert (marker + rest)[..|marker|] == marker;
    assert (marker + rest)[|marker|..] == rest;
    RemoveAllAbsent(rest, marker);
  }

  /** Missing fields default to "", [] and "". */
  lemma MissingFieldsDefault(number: string, title: string)
    ensures ToTask(Draft(Some((number, title)), None, None, None)) == Task(number, title, "", [], "")
    ensures ToTask(Draft(Some((number, title)), None, Some([]), None)) == Task(number, title, "", [], "")
  {
  }

  // ---------------------------------------------------------------------------
  // The quirks on whole inputs

  lemma TaskHeadingLine(number: string, title: string, line: string)
    requires IsTaskNumber(number) && title != [] && line == TaskPrefix + number + ": " + title
    ensures MatchPhase(line).None? && MatchTask(line) == Some((number, title))
  {
    MatchTaskComplete(number, title);
    HeadingsExclusive(line);
  }

  lemma PhaseHeadingLine(digits: string, title: string, line: string)
    requires AllDigits(digits) && digits != [] && title != [] && line == PhasePrefix + digits + ": " + title
    ensures MatchPhase(line) == Some((DigitsValue(digits), title))
  {
    MatchPhaseComplete(digits, title);
  }

  lemma AppendToOnlyPhase(phase: PhaseData, t: Task)
    ensures AppendToLast([phase], t) == [phase.(tasks := phase.tasks + [t])]
  {
    assert [phase][..0] == [];
  }

  /** A task heading before the first phase heading: the task ends up in that phase. */
  lemma OrphanTaskJoinsFirstPhase(number: string, title: string, digits: string, phaseTitle: string)
    requires IsTaskNumber(number) && title != [] && AllDigits(digits) && digits != [] && phaseTitle != []
    ensures ParseLines([TaskPrefix + number + ": " + title, PhasePrefix + digits + ": " + phaseTitle])
         == Ok([PhaseData(DigitsValue(digits), phaseTitle, "", [Task(number, title, "", [], "")])])
  {
    var lines := [TaskPrefix + number + ": " + title, PhasePrefix + digits + ": " + phaseTitle];
    TaskHeadingLine(number, title, lines[0]);
    PhaseHeadingLine(digits, phaseTitle, lines[1]);
    var pending := Draft(Some((number, title)), None, Some([]), None);
    var phase := PhaseData(DigitsValue(digits), phaseTitle, "", []);
    RunSnoc(lines, 0);
    assert lines[..0] == [];
    OrphanOverwritten(Initial, lines[0]);
    RunSnoc(lines, 1);
    OrphanSurvivesPhaseHeading(ParseState([], pending, NoSection, []), lines[1]);
    assert lines[..2] == lines;
    assert Run(Initial, lines) == Ok(ParseState([phase], pending, NoSection, []));
    assert ParseLines(lines) == Flushed([phase], pending);
    AppendToOnlyPhase(phase, ToTask(pending));
    assert phase.tasks + [ToTask(pending)] == [Task(number, title, "", [], "")];
  }

  /** Two task headings before the first phase heading: only the second survives. */
  lemma OrphanTaskOverwritten(number: string, title: string, number': string, title': string,
                              digits: string, phaseTitle: string)
    requires IsTaskNumber(number) && title != [] && IsTaskNumber(number') && title' != []
    requires AllDigits(digits) && digits != [] && phaseTitle != []
    ensures ParseLines([TaskPrefix + number + ": " + title, TaskPrefix + number' + ": " + title',
                        PhasePrefix + digits + ": " + phaseTitle])
         == Ok([PhaseData(DigitsValue(digits), phaseTitle, "", [Task(number', title', "", [], "")])])
  {
    var lines := [TaskPrefix + number + ": " + title, TaskPrefix + number' + ": " + title',
                  PhasePrefix + digits + ": " + phaseTitle];
    TaskHeadingLine(number, title, lines[0]);
    TaskHeadingLine(number', title', lines[1]);
    PhaseHeadingLine(digits, phaseTitle, lines[2]);
    var first := Draft(Some((number, title)), None, Some([]), None);
    var second := Draft(Some((number', title')), None, Some([]), None);
    var phase := PhaseData(DigitsValue(digits), phaseTitle, "", []);
    RunSnoc(lines, 0);
    assert lines[..0] == [];
    OrphanOverwritten(Initial, lines[0]);
    RunSnoc(lines, 1);
    OrphanOverwritten(ParseState([], first, NoSection, []), lines[1]);
    RunSnoc(lines, 2);
    OrphanSurvivesPhaseHeading(ParseState([], second, NoSection, []), lines[2]);
    assert lines[..3] == lines;
    assert Run(Initial, lines) == Ok(ParseState([phase], second, NoSection, []));
    assert ParseLines(lines) == Flushed([phase], second);
    AppendToOnlyPhase(phase, ToTask(second));
    assert phase.tasks + [ToTask(second)] == [Task(number', title', "", [], "")];
  }

  /** A task heading with no phase heading anywhere is dropped. */
  lemma OrphanTaskWithoutPhaseDropped(number: string, title: string)
    requires IsTaskNumber(number) && title != []
    ensures ParseLines([TaskPrefix + number + ": " + title]) == Ok([])
  {
    var lines := [TaskPrefix + number + ": " + title];
    TaskHeadingLine(number, title, lines[0]);
    assert lines[..0] == [];
    assert PhaseHeadings(lines) == [];
    NoPhaseHeadingNoPhases(lines);
  }

  /** A goal line between a phase heading and its first task heading makes the parse
      fail at that task heading (the KeyError). */
  lemma GoalBeforeTaskFails(digits: string, phaseTitle: string, goal: string, number: string, title: string)
    requires AllDigits(digits) && digits != [] && phaseTitle != []
    requires IsStripped(goal) && goal != [] && !Occurs(GoalMarker, " " + goal)
    requires IsTaskNumber(number) && title != []
    ensures ParseLines([PhasePrefix + digits + ": " + phaseTitle, GoalMarker + " " + goal,
                        TaskPrefix + number + ": " + title]) == Err(MissingTaskNumber)
  {
    var lines := [PhasePrefix + digits + ": " + phaseTitle, GoalMarker + " " + goal, TaskPrefix + number + ": " + title];
    PhaseHeadingLine(digits, phaseTitle, lines[0]);
    TaskHeadingLine(number, title, lines[2]);
    var phase := PhaseData(DigitsValue(digits), phaseTitle, "", []);
    RunSnoc(lines, 0);
    assert lines[..0] == [];
    OrphanSurvivesPhaseHeading(Initial, lines[0]);
    RunSnoc(lines, 1);
    GoalLine(ParseState([phase], NoDraft, NoSection, []), goal);
    var st := ParseState([phase], NoDraft.(goal := Some(goal)), GoalSection, []);
    assert Run(Initial, lines[..2]) == Ok(st);
    RunSnoc(lines, 2);
    FieldWithoutTaskFails(st, lines[2]);
    assert lines[..3] == lines;
  }

  /** Any line starting with the goal marker opens the goal section; the text after the
      marker, stripped, becomes the goal when it is not blank (the marker must not occur
      again in it, since `replace` would remove that occurrence too). */
  lemma GoalMarkerLine(st: ParseState, rest: string)
    requires !Occurs(GoalMarker, rest)
    ensures Step(st, GoalMarker + rest) ==
      Ok(st.(section := GoalSection, draft := if Strip(rest) != "" then st.draft.(goal := Some(Strip(rest))) else st.draft))
  {
    var line := GoalMarker + rest;
    NotStartsWith(line, PhasePrefix, 0);
    NotStartsWith(line, TaskPrefix, 0);
    StartsWithPrefix(GoalMarker, rest);
    StepCases(st, line);
    MarkerRemainder(GoalMarker, rest);
  }

  /** Any line starting with the success marker opens the success section; the text
      after the marker, stripped, becomes the criteria when it is not blank. */
  lemma SuccessMarkerLine(st: ParseState, rest: string)
    requires !Occurs(SuccessMarker, rest)
    ensures Step(st, SuccessMarker + rest) ==
      Ok(st.(section := SuccessSection, draft := if Strip(rest) != "" then st.draft.(success := Some(Strip(rest))) else st.draft))
  {
    var line := SuccessMarker + rest;
    NotStartsWith(line, PhasePrefix, 0);
    NotStartsWith(line, TaskPrefix, 0);
    NotStartsWith(line, GoalMarker, 2);
    NotStartsWith(line, ActionsMarker, 2);
    StartsWithPrefix(SuccessMarker, rest);
    StepCases(st, line);
    MarkerRemainder(SuccessMarker, rest);
  }

  /** Any line starting with the actions marker opens the action section with an empty
      item list; whatever follows the marker is discarded, and the task is unchanged. */
  lemma ActionsMarkerLine(st: ParseState, rest: string)
    ensures Step(st, ActionsMarker + rest) == Ok(st.(section := ActionsSection, items := []))
  {
    var line := ActionsMarker + rest;
    NotStartsWith(line, PhasePrefix, 0);
    NotStartsWith(line, TaskPrefix, 0);
    NotStartsWith(line, GoalMarker, 2);
    StartsWithPrefix(ActionsMarker, rest);
    StepCases(st, line);
  }

  /** The goal line as the document writer spells it: marker, space, stripped goal. */
  lemma GoalLine(st: ParseState, goal: string)
    requires IsStripped(goal) && !Occurs(GoalMarker, " " + goal)
    ensures Step(st, GoalMarker + " " + goal) ==
      Ok(st.(section := GoalSection, draft := if goal != "" then st.draft.(goal := Some(goal)) else st.draft))
  {
    assert GoalMarker + " " + goal == GoalMarker + (" " + goal);
    GoalMarkerLine(st, " " + goal);
    StripLeadingSpace(goal);
    StripOfStripped(goal);
  }

  /** The success line as the document writer spells it. */
  lemma SuccessLine(st: ParseState, criteria: string)
    requires IsStripped(criteria) && !Occurs(SuccessMarker, " " + criteria)
    ensures Step(st, SuccessMarker + " " + criteria) ==
      Ok(st.(section := SuccessSection, draft := if criteria != "" then st.draft.(success := Some(criteria)) else st.draft))
  {
    assert SuccessMarker + " " + criteria == SuccessMarker + (" " + criteria);
    SuccessMarkerLine(st, " " + criteria);
    StripLeadingSpace(criteria);
    StripOfStripped(criteria);
  }

  /** The bare actions marker line. */
  lemma ActionsLine(st: ParseState)
    ensures Step(st, ActionsMarker) == Ok(st.(section := ActionsSection, items := []))
  {
    assert ActionsMarker + [] == ActionsMarker;
    ActionsMarkerLine(st, []);
  }

  /** A bullet "- " + action, with a non-empty stripped action, is a content line that
      yields exactly that action. */
  lemma BulletLine(action: string)
    requires action != [] && IsStripped(action)
    ensures IsContentLine("- " + action)
    ensures ActionItems(["- " + action]) == [action]
  {
    BulletNotMarker(action);
    BulletItem(action);
  }

  lemma BulletNotMarker(action: string)
    ensures IsContentLine("- " + action)
  {
    var line := "- " + action;
    NotStartsWith(line, PhasePrefix, 0);
    NotStartsWith(line, TaskPrefix, 0);
    NotStartsWith(line, GoalMarker, 0);
    NotStartsWith(line, ActionsMarker, 0);
    NotStartsWith(line, SuccessMarker, 0);
  }

  lemma BulletItem(action: string)
    requires action != [] && IsStripped(action)
    ensures ActionItems(["- " + action]) == [action]
  {
    StrippedBullet(action);
    ActionItemsOfOne("- " + action);
  }

  lemma StrippedBullet(action: string)
    requires action != [] && IsStripped(action)
    ensures var line := "- " + action;
      Strip(line) == line && StartsWith(line, "- ") && |line| >= 2 && line[2..] == action
  {
    var line := "- " + action;
    assert |line| == 2 + |action| && line[2..] == action;
    assert IsStripped(line);
    StripOfStripped(line);
    StartsWithPrefix("- ", action);
  }

  lemma ActionItemsOfOne(line: string)
    ensures ActionItems([line]) == if StartsWith(Strip(line), "- ") then [Strip(line)[2..]] else []
  {
    assert [line][..0] == [];
  }

  /** Running a line followed by more lines. */
  lemma RunCons(st: ParseState, line: string, rest: seq<string>)
    ensures Step(st, line).Err? ==> Run(st, [line] + rest) == Err(Step(st, line).error)
    ensures Step(st, line).Ok? ==> Run(st, [line] + rest) == Run(Step(st, line).value, rest)
  {
    assert [line][..0] == [];
    RunAppend(st, [line], rest);
  }

  /** A bullet between a phase heading and its first task heading makes the parse fail
      at the end of the input (the KeyError of the final save). */
  lemma BulletBeforeTaskFails(digits: string, phaseTitle: string, action: string)
    requires AllDigits(digits) && digits != [] && phaseTitle != []
    requires action != [] && IsStripped(action)
    ensures ParseLines([PhasePrefix + digits + ": " + phaseTitle, ActionsMarker, "- " + action]) == Err(MissingTaskNumber)
  {
    var heading := PhasePrefix + digits + ": " + phaseTitle;
    PhaseHeadingLine(digits, phaseTitle, heading);
    var phase := PhaseData(DigitsValue(digits), phaseTitle, "", []);
    var s1 := ParseState([phase], NoDraft, NoSection, []);
    OrphanSurvivesPhaseHeading(Initial, heading);
    ActionsLine(s1);
    var s2 := s1.(section := ActionsSection);
    BulletLine(action);
    ActionsAccumulate(s2, ["- " + action]);
    assert [] + [action] == [action];
    var s3 := s2.(items := [action], draft := NoDraft.(actions := Some([action])));
    assert Run(s2, ["- " + action]) == Ok(s3);
    RunCons(s1, ActionsMarker, ["- " + action]);
    RunCons(Initial, heading, [ActionsMarker, "- " + action]);
    assert [heading] + ([ActionsMarker] + ["- " + action]) == [heading, ActionsMarker, "- " + action];
    assert [ActionsMarker] + ["- " + action] == [ActionsMarker, "- " + action];
    assert Run(Initial, [heading, ActionsMarker, "- " + action]) == Ok(s3);
  }
}
