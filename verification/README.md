# Phase structure generator: a Dafny model

This project models the phase structure generator. The generator reads an action plan
written in Markdown and builds a folder tree from it: one `Phase<N>/` folder per phase
number `N` (two phase headings with the same number share one folder, and the later one
overwrites what they have in common), holding that phase's checklist `TaskCheckList<N>.md`
and one `Task<i>/` folder per task. Each task folder holds the task page `Task<i>.md` and two empty files,
`TaskCompleteNote<i>.md` and `TaskReview<i>.md`. The project also models the small
summarizer tool, which truncates text to a maximum length and adds an ellipsis.

The project is made of these modules:

- `Text`: the Python string operations the generator uses, written over `seq<char>`:
  - `strip`, `startswith`, `replace(marker, '')` and `split('\n')`;
  - `"\n".join`, `lower`, and `int`/`str` on natural numbers.
- `PlanModel`: the `Task` record and its two renderings (the task page and the checklist
  section). A phase is both a value (`PhaseData`) and a class (`Phase`), whose `AddTask`
  grows its task list in place. `ChecklistMd` renders the phase checklist.
- `PlanParser`: `parse_action_plan` as a pure line-by-line state machine (`Step`, `Run`,
  `ParseLines`, `Parse`). The method `ParseActionPlan` follows the source's loop over the
  lines: it builds `Phase` objects and calls `AddTask` on the current phase, and it is
  proved to agree with `Parse`.
- `ParserProperties`: what the parser does with each kind of line. This covers:
  - the heading regexes, and which line flushes the pending task;
  - how goal, action and success text accumulates;
  - the error raised when a field comes before any task heading;
  - the behaviour of a task that appears before any phase.
- `WholeParse`: properties of a whole parse. Every field the parser produces is a single
  line, and each phase gets exactly the task headings found under its own heading.
- `PlanDocument`: writes a plan back out as an action-plan document in the shape the
  parser reads, and proves that parsing that document gives the plan back.
- `Materializer`: `create_phase_structure`. The file system is a value: a set of
  directories plus a map from paths to contents. The class `Disk` holds that state, and
  the method `CreatePhaseStructure` changes it through `MakeDir` and `WriteText`. The
  method is proved equal to applying a fixed write plan (`WritePlan`), and lemmas about
  that plan say which files hold what after a run.
- `RunLayout`: the exact sets of folders and files a run creates, as functions of the
  phases.
- `WorkedExample`: a one-phase, one-task document, parsed and then laid out.
- `Summarizer`: the `summarizer` tool.

A task that appears before any phase heading is not simply dropped. A phase heading
flushes the pending task only while a phase is current; otherwise the task stays pending
and joins the phase that heading opens. It is lost only when another task heading
replaces it before any phase opens, or when the text ends with no phase at all. The model
follows this behaviour of the code (`OrphanTaskJoinsFirstPhase`, `OrphanTaskOverwritten`,
`OrphanTaskWithoutPhaseDropped`).

Some lines fill in a task field even when the task dictionary holds no task heading: a
goal or success marker line with text after the marker, a continuation line in an open
goal or success section, or an action bullet. The dictionary is in that state before the
first task heading, and again after a phase heading has saved the pending task and
cleared the dictionary. Such a line leaves a dictionary without a `number` key. Once a
phase is current, the next heading or the end of the text flushes it, and the source
raises a `KeyError`. The model returns `Err(MissingTaskNumber)` there:
`FieldWithoutTaskFails` states the general case, and `GoalBeforeTaskFails` and
`BulletBeforeTaskFails` are two instances. A bare marker line and the `**Actions**:` line
only change the current section, so they leave no such dictionary behind.

## Model

| member | source | states |
|---|---|---|
| `Text.Strip` | generate_phase_structure.py:157 | the result has no leading or trailing whitespace (Python's `str.isspace` set), and it is empty exactly when the input is all whitespace |
| `Text.StripIsSlice` | generate_phase_structure.py:157 | the result is a slice of the input, and only whitespace lies before and after that slice |
| `Text.RemoveAllAbsent` | generate_phase_structure.py:157 | `replace(marker, '')` leaves text in which the marker does not occur unchanged |
| `Text.Split` | generate_phase_structure.py:105 | `split('\n')` gives at least one piece, and no piece holds the separator |
| `Text.JoinSplit` | generate_phase_structure.py:105 | joining the pieces of a split with the separator gives back the original text |
| `Text.SplitJoin` | generate_phase_structure.py:105 | splitting a join of separator-free pieces gives back the pieces |
| `Text.DigitsValueOfNatToString` | generate_phase_structure.py:124 | `int` of the decimal spelling of `n` is `n`, so phase numbers read back from headings and folder names |
| `Text.Lower` | generate_phase_structure.py:85 | `lower` keeps the length, leaves no capital letter, keeps every character that is not a capital in place, and turns each capital into the small letter 32 code points above it |
| `Text.LowerIdempotent` | generate_phase_structure.py:85 | lower-casing an already lower-cased title changes nothing |
| `PlanModel.TaskMdLines` | generate_phase_structure.py:34-51 | the lines of the task page: the `# Task N: title` heading, the goal line, the actions marker, one `- ` bullet per action (one empty line when there are none), the success line and a final empty line |
| `PlanModel.ChecklistSectionLines` | generate_phase_structure.py:53-61 | the lines of a task's checklist entry: the `### Task N: title` heading, one `- [ ] ` line per action (one empty line when there are none), then the unchecked `- [ ] **Success Criteria**: …` line |
| `PlanModel.ChecklistMdLines` | generate_phase_structure.py:77-90 | the lines of the phase checklist: the heading with number and title, the overview (the description, or the sentence built from the lower-cased title when the description is empty), then the task sections |
| `PlanModel.TasksTextAppend` | generate_phase_structure.py:79 | adding a task appends its checklist section after a blank line, or makes it the whole text when there were no tasks |
| `PlanModel.BulletLines` | generate_phase_structure.py:40 | the joined action list splits back into exactly its bullets, or one empty line when there are no actions |
| `PlanModel.Phase.constructor` | generate_phase_structure.py:67-71 | a new phase has the given number, title and description, and no tasks |
| `PlanModel.Phase.AddTask` | generate_phase_structure.py:73-75 | the task list gains the task at its end and nothing else changes; the checklist text gains that task's section |
| `PlanParser.RunAppend` | generate_phase_structure.py:107-190 | running two stretches of lines is running the first, then the second from where the first stopped; an error stops the run |
| `PlanParser.ErrorIsFinal` | generate_phase_structure.py:112-122 | once a prefix of the lines raises the missing-number error, the whole parse fails with it |
| `PlanParser.SavePendingTask` | generate_phase_structure.py:112-122 | a non-empty pending task is appended to the current phase object when a phase exists; it fails exactly when the pending dictionary has no number |
| `PlanParser.StartPhase` | generate_phase_structure.py:108-129 | a phase heading flushes the pending task (when a phase is current), creates a fresh `Phase` and makes it current, as `OnPhase` states |
| `PlanParser.StartTask` | generate_phase_structure.py:131-152 | a task heading flushes the pending task into the current phase and starts a new task with an empty action list, as `OnTask` states |
| `PlanParser.ReadFieldLine` | generate_phase_structure.py:154-190 | a non-heading line updates the pending task, section and action items exactly as `OnLine` does, whatever the phases are |
| `PlanParser.ParseLine` | generate_phase_structure.py:107-190 | one loop iteration over `Phase` objects agrees with `Step`; the current phase stays the last one created |
| `PlanParser.ParseAllLines` | generate_phase_structure.py:99-190 | the loop over the lines either stops with the missing-number error, exactly when parsing fails there, or leaves fresh phase objects, pending task, section and items equal to the state `Run` reaches |
| `PlanParser.ParseActionPlan` | generate_phase_structure.py:99-203 | the method over `Phase` objects fails exactly when `Parse` fails, with the same error, and otherwise returns fresh phases whose values are `Parse`'s result |
| `ParserProperties.MatchPhaseSound` | generate_phase_structure.py:109 | a matched phase line is `## Phase ` + digits + `: ` + a non-empty title, and the match gives the digits' value and that title |
| `ParserProperties.MatchPhaseComplete` | generate_phase_structure.py:109 | every such line matches, with that number and title |
| `ParserProperties.MatchTaskSound` | generate_phase_structure.py:132 | a matched task line is `### Task ` + a dotted number + `: ` + a non-empty title, and the match gives those two groups |
| `ParserProperties.MatchTaskComplete` | generate_phase_structure.py:132 | every such line matches, with that number and title |
| `ParserProperties.HeadingsExclusive` | generate_phase_structure.py:109-132 | no line is both a phase heading and a task heading |
| `ParserProperties.PhasesFollowHeadings` | generate_phase_structure.py:99-203 | a successful parse has one phase per phase heading, in order, with that heading's number and title and no description |
| `WholeParse.TasksFollowHeadings` | generate_phase_structure.py:99-203 | when every task heading comes after some phase heading, a successful parse gives each phase, in order, the (number, title) of exactly the task headings between its heading and the next phase heading |
| `WholeParse.PhaseTasksFromHeadings` | generate_phase_structure.py:132-150 | under the same assumption, phase `k` of a successful parse has as many tasks as there are task headings under its heading, and its task `j` carries the number and title of heading `j` there |
| `WholeParse.ParsedSingleLine` | generate_phase_structure.py:105-203 | after splitting on newlines, no phase title or description and no task number, title, goal, action or criteria the parser returns contains a newline, so the renderers' line-by-line descriptions apply to every parsed phase |
| `ParserProperties.NoPhaseHeadingNoPhases` | generate_phase_structure.py:99-203 | text without phase headings parses to no phases, whatever tasks and fields it holds |
| `ParserProperties.ParseGrows` | generate_phase_structure.py:99-203 | phases only grow during a parse: earlier phases are never altered, and the last one only gains tasks |
| `ParserProperties.FlushAtPhaseHeading` | generate_phase_structure.py:110-129 | with a phase current and a numbered task pending, a phase heading appends the task to the current phase, opens the new phase and resets the task, section and items |
| `ParserProperties.FlushAtTaskHeading` | generate_phase_structure.py:133-152 | with a phase current and a numbered task pending, a task heading appends the task and starts the new one with no goal, an empty action list and no criteria |
| `ParserProperties.FlushAtEnd` | generate_phase_structure.py:192-203 | the task still pending at the end of the text is appended to the last phase |
| `ParserProperties.OnlyHeadingsFlush` | generate_phase_structure.py:154-190 | a line that is not a heading never changes the phases |
| `ParserProperties.OrphanSurvivesPhaseHeading` | generate_phase_structure.py:112 | with no phase yet, a phase heading keeps the pending task and its action items |
| `ParserProperties.OrphanOverwritten` | generate_phase_structure.py:135-152 | with no phase yet, a task heading discards the pending task and starts the new one |
| `ParserProperties.FieldWithoutTaskFails` | generate_phase_structure.py:112-114 | a pending dictionary without a number fails at the next heading once a phase exists (the `KeyError`) |
| `ParserProperties.GoalAccumulates` | generate_phase_structure.py:175-179 | in the goal section, each further non-blank line not starting with `#` is stripped and appended to the goal after a space |
| `ParserProperties.SuccessAccumulates` | generate_phase_structure.py:186-190 | in the success section, further lines are appended to the criteria in the same way |
| `ParserProperties.ActionsAccumulate` | generate_phase_structure.py:181-184 | in the actions section, each line whose stripped form starts with `- ` adds its remainder to the action list, and the pending task's actions become the whole list |
| `ParserProperties.UnsectionedLinesIgnored` | generate_phase_structure.py:174-190 | outside any section, non-heading, non-marker lines change nothing |
| `ParserProperties.MarkerRemainder` | generate_phase_structure.py:157 | removing the marker from a marker line leaves the rest of the line, when the rest does not contain the marker |
| `ParserProperties.GoalMarkerLine` | generate_phase_structure.py:155-160 | any line that starts with the goal marker (and does not repeat it) opens the goal section, whatever text follows the marker; the stripped remainder becomes the goal only when it is non-empty, and the task is otherwise unchanged |
| `ParserProperties.SuccessMarkerLine` | generate_phase_structure.py:167-172 | any line that starts with the success marker (and does not repeat it) opens the success section; the stripped remainder becomes the criteria only when it is non-empty |
| `ParserProperties.ActionsMarkerLine` | generate_phase_structure.py:162-165 | any line that starts with the actions marker, with or without text after it, opens the actions section and clears the item list, leaving the task's actions as they were |
| `ParserProperties.MissingFieldsDefault` | generate_phase_structure.py:113-119 | a task without goal, actions or criteria gets the empty goal, no actions and empty criteria |
| `ParserProperties.OrphanTaskJoinsFirstPhase` | generate_phase_structure.py:112-129 | a task line followed by a phase line gives that phase holding the task |
| `ParserProperties.OrphanTaskOverwritten` | generate_phase_structure.py:135-152 | of two task lines before the first phase line, only the second reaches the phase |
| `ParserProperties.OrphanTaskWithoutPhaseDropped` | generate_phase_structure.py:193 | a task with no phase anywhere is not kept |
| `ParserProperties.GoalBeforeTaskFails` | generate_phase_structure.py:135-143 | a goal line between a phase line and the first task line makes the parse fail with the missing-number error |
| `ParserProperties.BulletBeforeTaskFails` | generate_phase_structure.py:193-201 | an action bullet before any task line of a phase makes the parse fail at the end of the text |
| `PlanDocument.ParseLinesRendersBack` | generate_phase_structure.py:107-203 | the lines written from a well-formed plan parse back to that plan |
| `PlanDocument.ParseRendersBack` | generate_phase_structure.py:99-203 | the document text written from a well-formed plan (no descriptions, one-line stripped fields without their own markers) parses back to exactly that plan |
| `Materializer.ApplyIsMerge` | generate_phase_structure.py:206-247 | applying the operations adds every directory they create and overwrites each written path with its last write |
| `Materializer.Disk.MakeDir` | generate_phase_structure.py:210 | `mkdir(exist_ok=True)` adds the directory and leaves the files unchanged |
| `Materializer.Disk.WriteText` | generate_phase_structure.py:221-222 | writing a file sets that path's contents and changes nothing else |
| `Materializer.CreatePhaseStructure` | generate_phase_structure.py:206-247 | the disk ends as the write plan of the phases' values applied to the starting disk: the base folder, then per phase its folder and checklist, then per task its folder and three files |
| `Materializer.WritePhase` | generate_phase_structure.py:213-247 | one iteration of the phase loop applies that phase's operations |
| `Materializer.WriteTasks` | generate_phase_structure.py:226-247 | the task loop applies each task's four operations, numbering tasks from 1 |
| `Materializer.ChecklistWritten` | generate_phase_structure.py:215-222 | after a run, `Phase<N>/TaskCheckList<N>.md` holds the checklist of the last phase numbered N |
| `Materializer.TaskFilesWritten` | generate_phase_structure.py:226-247 | after a run, `Phase<N>/Task<i>/Task<i>.md` holds the page of the i-th task, and the note and review files are empty |
| `Materializer.DirsCreated` | generate_phase_structure.py:209-228 | after a run, the base folder, each phase folder and each task folder exist |
| `RunLayout.PlanDirSet` | generate_phase_structure.py:209-228 | the folders a run creates are exactly the base folder, `Phase<N>` for each phase and `Phase<N>/Task<i>` for each task `i` of each phase, and no others |
| `RunLayout.PlanFileSet` | generate_phase_structure.py:219-247 | the files a run writes are exactly one `TaskCheckList<N>.md` per phase and `Task<i>.md`, `TaskCompleteNote<i>.md` and `TaskReview<i>.md` for each task `i` of each phase, and no others |
| `RunLayout.TaskDirsOfPhase` | generate_phase_structure.py:226-228 | when no other phase shares its number, the `Task<i>` folders a run creates under a phase are exactly `Task1` to `Task<count>`, `count` being the phase's number of tasks (with `WholeParse.PhaseTasksFromHeadings`, the number of task headings under its heading) |
| `Materializer.OtherFilesUnchanged` | generate_phase_structure.py:206-247 | files outside the phase folders of the plan keep their old contents |
| `Materializer.SameNumberLeavesStaleTasks` | generate_phase_structure.py:213-247 | when two phases share a number, the later checklist wins, but for every task number `i` beyond the later phase's task count and within the earlier one's, `Task<i>.md` keeps the earlier rendering and `TaskCompleteNote<i>.md` and `TaskReview<i>.md` stay, empty |
| `Materializer.RunTwiceSameTree` | generate_phase_structure.py:206-247 | running the generator twice leaves the same tree as running it once |
| `Materializer.PlanCreatedBeforeUse` | generate_phase_structure.py:209-247 | every folder or file is created inside a folder that already exists, given that the base folder's parent exists |
| `WorkedExample.SampleParses` | generate_phase_structure.py:99-203 | the sample document parses to phase 1 "Setup" holding task 1.1 with its goal, both actions and its criteria |
| `WorkedExample.SampleLayout` | generate_phase_structure.py:206-247 | generating the sample creates `Phase1/TaskCheckList1.md` and `Phase1/Task1/` with its page and two empty files |
| `Summarizer.Summarize` | base/__tests__/fixtures/tools/summarizer.py:12-18 | text within the limit is returned unchanged; longer text becomes a prefix of itself followed by `...`, of exactly the limit's length when the limit is at least 3 |
| `Summarizer.DefaultSummaryFits` | base/__tests__/fixtures/tools/summarizer.py:12 | with the default limit of 100 the summary never exceeds 100 characters |
| `Summarizer.SummarizeIdempotent` | base/__tests__/fixtures/tools/summarizer.py:12-18 | summarizing a summary again with the same limit (at least 3) changes nothing |
| `Summarizer.BoundHoldsIffLimitAtLeastThree` | base/__tests__/fixtures/tools/summarizer.py:14-18 | every summary fits the limit if and only if the limit is at least 3 |
| `Summarizer.ShortLimitOverruns` | base/__tests__/fixtures/tools/summarizer.py:18 | below 3, Python's slice with a negative stop keeps all but the last few characters, so the summary is longer than the limit |
| `Summarizer.ShortLimitExample` | base/__tests__/fixtures/tools/summarizer.py:18 | `summarizer("abcdef", 2)` is `"abcde..."` |

## Left out

- Reading the action-plan file (generate_phase_structure.py:96-97): `Parse` takes the file's text after `open()`'s newline translation, so every line ending reaches it as `\n`. Raw `\r\n` text is not modelled; there the title groups would keep the `\r`.
- `main` and the command-line entry points: they only wire a fixed path to the two operations.
- The summarizer's demonstration block also lies outside the model.
- The progress messages printed by `create_phase_structure` are not modelled.
- The real file system is not modelled. Paths are sequences of names, and the default base folder `/workspace/ActionPlan` is a parameter.
- File-system errors are not modelled: a base folder whose parent is missing, a file where a folder is expected, permissions, encoding failures and partial writes. `PlanCreatedBeforeUse` states the ordering that keeps `mkdir` from failing for want of a parent.
- Python's limit on the number of digits that `int()` and `str()` convert (4300 by default since CPython 3.11) is not modelled. A phase heading with a longer number makes the source raise `ValueError` at generate_phase_structure.py:124, while `MatchPhase` accepts it and `Parse` returns `Ok`. `NatToString` has no limit either, unlike the `str()` of the phase number at generate_phase_structure.py:81, :215 and :220.
- `\d` in the heading regexes and `int()` accept only ASCII digits here. Python also accepts other Unicode decimal digits.
- `WholeParse.TasksFollowHeadings` assumes that every task heading comes after some phase heading. A task heading that comes earlier is covered by `OrphanTaskJoinsFirstPhase`, `OrphanTaskOverwritten` and `OrphanTaskWithoutPhaseDropped` instead.
- `ParserProperties.GoalMarkerLine` and `ParserProperties.SuccessMarkerLine` assume that the marker does not occur again later in the line. `replace` would remove that occurrence too. `Step` models such a line in full; only the lemmas leave it aside.
- `str.lower` is modelled for ASCII letters only; other characters are kept as they are.
- The regex `$` may match before a trailing newline, but split lines never contain one, so that case is not modelled.
- The `KeyError` for a task dictionary without a number is the error value `MissingTaskNumber`, not an exception.
- `Phase.description` is never set by the parser. `ChecklistMd` still models both branches of the overview.
- `PlanModel.Phase.ToChecklistMd` states no property of its own: it is `ChecklistMd` of the phase's value, and `ChecklistMdLines` describes that text.
- The `Task` objects are modelled as values. They are shared between the parser's phases and the generator, and neither ever mutates them, so the sharing cannot be observed.
