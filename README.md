# tsqlr — a Dafny model of the result pipeline

tsqlr runs tSQLt database tests one at a time and shows their outcomes in a
terminal list. This project models the logic between "the SQL Server driver
hands the program a message" and "a row of the list changes", and proves
what that logic promises:

- `text.dfy` (module `Text`): the few Go `strings` functions the core uses
  (`Contains`, `HasPrefix`, `Trim`/`TrimLeft`/`TrimSpace`, `Split`, `Join`),
  with their defining properties and round trips.
- `tests.dfy` (module `Tests`): the outcome model of `tests/tests.go` — the
  `Status` enumeration and its labels, a test's display identity, the
  single-case summary line grammar with a digit-run parser, and the outcome
  classifier. The classifier is a specification function `Classify`; the
  class `Test` holds the imperative `ProcessResults`, whose loops are proved
  against it.
- `tests_examples.dfy` (module `ClassifierExamples`): the display-name and
  classifier cases of `tests/tests_test.go` as lemmas over arbitrary
  surrounding lines; its first case, a new test's initial status, is the
  contract of the `Test` constructor.
- `dbutil.dfy` (module `DbUtil`): the message sink `Logger` over a map from
  test identity to captured lines, with the filtering rule, and the
  specification functions `Record`/`RecordAll`/`Captured` it is proved against.
- `runner.dfy` (module `Runner`): from `main.go`, reading the test list
  (`parseTestFile`), running one test (`runTest`) against an abstract
  statement execution, and settling its status (one iteration of
  `processTestQueue`).
- `table.dfy` (module `Table`): the list view's state machine of
  `table/table.go` — rows, the rerun guard and the queue, removal, the
  list/detail modes, the cursor, the chosen test and the redraw coalescing.
- `worker.dfy` (module `Worker`): one iteration of the worker loop of
  `main.go`, joining the queue of the list, the runner and the redraw.
- `wrappers.dfy` (module `Wrappers`): `Option` and `Result`.

Some behaviours of the program are easy to misread; the model states them as
the code has them:

- A `PASS` verdict, and `MISSING` for a total of `"0"`, keep every captured
  line (tests/tests.go:131-134).
- A summary line whose counters do not parse gives `ERROR`, not `UNKNOWN`
  (tests/tests.go:120-121).
- `ClearResults` always returns nil lines, not the previous bucket
  (dbutil/dbutil.go:46-53).
- A statement error that does not mention the summary leaves the results
  equal to the captured bucket; the error text is not made the result line
  (main.go:249-254).
- The summary chosen is the last line containing the marker. Which line the
  pointer taken inside the loop at tests/tests.go:108-111 ends up on depends
  on the Go version's loop-variable semantics; the model takes the evident
  intent.

## Model

| member | source | states |
|---|---|---|
| Text.TrimShape | dbutil/dbutil.go:21 | the trimmed string is a slice of the input with only cut characters around it and no cut character at either end |
| Text.TrimIdempotent | dbutil/dbutil.go:21 | trimming an already trimmed string changes nothing |
| Text.JoinSplit | main.go:188 | joining the pieces of a split with the separator gives back the line |
| Text.SplitJoin | main.go:188 | splitting a join of separator-free pieces gives back the pieces |
| Tests.LabelsDistinct | tests/tests.go:21-37 | two statuses have the same label exactly when they are the same status |
| Tests.SplitDisplayName | tests/tests.go:46-51 | the identity is the suite alone for an empty name and `suite.name` otherwise, recovered by splitting on `.` |
| Tests.DisplayNameInjective | tests/tests.go:46-51 | tests with dot-free parts and the same identity have the same suite and name, so never share a capture bucket |
| Tests.ParseSummaryText | tests/tests.go:118-119 | every line that starts with a summary of five numerals is recognised with exactly those counters, whatever follows |
| Tests.ParseSummarySound | tests/tests.go:118-121 | a recognised line starts with the summary text of the five numerals it yields |
| Tests.FirstContaining | tests/tests.go:72-77 | the index of the first line containing the marker, or the line count when none does |
| Tests.LinesBeforeUnique | tests/tests.go:71-77 | the lines kept before the execution summary are the unique marker-free prefix that stops at the end or at a marker line |
| Tests.LastContaining | tests/tests.go:106-112 | the index of the last line containing the marker, or none when no line does |
| Tests.CollectBefore | tests/tests.go:95-101 | the collecting loop returns exactly the lines before the first execution summary marker |
| Tests.FindLast | tests/tests.go:107-112 | the scanning loop finds the last line containing the case summary marker |
| Tests.ClassifyEmpty | tests/tests.go:65-67 | with no captured lines the verdict is `ERROR` with an error, for a suite and for a single case |
| Tests.ClassifyShape | tests/tests.go:53-147 | the verdict is never pending or running, keeps all lines or the lines before the execution summary, carries an error whenever it is `UNKNOWN`, and an error comes only with `UNKNOWN` or `ERROR`, keeping every line |
| Tests.LadderShape | tests/tests.go:130-146 | every rung of the ladder gives a finished status, and a verdict carries an error exactly when it is the fall-through `UNKNOWN` |
| Tests.LadderRungs | tests/tests.go:130-146 | each status holds exactly when its string comparison is the first to succeed; the first two rungs keep every line, the next three keep the pre-summary output, the last errs |
| Tests.SuiteVerdict | tests/tests.go:64-85 | a captured suite fails exactly when its first line is not the execution summary, keeps exactly the lines before it when it fails, and otherwise passes with its lines unchanged |
| Tests.CaseVerdict | tests/tests.go:106-129 | when the last line containing the case summary marker is a well-formed summary, its counters decide the verdict through the ladder |
| Tests.CaseWithoutSummary | tests/tests.go:106-122 | with no summary line, or a last summary line that does not parse, the verdict is `ERROR` with an error and all lines kept |
| Tests.ZeroTotalIsMissing | tests/tests.go:130-132 | a total of `"0"` gives `MISSING` with every line kept and no error, whatever the other counters |
| Tests.Test.constructor | tests/tests.go:39-44 | a new test is `INITIAL` (shown as `PENDING`) with no results |
| Tests.Test.ProcessResults | tests/tests.go:53-62 | the status, the new results and the error are the verdict of `Classify` on the old results; only the results field changes |
| Tests.Test.ProcessSuiteResults | tests/tests.go:64-85 | suite mode, proved against the suite verdict |
| Tests.Test.ProcessCaseResults | tests/tests.go:87-147 | single-case mode, proved against the single-case verdict |
| ClassifierExamples.DisplayNameExamples | tests/tests_test.go:17-35 | `Suite.MyTest` for a named test and `Suite` for a suite |
| ClassifierExamples.NoResultsIsError | tests/tests_test.go:37-53 | no captured lines give `ERROR` with the "no results" error |
| ClassifierExamples.FailingCase | tests/tests_test.go:55-76 | a one-failure summary gives `FAIL` keeping exactly the output before the execution summary |
| ClassifierExamples.ErroringCase | tests/tests_test.go:78-99 | a one-error summary gives `ERROR` without an error, keeping exactly the output before the execution summary |
| ClassifierExamples.PassingCase | tests/tests_test.go:101-121 | a one-success summary gives `PASS` keeping every line |
| ClassifierExamples.MissingCase | tests/tests_test.go:123-142 | a zero-total summary gives `MISSING` keeping every line |
| ClassifierExamples.MixedCase | tests/tests.go:144-145 | mixed counters give `UNKNOWN` with an error naming the summary |
| ClassifierExamples.FailingSuite | tests/tests_test.go:144-171 | a suite with output before the execution summary fails and keeps exactly that output |
| ClassifierExamples.PassingSuite | tests/tests_test.go:173-194 | a suite whose lines open with the execution summary passes and keeps everything |
| DbUtil.KeptIsClean | dbutil/dbutil.go:21-24 | a message that survives the filter is non-empty, has no `+` in front and no noise at either end |
| DbUtil.RecordEffect | dbutil/dbutil.go:16-38 | a message is appended, trimmed, to the context's test exactly when there is a context naming a test and the message is kept; every other test is untouched |
| DbUtil.RecordKeepsClean | dbutil/dbutil.go:21-37 | logging keeps every stored line clean |
| DbUtil.Captured | dbutil/dbutil.go:21-24 | the kept messages are no more than those given and each is clean |
| DbUtil.RecordAllEffect | dbutil/dbutil.go:31-37 | a statement's messages under one test's context append exactly the kept ones to its bucket, create it only when one is kept, and leave every other test alone |
| DbUtil.Logger.constructor | main.go:52 | the logger starts with no results for any test |
| DbUtil.Logger.Log | dbutil/dbutil.go:16-38 | the new map is `Record` of the old one, and a map whose stored lines are all clean stays so |
| DbUtil.Logger.GetResults | dbutil/dbutil.go:40-44 | the lines stored under the test's identity, and whether that key is present |
| DbUtil.Logger.ClearResults | dbutil/dbutil.go:46-53 | a present bucket becomes empty and stays present, an absent one is not created, `ok` is the prior presence and the lines returned are always empty; a map whose stored lines are all clean stays so |
| DbUtil.ClearKeepsClean | dbutil/dbutil.go:46-53 | clearing keeps every stored line clean |
| DbUtil.ClearThenRecord | main.go:219-225 | after clearing and running, the bucket holds exactly the messages captured in this run |
| Runner.ParseLineCases | main.go:176-199 | blank lines are skipped; a line with at most one `.` gives dot-free parts that rejoin to the trimmed line; any other line is an error naming it |
| Runner.ParseLineOf | main.go:188-199 | the identity of a listable test, read back as a line, gives that test |
| Runner.CollectSound | main.go:175-200 | every collected test was named by a line, and there are no more tests than lines |
| Runner.CollectStops | main.go:195-197 | after an invalid line, later lines change nothing |
| Runner.CollectInvalid | main.go:195-197 | the first invalid line's error is the outcome of the whole list |
| Runner.CollectParsed | main.go:175-200 | lines that all name tests give exactly those tests in input order |
| Runner.ParseLineDotFree | main.go:188-199 | a line that names a test gives a suite and a name without `.` |
| Runner.CollectDotFree | main.go:175-200 | collecting keeps only tests named by lines, so dot-free lines give dot-free tests |
| Runner.TestListSound | main.go:162-211 | an accepted list is non-empty, no longer than the input, and every test has dot-free parts |
| Runner.TestListLines | main.go:162-211 | a non-empty list of listable tests written one per line reads back as the same list |
| Runner.ParseTestFile | main.go:162-211 | the scanning loop returns the tests in input order, the first invalid line's error, or "no tests found" |
| Runner.StripDriverPrefix | main.go:233-235 | a leading `mssql: ` is removed and anything else is left as is |
| Runner.Deliver | main.go:220-222 | the statement's messages reach the logger in order under its context |
| Runner.RunTest | main.go:213-242 | the results and error are `RunOutcome` of the prior presence and the statement; the test's bucket holds only this run's captured lines and no other bucket changes |
| Runner.ProcessTest | main.go:244-264 | the test's status and results become `Settle` of the run; the test's bucket then holds exactly this run's captured lines, exists when it existed before or something was captured, and every other bucket is untouched |
| Runner.SettleFinished | main.go:249-262 | a settled test is never pending, running or `UNKNOWN` |
| Runner.SettleKeeps | main.go:249-262 | a status other than `ERROR` keeps a prefix of the run's lines; a classifier error puts its message before the run's lines |
| Runner.SummaryErrorBecomesLine | main.go:230-239 | a statement error carrying the summary becomes the last line, with the driver prefix cut off, and no error remains |
| Runner.NothingCapturedIsNoResults | main.go:224-228 | without a bucket the error is "No results for test: <identity>", replacing the statement's error |
| Runner.SummaryFromError | main.go:230-262 | the counters of a summary delivered as an error decide a single case's status through the ladder |
| Table.RowsOf | table/table.go:47-53 | one row per test |
| Table.RowsOfAt | table/table.go:47-53 | row `i` is the row of test `i` |
| Table.RowShowsStatus | table/table.go:43-45 | a row shows a status label exactly when the test has that status, beside its identity |
| Table.BuildRows | table/table.go:47-53 | the loop builds exactly one row per test, in list order |
| Table.WithoutShape | table/table.go:65-80 | removal shortens the list by one, shifts later tests up, keeps the rest in order and drops exactly that test |
| Table.WaitingMembers | table/table.go:98-103 | a rerun of every test queues exactly the tests that were not running, each once |
| Table.Model.constructor | table/table.go:286-333 | the list view with the cursor at the top, nothing chosen, queued or pending, rows built from the tests |
| Table.Model.RunTest | table/table.go:55-63 | a running test is not queued again; any other becomes `RUNNING` and is queued once; its results are unchanged |
| Table.Model.RerunAll | table/table.go:98-103 | every test ends `RUNNING` and the queue grows by exactly the tests that were not running, in list order |
| Table.Model.RemoveTest | table/table.go:65-80 | an index out of range returns false and changes nothing; otherwise the list becomes `tests[..i] + tests[i+1..]` |
| Table.Model.OpenDetail | table/table.go:91-94 | "enter"/space switch to the detail of the test under the cursor |
| Table.Model.RunChosen | table/table.go:95-97 | "r" reruns the test under the cursor and refreshes the list |
| Table.Model.RunEveryTest | table/table.go:98-104 | "R" queues every test not yet running and refreshes the list |
| Table.Model.RemoveChosen | table/table.go:105-116 | "d"/"x" drop the test under the cursor, rebuild the rows and move the cursor up one, never below zero |
| Table.Model.Relist | table/table.go:108-112 | the rows match the list and the cursor is one above the removed index, or 0 |
| Table.Model.TickElapsed | table/table.go:118-120 | the tick redraws the list and schedules the next tick |
| Table.Model.ListOpened | table/table.go:125-129 | "Open" redraws the list and clears the pending-redraw flag |
| Table.Model.TestsUpdated | table/table.go:130-141 | "TestUpdated" does nothing while a redraw is pending; otherwise it marks one pending, rebuilds the rows and schedules a tick |
| Table.Model.UpdateTable | table/table.go:86-147 | the list view's transition for each message |
| Table.Model.Take | main.go:246 | the worker receives the oldest queued test, still running; the queue loses exactly that test and the model stays sound |
| Table.Model.CloseDetail | table/table.go:154-157 | "esc"/"q" return to the list with nothing chosen |
| Table.Model.RerunShown | table/table.go:158-160 | "r" in the detail view reruns the test shown and redraws it |
| Table.Model.MoveDetail | table/table.go:161-176 | "j"/"down" and "k"/"up" move one row within the list and show that test; at either end nothing moves |
| Table.Model.ShowDetail | table/table.go:182-192 | the detail is "Test running..." for a running test and its lines joined by newlines otherwise |
| Table.Model.UpdateViewport | table/table.go:149-198 | the detail view's transition for each message; the mode stays detail except on close |
| Table.Model.Update | table/table.go:213-241 | ctrl+c quits without change; other messages go to the current mode's transition; the text area changes nothing |
| Worker.ServeOne | main.go:244-264 | one worker turn: the oldest queued test leaves the queue and is settled as `Settle` of its run, its bucket holds exactly the run's captured lines and exists when it did before or something was captured, every other test and every other bucket is untouched, and "TestUpdated" then, in the list view, leaves a redraw pending, rebuilding the rows and scheduling a tick unless one already was, or, in the detail view, shows the chosen test's new detail with the cursor, rows and redraw flag kept; the list view keeps no chosen test and its detail text; the model stays sound |

## Left out

- Terminal drawing and the widgets (Bubble Tea, the table, viewport and text area, lipgloss): `View`, `viewportTitle`, `statusColor`, the styles of `InitialModel` and window-size handling. The table widget is its cursor and rows, the viewport its content string; messages they would receive are answered with a `Delegated` command.
- Time: the 200 ms timer is the `Tick` event and the `ScheduleTick` command.
- Concurrency: the worker goroutine's endless loop, the channel's blocking receive, the signal handler and the "R" goroutine. The queue is a sequence; one loop iteration is `Worker.ServeOne` (take with `Table.Model.Take`, settle with `Runner.ProcessTest`, then the "TestUpdated" message), run atomically, so its interleaving with the list's other messages is not modelled; "R" likewise runs to completion before the redraw.
- The database: opening the connection, registering the logger, `PingContext` and `ExecContext`. A statement is its delivered messages plus an optional error text (`Runner.Execution`); the 10-second timeout only shows up as such an error.
- Command-line and environment options, opening and scanning the file or standard input; fatal exits are `Err` results.
- The regular expression engine: the summary grammar is parsed by an explicit digit-run parser.
- `context.Context`: a message's context is none, or one that may carry a test name.
- Go slices of structs against objects: `RemoveTest` copies the remaining tests into a new slice, so a pointer already in the queue keeps referring to the old copy; the model treats tests as objects shared by the list and the queue, so this aliasing is not captured.
- Table.Model.UpdateTable: the table widget's own cursor keys in the list view (up/down, j/k, page up/down, home/end) are answered with `Delegated` and modelled as no change; the cursor moves the widget makes there are not captured, and the model's cursor changes only through removal and the detail view's moves.
- Indexing an empty list ("enter", space or "r" in the list view) panics in Go; the model returns the `Panic` command and changes nothing.
- Tests.FindLast: the loop at tests/tests.go:108-111 keeps a pointer taken inside the loop; under Go's pre-1.22 loop-variable semantics that pointer ends on the last line, not on the last marker line. The model returns the last line containing the marker, the evident intent.
- Strings are sequences of runes, not UTF-8 bytes; every cut set involved is a set of whole runes (Go's white space, the byte order mark, the logger's noise) and every separator is one ASCII rune, so the results agree.
