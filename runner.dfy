/**
 * The program around the list, from main.go: reading the test list, running
 * one test through the driver and the logger, and settling the test's
 * status and lines afterwards.
 */
module Runner {
  import opened Wrappers
  import opened Text
  import opened Tests
  import opened DbUtil

  // ---------------------------------------------------------------------
  // The test list (main.go:162-211)

  /** The suite and test name one line of the list asks for; `name` is empty for a whole suite. */
  datatype TestId = TestId(suite: string, name: string)

  /** The characters `strings.TrimSpace` removes: Go's `unicode.IsSpace`. */
  const Whitespace: set<char> := {
    '\t', '\n', '\U{000B}', '\U{000C}', '\r', ' ', '\U{0085}', '\U{00A0}', '\U{1680}',
    '\U{2000}', '\U{2001}', '\U{2002}', '\U{2003}', '\U{2004}', '\U{2005}', '\U{2006}',
    '\U{2007}', '\U{2008}', '\U{2009}', '\U{200A}', '\U{2028}', '\U{2029}', '\U{202F}',
    '\U{205F}', '\U{3000}'}

  /** The byte order mark an editor may leave at the start of the file. */
  const Bom: char := '\U{FEFF}'

  /**
   * A non-blank line after trimming: white space is trimmed first, and the
   * marks in front are stripped only when the line holds a mark at all.
   */
  function Normalize(raw: string): string {
    var line := Trim(raw, Whitespace);
    if Bom in line then TrimLeft(line, {Bom}) else line
  }

  /** What one line contributes: nothing, a test, or the fatal error that ends the program. */
  datatype LineResult = Skip | Parsed(id: TestId) | Invalid(msg: string)

  /** The body of the loop of main.go:175-200. */
  function ParseLine(raw: string): LineResult {
    if Trim(raw, Whitespace) == "" then Skip
    else
      var line := Normalize(raw);
      var pieces := Split(line, '.');
      if |pieces| == 1 then Parsed(TestId(pieces[0], ""))
      else if |pieces| == 2 then Parsed(TestId(pieces[0], pieces[1]))
      else Invalid("invalid test line: " + line)
  }

  /**
   * Blank lines are skipped; a line with at most one `.` names a suite (and a
   * test), the pieces hold no `.` and put back together give the line; any
   * other line is invalid and reported as it stands after trimming.
   */
  lemma ParseLineCases(raw: string)
    ensures ParseLine(raw).Skip? <==> Trim(raw, Whitespace) == ""
    ensures ParseLine(raw).Parsed? ==>
      var id := ParseLine(raw).id;
      && '.' !in id.suite && '.' !in id.name
      && (Normalize(raw) == id.suite + "." + id.name || (id.name == "" && Normalize(raw) == id.suite))
    ensures ParseLine(raw).Invalid? ==>
      && ParseLine(raw).msg == "invalid test line: " + Normalize(raw)
      && |Split(Normalize(raw), '.')| >= 3
  {
    if Trim(raw, Whitespace) != "" {
      var line := Normalize(raw);
      var pieces := Split(line, '.');
      JoinSplit(line, '.');
      assert pieces[0] in pieces;
      if |pieces| == 2 {
        assert pieces[1] in pieces;
        assert Join(pieces, ".") == pieces[0] + "." + pieces[1];
      }
    }
  }

  /** A test the list can name: a non-empty suite, no `.` or mark inside, nothing to trim. */
  predicate Listable(id: TestId) {
    && id.suite != "" && '.' !in id.suite && '.' !in id.name
    && Bom !in id.suite && Bom !in id.name
    && id.suite[0] !in Whitespace
    && (if id.name == "" then id.suite[|id.suite| - 1] !in Whitespace
        else id.name[|id.name| - 1] !in Whitespace)
  }

  /** The line for a test: its display name. */
  function LineOf(id: TestId): string {
    DisplayName(id.suite, id.name)
  }

  /** Writing a listable test as its display name and reading the line back gives the test. */
  lemma ParseLineOf(id: TestId)
    requires Listable(id)
    ensures ParseLine(LineOf(id)) == Parsed(id)
  {
    var line := LineOf(id);
    assert line[0] == id.suite[0];
    TrimNoop(line, Whitespace);
    assert Bom !in line;
    SplitDisplayName(id.suite, id.name);
  }

  /** Each line parsed on its own. */
  function ParseAll(lines: seq<string>): (r: seq<LineResult>)
    ensures |r| == |lines|
    ensures forall k :: 0 <= k < |lines| ==> r[k] == ParseLine(lines[k])
    decreases |lines|
  {
    if |lines| == 0 then [] else ParseAll(lines[..|lines| - 1]) + [ParseLine(lines[|lines| - 1])]
  }

  /** One more line: an earlier error stands, otherwise the line's test (if any) is added. */
  function Step(acc: Result<seq<TestId>>, line: LineResult): Result<seq<TestId>> {
    match acc
    case Err(e) => Err(e)
    case Ok(ids) =>
      match line
      case Skip => Ok(ids)
      case Parsed(id) => Ok(ids + [id])
      case Invalid(msg) => Err(msg)
  }

  /** The tests the parsed lines name, in order, or the message of the first invalid line. */
  function Collect(parsed: seq<LineResult>): Result<seq<TestId>>
    decreases |parsed|
  {
    if |parsed| == 0 then Ok([]) else Step(Collect(parsed[..|parsed| - 1]), parsed[|parsed| - 1])
  }

  /** `parseTestFile` over the lines of the file: an empty list is an error too. */
  function TestList(lines: seq<string>): Result<seq<TestId>> {
    match Collect(ParseAll(lines))
    case Err(e) => Err(e)
    case Ok(ids) => if ids == [] then Err("no tests found") else Ok(ids)
  }

  /** Every test collected was named by one of the lines, and there are no more tests than lines. */
  lemma {:induction false} CollectSound(parsed: seq<LineResult>)
    ensures Collect(parsed).Ok? ==> |Collect(parsed).value| <= |parsed|
    ensures Collect(parsed).Ok? ==> forall k :: 0 <= k < |Collect(parsed).value| ==>
      Parsed(Collect(parsed).value[k]) in parsed
    decreases |parsed|
  {
    if |parsed| > 0 {
      var init := parsed[..|parsed| - 1];
      CollectSound(init);
      if Collect(init).Ok? {
        forall k | 0 <= k < |Collect(init).value| ensures Parsed(Collect(init).value[k]) in parsed {
          assert Parsed(Collect(init).value[k]) in init;
        }
      }
    }
  }

  /** Neither part of a test read from the list holds a `.`. */
  predicate DotFree(id: TestId) {
    '.' !in id.suite && '.' !in id.name
  }

  /** A line that names a test gives dot-free parts: they are pieces of a split on `.`. */
  lemma ParseLineDotFree(raw: string)
    ensures ParseLine(raw).Parsed? ==> DotFree(ParseLine(raw).id)
  {
    if Trim(raw, Whitespace) != "" {
      var pieces := Split(Normalize(raw), '.');
      assert pieces[0] in pieces;
      if |pieces| == 2 {
        assert pieces[1] in pieces;
      }
    }
  }

  /** Collecting keeps only tests the lines named, so dot-free lines give dot-free tests. */
  lemma {:induction false} CollectDotFree(parsed: seq<LineResult>)
    requires forall j :: 0 <= j < |parsed| && parsed[j].Parsed? ==> DotFree(parsed[j].id)
    ensures Collect(parsed).Ok? ==> forall k :: 0 <= k < |Collect(parsed).value| ==> DotFree(Collect(parsed).value[k])
    decreases |parsed|
  {
    if |parsed| > 0 {
      CollectDotFree(parsed[..|parsed| - 1]);
    }
  }

  /** So every test read from the list has dot-free parts. */
  lemma TestListSound(lines: seq<string>)
    ensures TestList(lines).Ok? ==> 0 < |TestList(lines).value| <= |lines|
    ensures TestList(lines).Ok? ==> forall k :: 0 <= k < |TestList(lines).value| ==>
      '.' !in TestList(lines).value[k].suite && '.' !in TestList(lines).value[k].name
  {
    var parsed := ParseAll(lines);
    CollectSound(parsed);
    forall j | 0 <= j < |parsed| && parsed[j].Parsed? ensures DotFree(parsed[j].id) {
      ParseLineDotFree(lines[j]);
    }
    CollectDotFree(parsed);
  }

  /** Once a line is invalid, the lines after it change nothing. */
  lemma {:induction false} CollectStops(p: seq<LineResult>, q: seq<LineResult>)
    requires Collect(p).Err?
    ensures Collect(p + q) == Collect(p)
    decreases |q|
  {
    if |q| > 0 {
      var pq := p + q;
      assert pq[..|pq| - 1] == p + q[..|q| - 1];
      CollectStops(p, q[..|q| - 1]);
    } else {
      assert p + q == p;
    }
  }

  /** Lines that all name tests give exactly those tests. */
  lemma {:induction false} CollectParsed(parsed: seq<LineResult>, ids: seq<TestId>)
    requires |parsed| == |ids|
    requires forall k :: 0 <= k < |ids| ==> parsed[k] == Parsed(ids[k])
    ensures Collect(parsed) == Ok(ids)
    decreases |ids|
  {
    if |ids| > 0 {
      CollectParsed(parsed[..|parsed| - 1], ids[..|ids| - 1]);
      assert ids[..|ids| - 1] + [ids[|ids| - 1]] == ids;
    }
  }

  /** The lines of a list of tests, one display name per line. */
  function Lines(ids: seq<TestId>): (r: seq<string>)
    ensures |r| == |ids|
    ensures forall k :: 0 <= k < |ids| ==> r[k] == LineOf(ids[k])
    decreases |ids|
  {
    if |ids| == 0 then [] else Lines(ids[..|ids| - 1]) + [LineOf(ids[|ids| - 1])]
  }

  /** Writing a non-empty list of listable tests one per line and reading the file back gives the tests. */
  lemma TestListLines(ids: seq<TestId>)
    requires |ids| > 0
    requires forall k :: 0 <= k < |ids| ==> Listable(ids[k])
    ensures TestList(Lines(ids)) == Ok(ids)
  {
    var parsed := ParseAll(Lines(ids));
    forall k | 0 <= k < |ids| ensures parsed[k] == Parsed(ids[k]) {
      ParseLineOf(ids[k]);
    }
    CollectParsed(parsed, ids);
  }

  /** One more line of the list is one more `Step`. */
  lemma CollectNext(parsed: seq<LineResult>, i: nat)
    requires i < |parsed|
    ensures Collect(parsed[..i + 1]) == Step(Collect(parsed[..i]), parsed[i])
  {
    assert parsed[..i + 1][..i] == parsed[..i];
  }

  /** The first invalid line decides the outcome of the whole list. */
  lemma CollectInvalid(parsed: seq<LineResult>, i: nat)
    requires i < |parsed| && Collect(parsed[..i]).Ok? && parsed[i].Invalid?
    ensures Collect(parsed) == Err(parsed[i].msg)
  {
    CollectNext(parsed, i);
    CollectStops(parsed[..i + 1], parsed[i + 1..]);
    assert parsed[..i + 1] + parsed[i + 1..] == parsed;
  }

  /** main.go:162-211, the lines of the file given; the fatal errors are `Err`. */
  method ParseTestFile(lines: seq<string>) returns (r: Result<seq<TestId>>)
    ensures r == TestList(lines)
  {
    ghost var parsed := ParseAll(lines);
    var tests: seq<TestId> := [];
    var i := 0;
    while i < |lines|
      invariant 0 <= i <= |lines|
      invariant Collect(parsed[..i]) == Ok(tests)
    {
      var line := ParseLine(lines[i]);
      assert line == parsed[i];
      CollectNext(parsed, i);
      match line {
        case Skip =>
        case Parsed(id) =>
          tests := tests + [id];
        case Invalid(msg) =>
          CollectInvalid(parsed, i);
          return Err(msg);
      }
      i := i + 1;
    }
    assert parsed[..i] == parsed;
    if |tests| == 0 {
      return Err("no tests found");
    }
    return Ok(tests);
  }

  // ---------------------------------------------------------------------
  // Running one test (main.go:213-242)

  /**
   * What the driver does for one `EXEC tSQLt.Run` statement, seen from the
   * program: the messages it hands to the logger under the statement's
   * context, in order, and the error the statement ends with, if any.
   */
  datatype Execution = Execution(messages: seq<string>, err: Option<string>)

  /** The prefix the driver puts in front of a server error. */
  const DriverPrefix := "mssql: "
  /** tSQLt raises an error carrying the summary when a test does not pass. */
  const SummaryMention := "Test Case Summary"

  /** The error text with the driver's prefix cut off (`strings.Cut` at a prefix). */
  function StripDriverPrefix(msg: string): (r: string)
    ensures IsPrefix(DriverPrefix, msg) ==> msg == DriverPrefix + r
    ensures !IsPrefix(DriverPrefix, msg) ==> r == msg
  {
    if IsPrefix(DriverPrefix, msg) then msg[|DriverPrefix|..] else msg
  }

  /** The lines and the error `runTest` returns. */
  datatype Ran = Ran(results: seq<string>, err: Option<string>)

  /**
   * `runTest`, given whether the logger had a bucket for the test before and
   * what the statement did: the captured lines, an error when nothing was ever
   * captured for the test, and an error that mentions the summary turned into
   * the last line.
   */
  function RunOutcome(present: bool, identity: string, exec: Execution): Ran {
    var captured := Captured(exec.messages);
    var err := if present || captured != [] then exec.err else Some("No results for test: " + identity);
    if err.Some? && Contains(err.value, SummaryMention) then Ran(captured + [StripDriverPrefix(err.value)], None)
    else Ran(captured, err)
  }

  /**
   * Stands for the statement itself: the driver hands each of the
   * statement's messages to `Log` under the statement's context.
   */
  method Deliver(logger: Logger, ctx: Context, msgs: seq<string>)
    modifies logger
    ensures logger.results == RecordAll(old(logger.results), ctx, msgs)
  {
    var i := 0;
    while i < |msgs|
      invariant 0 <= i <= |msgs|
      invariant logger.results == RecordAll(old(logger.results), ctx, msgs[..i])
    {
      assert msgs[..i + 1][..i] == msgs[..i];
      logger.Log(ctx, msgs[i]);
      i := i + 1;
    }
    assert msgs[..i] == msgs;
  }

  /** main.go:213-242 */
  method RunTest(logger: Logger, test: Test, exec: Execution) returns (results: seq<string>, err: Option<string>)
    modifies logger
    ensures Ran(results, err) == RunOutcome(test.Identity() in old(logger.results), test.Identity(), exec)
    ensures var id := test.Identity();
      && Bucket(logger.results, id) == Captured(exec.messages)
      && (id in logger.results <==> id in old(logger.results) || Captured(exec.messages) != [])
      && forall other :: other != id ==>
        (other in logger.results <==> other in old(logger.results))
        && Bucket(logger.results, other) == Bucket(old(logger.results), other)
  {
    var id := test.Identity();
    var _, _ := logger.ClearResults(test);
    ghost var cleared := logger.results;
    Deliver(logger, Context(Some(id)), exec.messages);
    RecordAllEffect(cleared, id, exec.messages);
    var ok;
    results, ok := logger.GetResults(test).0, logger.GetResults(test).1;
    err := exec.err;
    if !ok {
      err := Some("No results for test: " + id);
    }
    if err.Some? {
      var msg := err.value;
      if Contains(msg, SummaryMention) {
        if IsPrefix(DriverPrefix, msg) {
          msg := msg[|DriverPrefix|..];
        }
        results := results + [msg];
        err := None;
      }
    }
  }

  // ---------------------------------------------------------------------
  // Settling a test (main.go:244-264)

  /**
   * The status and lines a test ends with: an error from the run makes it
   * `Error` with the run's lines; otherwise the classifier decides, and an
   * error from the classifier makes it `Error` with the message on top.
   */
  function Settle(present: bool, suite: string, name: string, exec: Execution): (Status, seq<string>) {
    var ran := RunOutcome(present, DisplayName(suite, name), exec);
    if ran.err.Some? then (Error, ran.results)
    else
      var v := Classify(suite, name, ran.results);
      if v.err.Some? then (Error, [v.err.value] + v.results) else (v.status, v.results)
  }

  /** The body of the loop of main.go:244-264 for one test taken off the queue. */
  method ProcessTest(logger: Logger, test: Test, exec: Execution)
    modifies logger, test
    ensures (test.status, test.results) == Settle(test.Identity() in old(logger.results), test.suite, test.name, exec)
    ensures var id := test.Identity();
      && Bucket(logger.results, id) == Captured(exec.messages)
      && (id in logger.results <==> id in old(logger.results) || Captured(exec.messages) != [])
      && forall other :: other != id ==>
        (other in logger.results <==> other in old(logger.results))
        && Bucket(logger.results, other) == Bucket(old(logger.results), other)
  {
    var err;
    test.results, err := RunTest(logger, test, exec);
    if err.Some? {
      test.status := Error;
      return;
    }
    var st, perr := test.ProcessResults();
    test.status := st;
    if perr.Some? {
      test.status := Error;
      test.results := [perr.value] + test.results;
    }
  }

  /**
   * A processed test is finished: never pending or running, and never
   * `Unknown`, since the classifier reports that verdict with an error.
   */
  lemma SettleFinished(present: bool, suite: string, name: string, exec: Execution)
    ensures Settle(present, suite, name, exec).0 !in {Initial, Running, Unknown}
  {
    var ran := RunOutcome(present, DisplayName(suite, name), exec);
    ClassifyShape(suite, name, ran.results);
  }

  /**
   * A test that did not end in `Error` keeps what was captured, or the part
   * of it before the execution summary; an `Error` from the classifier puts
   * the reason first.
   */
  lemma SettleKeeps(present: bool, suite: string, name: string, exec: Execution)
    ensures var ran := RunOutcome(present, DisplayName(suite, name), exec);
      var (st, results) := Settle(present, suite, name, exec);
      && (st != Error ==> ran.err.None? && results <= ran.results)
      && (ran.err.None? && Classify(suite, name, ran.results).err.Some? ==>
            st == Error && results == [Classify(suite, name, ran.results).err.value] + ran.results)
  {
    var ran := RunOutcome(present, DisplayName(suite, name), exec);
    ClassifyShape(suite, name, ran.results);
  }

  /**
   * tSQLt ends a test that does not pass with an error whose message is the
   * summary line; the driver prefixes it with `mssql: `. `runTest` turns that
   * error into the last line, with the prefix cut off, provided the test
   * has a bucket: a test for which nothing was ever captured gets the "No
   * results" error instead, whatever the statement said.
   */
  lemma SummaryErrorBecomesLine(present: bool, identity: string, msgs: seq<string>, c: Summary)
    requires present || Captured(msgs) != []
    ensures RunOutcome(present, identity, Execution(msgs, Some(DriverPrefix + SummaryText(c))))
      == Ran(Captured(msgs) + [SummaryText(c)], None)
  {
    var text := SummaryText(c);
    var msg := DriverPrefix + text;
    SummaryTextAppend(c, "");
    assert text[..|SummaryMention|] == SummaryMention;
    assert msg[|DriverPrefix|..] == text;
    assert msg[|DriverPrefix|..|DriverPrefix| + |SummaryMention|] == text[..|SummaryMention|];
    ContainsAt(msg, SummaryMention, |DriverPrefix|);
    assert msg[..|DriverPrefix|] == DriverPrefix;
    assert StripDriverPrefix(msg) == text;
  }

  /** Without a bucket and without captured lines, the statement's error is replaced. */
  lemma NothingCapturedIsNoResults(identity: string, exec: Execution)
    requires Captured(exec.messages) == [] && !Contains(identity, SummaryMention)
    ensures RunOutcome(false, identity, exec) == Ran([], Some("No results for test: " + identity))
  {
    assert 'T' !in "No results for test: ";
    ContainsAfter("No results for test: ", identity, SummaryMention);
  }

  /** So the counters of that summary decide the verdict of a single case. */
  lemma SummaryFromError(present: bool, suite: string, name: string, msgs: seq<string>, c: Summary)
    requires name != "" && WellFormed(c)
    requires present || Captured(msgs) != []
    ensures var v := Ladder(c, Captured(msgs) + [SummaryText(c)]);
      Settle(present, suite, name, Execution(msgs, Some(DriverPrefix + SummaryText(c))))
        == if v.err.Some? then (Error, [v.err.value] + v.results) else (v.status, v.results)
  {
    var lines := Captured(msgs) + [SummaryText(c)];
    SummaryErrorBecomesLine(present, DisplayName(suite, name), msgs, c);
    assert lines[|lines| - 1] == SummaryText(c) + "";
    CaseVerdict(suite, name, lines, |lines| - 1, c, "");
  }
}
