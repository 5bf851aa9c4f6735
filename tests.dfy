/**
 * The outcome model and the outcome classifier of tests/tests.go: a test's
 * identity, its status, and the decision that turns the diagnostic lines
 * captured while it ran into a status and the lines worth keeping.
 */
module Tests {
  import opened Wrappers
  import opened Text

  /** The states of a test; `Initial` is Go's zero value. */
  datatype Status = Initial | Running | Error | Pass | Fail | Missing | Unknown

  /** `Status.String`: the label shown in the status column. */
  function Label(s: Status): string {
    match s
    case Initial => "PENDING"
    case Running => "RUNNING"
    case Error => "ERROR"
    case Pass => "PASS"
    case Fail => "FAIL"
    case Missing => "MISSING"
    case Unknown => "Unknown"
  }

  /** No two statuses share a label, so the list column identifies the status. */
  lemma LabelsDistinct(a: Status, b: Status)
    ensures Label(a) == Label(b) <==> a == b
  {
  }

  /**
   * `Test.String`: the suite alone when the test names a whole suite,
   * otherwise `suite.name`. It is also the key of the test's capture bucket.
   */
  function DisplayName(suite: string, name: string): string {
    if name == "" then suite else suite + "." + name
  }

  /** For dot-free parts, the identity splits on `.` back into its parts. */
  lemma SplitDisplayName(suite: string, name: string)
    requires '.' !in suite && '.' !in name
    ensures Split(DisplayName(suite, name), '.') == if name == "" then [suite] else [suite, name]
  {
    if name == "" {
      SplitJoin([suite], '.');
    } else {
      SplitJoin([suite, name], '.');
      assert Join([suite, name], ".") == suite + "." + name;
    }
  }

  /** Tests whose parts hold no `.` never share an identity, hence never a bucket. */
  lemma DisplayNameInjective(s1: string, n1: string, s2: string, n2: string)
    requires '.' !in s1 && '.' !in n1 && '.' !in s2 && '.' !in n2
    requires DisplayName(s1, n1) == DisplayName(s2, n2)
    ensures s1 == s2 && n1 == n2
  {
    SplitDisplayName(s1, n1);
    SplitDisplayName(s2, n2);
  }

  // ---------------------------------------------------------------------
  // The single-case summary line

  /** Opens the table that tSQLt prints after the free-form output. */
  const ExecutionSummaryMarker := "|Test Execution Summary|"
  /** Starts the line with the five counters. */
  const CaseSummaryMarker := "Test Case Summary:"

  /** The five counters of a summary line, kept as the digit strings they are. */
  datatype Summary = Summary(total: string, succeeded: string, skipped: string, failed: string, errored: string)

  predicate IsDigit(ch: char) {
    '0' <= ch <= '9'
  }

  /** What the regular expression's `\d+` matches. */
  predicate IsNumeral(s: string) {
    |s| > 0 && forall k :: 0 <= k < |s| ==> IsDigit(s[k])
  }

  predicate WellFormed(c: Summary) {
    IsNumeral(c.total) && IsNumeral(c.succeeded) && IsNumeral(c.skipped)
    && IsNumeral(c.failed) && IsNumeral(c.errored)
  }

  /** The text the pattern of tests/tests.go:118 matches for counters `c`. */
  function SummaryText(c: Summary): string {
    "Test Case Summary: " + c.total + " test case(s) executed, " + c.succeeded + " succeeded, "
    + c.skipped + " skipped, " + c.failed + " failed, " + c.errored + " errored."
  }

  /** Length of the run of digits that starts `s`. */
  function DigitRun(s: string): (n: nat)
    ensures n <= |s|
    ensures forall k :: 0 <= k < n ==> IsDigit(s[k])
    ensures n < |s| ==> !IsDigit(s[n])
    decreases |s|
  {
    if |s| > 0 && IsDigit(s[0]) then 1 + DigitRun(s[1..]) else 0
  }

  function Literal(lit: string, s: string): Option<string> {
    if IsPrefix(lit, s) then Some(s[|lit|..]) else None
  }

  /**
   * `(\d+)` followed by the fixed text `after`: the digits and what follows
   * that text. Every such text starts with a space, so the greedy `\d+` of
   * the pattern can only take the whole run of digits.
   */
  function Field(after: string, s: string): Option<(string, string)> {
    var n := DigitRun(s);
    if n == 0 then None
    else
      var rest :- Literal(after, s[n..]);
      Some((s[..n], rest))
  }

  /**
   * The match of
   * `^Test Case Summary: (\d+) test case\(s\) executed, (\d+) succeeded, (\d+) skipped, (\d+) failed, (\d+) errored\.`
   * against `line`: the five captured groups, or `None` when it does not match.
   */
  function ParseSummary(line: string): Option<Summary> {
    var r :- Literal("Test Case Summary: ", line);
    var t :- Field(" test case(s) executed, ", r);
    var s :- Field(" succeeded, ", t.1);
    var k :- Field(" skipped, ", s.1);
    var f :- Field(" failed, ", k.1);
    var e :- Field(" errored.", f.1);
    Some(Summary(t.0, s.0, k.0, f.0, e.0))
  }

  lemma FieldOf(d: string, after: string, rest: string)
    requires IsNumeral(d) && |after| > 0 && after[0] == ' '
    ensures Field(after, d + (after + rest)) == Some((d, rest))
  {
    var s := d + (after + rest);
    assert s[..|d|] == d;
    assert s[|d|..] == after + rest;
    assert DigitRun(s) == |d| by {
      assert !IsDigit(s[|d|]);
    }
  }

  lemma FieldSound(after: string, s: string)
    requires Field(after, s).Some?
    ensures IsNumeral(Field(after, s).value.0)
    ensures s == Field(after, s).value.0 + (after + Field(after, s).value.1)
  {
    var n := DigitRun(s);
    assert s[n..] == after + s[n..][|after|..];
  }

  /** The summary text followed by more text, nested the way the parser reads it. */
  lemma SummaryTextAppend(c: Summary, tail: string)
    ensures SummaryText(c) + tail ==
      "Test Case Summary: " + (c.total
      + (" test case(s) executed, " + (c.succeeded
      + (" succeeded, " + (c.skipped
      + (" skipped, " + (c.failed
      + (" failed, " + (c.errored
      + (" errored." + tail))))))))))
  {
  }

  /** Every well-formed summary line is recognised, with its own counters, whatever follows it. */
  lemma ParseSummaryText(c: Summary, tail: string)
    requires WellFormed(c)
    ensures ParseSummary(SummaryText(c) + tail) == Some(c)
  {
    var r4 := " errored." + tail;
    var r3 := " failed, " + (c.errored + r4);
    var r2 := " skipped, " + (c.failed + r3);
    var r1 := " succeeded, " + (c.skipped + r2);
    var r0 := " test case(s) executed, " + (c.succeeded + r1);
    var line := "Test Case Summary: " + (c.total + r0);
    SummaryTextAppend(c, tail);
    assert Literal("Test Case Summary: ", line) == Some(c.total + r0) by {
      assert line[..19] == "Test Case Summary: ";
      assert line[19..] == c.total + r0;
    }
    FieldOf(c.total, " test case(s) executed, ", c.succeeded + r1);
    FieldOf(c.succeeded, " succeeded, ", c.skipped + r2);
    FieldOf(c.skipped, " skipped, ", c.failed + r3);
    FieldOf(c.failed, " failed, ", c.errored + r4);
    FieldOf(c.errored, " errored.", tail);
  }

  /** Conversely, a recognised line starts with the summary text of its counters. */
  lemma ParseSummarySound(line: string)
    requires ParseSummary(line).Some?
    ensures WellFormed(ParseSummary(line).value)
    ensures IsPrefix(SummaryText(ParseSummary(line).value), line)
  {
    var r := Literal("Test Case Summary: ", line).value;
    assert line == "Test Case Summary: " + r;
    var t := Field(" test case(s) executed, ", r).value;
    FieldSound(" test case(s) executed, ", r);
    var s := Field(" succeeded, ", t.1).value;
    FieldSound(" succeeded, ", t.1);
    var k := Field(" skipped, ", s.1).value;
    FieldSound(" skipped, ", s.1);
    var f := Field(" failed, ", k.1).value;
    FieldSound(" failed, ", k.1);
    var e := Field(" errored.", f.1).value;
    FieldSound(" errored.", f.1);
    var c := Summary(t.0, s.0, k.0, f.0, e.0);
    assert ParseSummary(line) == Some(c);
    SummaryTextAppend(c, e.1);
    assert line == SummaryText(c) + e.1;
    assert line[..|SummaryText(c)|] == SummaryText(c);
  }

  // ---------------------------------------------------------------------
  // Scanning the captured lines

  /** Index of the first line containing `marker`, or the number of lines. */
  function FirstContaining(lines: seq<string>, marker: string): (k: nat)
    ensures k <= |lines|
    ensures forall j :: 0 <= j < k ==> !Contains(lines[j], marker)
    ensures k < |lines| ==> Contains(lines[k], marker)
    decreases |lines|
  {
    if |lines| == 0 then 0
    else if Contains(lines[0], marker) then 0
    else 1 + FirstContaining(lines[1..], marker)
  }

  /** The lines before the first one containing `marker` (all of them if none does). */
  function LinesBefore(lines: seq<string>, marker: string): seq<string> {
    lines[..FirstContaining(lines, marker)]
  }

  /**
   * `LinesBefore` is exactly the prefix of `lines` that has no marker line and
   * stops at the end or at a marker line.
   */
  lemma LinesBeforeUnique(lines: seq<string>, marker: string, p: seq<string>)
    ensures p == LinesBefore(lines, marker) <==>
      && p <= lines
      && (forall j :: 0 <= j < |p| ==> !Contains(p[j], marker))
      && (|p| == |lines| || Contains(lines[|p|], marker))
  {
  }

  /** Index of the last line containing `marker`, if any. */
  function LastContaining(lines: seq<string>, marker: string): (k: Option<nat>)
    ensures k.Some? ==> k.value < |lines| && Contains(lines[k.value], marker)
    ensures k.Some? ==> forall j :: k.value < j < |lines| ==> !Contains(lines[j], marker)
    ensures k.None? ==> forall j :: 0 <= j < |lines| ==> !Contains(lines[j], marker)
    decreases |lines|
  {
    if |lines| == 0 then None
    else if Contains(lines[|lines| - 1], marker) then Some(|lines| - 1)
    else LastContaining(lines[..|lines| - 1], marker)
  }

  /** The loop of tests/tests.go:71-77, also at 95-101. */
  method CollectBefore(lines: seq<string>, marker: string) returns (before: seq<string>)
    ensures before == LinesBefore(lines, marker)
  {
    before := [];
    var i := 0;
    while i < |lines|
      invariant 0 <= i <= |lines|
      invariant before == lines[..i]
      invariant forall j :: 0 <= j < i ==> !Contains(lines[j], marker)
    {
      if Contains(lines[i], marker) {
        break;
      }
      before := before + [lines[i]];
      i := i + 1;
    }
    LinesBeforeUnique(lines, marker, before);
  }

  /** The loop of tests/tests.go:107-112: remembers the last matching line. */
  method FindLast(lines: seq<string>, marker: string) returns (k: Option<nat>)
    ensures k == LastContaining(lines, marker)
  {
    k := None;
    for i := 0 to |lines|
      invariant k == LastContaining(lines[..i], marker)
    {
      assert lines[..i + 1][..i] == lines[..i];
      if Contains(lines[i], marker) {
        k := Some(i);
      }
    }
    assert lines[..|lines|] == lines;
  }

  // ---------------------------------------------------------------------
  // The classifier

  /** What `ProcessResults` decides: the status, the lines kept on the test and the error. */
  datatype Verdict = Verdict(status: Status, results: seq<string>, err: Option<string>)

  /** `processSuiteResults` */
  function ClassifySuite(identity: string, lines: seq<string>): Verdict {
    if |lines| == 0 then Verdict(Error, lines, Some("no results for suite: " + identity))
    else
      var before := LinesBefore(lines, ExecutionSummaryMarker);
      if |before| > 0 then Verdict(Fail, before, None) else Verdict(Pass, lines, None)
  }

  /** The decision ladder of tests/tests.go:130-146: string comparisons, first match wins. */
  function Ladder(c: Summary, lines: seq<string>): Verdict {
    var output := LinesBefore(lines, ExecutionSummaryMarker);
    if c.total == "0" then Verdict(Missing, lines, None)
    else if c.total == c.succeeded then Verdict(Pass, lines, None)
    else if c.total == c.skipped then Verdict(Missing, output, None)
    else if c.total == c.failed then Verdict(Fail, output, None)
    else if c.total == c.errored then Verdict(Error, output, None)
    else Verdict(Unknown, lines, Some("Unknown result: " + SummaryText(c)))
  }

  /** `processTestResults` */
  function ClassifyCase(identity: string, lines: seq<string>): Verdict {
    if |lines| == 0 then Verdict(Error, lines, Some("no results for test: " + identity))
    else match LastContaining(lines, CaseSummaryMarker)
      case None => Verdict(Error, lines, Some("Failed to find summary line: " + CaseSummaryMarker))
      case Some(k) =>
        match ParseSummary(lines[k])
        case None => Verdict(Error, lines, Some("Failed to parse summary: " + lines[k]))
        case Some(c) => Ladder(c, lines)
  }

  /** `ProcessResults`: suite mode when the name is empty, single-case mode otherwise. */
  function Classify(suite: string, name: string, lines: seq<string>): Verdict {
    if name == "" then ClassifySuite(DisplayName(suite, name), lines)
    else ClassifyCase(DisplayName(suite, name), lines)
  }

  /** With nothing captured the verdict is `Error` with an error, in both modes. */
  lemma ClassifyEmpty(suite: string, name: string)
    ensures Classify(suite, name, []).status == Error
    ensures Classify(suite, name, []).err.Some?
  {
  }

  /**
   * The classifier ends in a finished state, keeps the lines or trims them to
   * those before the execution summary, and reports an error exactly for the
   * verdicts that are not a plain outcome.
   */
  lemma ClassifyShape(suite: string, name: string, lines: seq<string>)
    ensures var v := Classify(suite, name, lines);
      && v.status != Initial && v.status != Running
      && (v.results == lines || v.results == LinesBefore(lines, ExecutionSummaryMarker))
      && v.results <= lines
      && (v.status == Unknown ==> v.err.Some?)
      && (v.err.Some? ==> v.results == lines)
      && (v.err.Some? ==> v.status in {Unknown, Error})
  {
    if name != "" && |lines| > 0 {
      match LastContaining(lines, CaseSummaryMarker)
      case None =>
      case Some(k) =>
        match ParseSummary(lines[k])
        case None =>
        case Some(c) =>
          LadderShape(c, lines);
    }
  }

  lemma LadderShape(c: Summary, lines: seq<string>)
    ensures var v := Ladder(c, lines);
      && v.status != Initial && v.status != Running
      && (v.results == lines || v.results == LinesBefore(lines, ExecutionSummaryMarker))
      && (v.status == Unknown ==> v.err.Some?)
      && (v.err.Some? ==> v.results == lines)
      && (v.err.Some? ==> v.status == Unknown)
  {
  }

  /**
   * Suite mode: a captured suite fails exactly when something was printed
   * before the execution summary, and then keeps exactly those lines.
   */
  lemma SuiteVerdict(suite: string, lines: seq<string>)
    requires |lines| > 0
    ensures Classify(suite, "", lines).status == Fail <==> !Contains(lines[0], ExecutionSummaryMarker)
    ensures Classify(suite, "", lines).status in {Pass, Fail}
    ensures Classify(suite, "", lines).err.None?
    ensures Classify(suite, "", lines).status == Fail ==> Classify(suite, "", lines).results == LinesBefore(lines, ExecutionSummaryMarker)
    ensures Classify(suite, "", lines).status == Pass ==> Classify(suite, "", lines).results == lines
  {
    if !Contains(lines[0], ExecutionSummaryMarker) {
      assert FirstContaining(lines, ExecutionSummaryMarker) > 0;
    }
  }

  /**
   * Single-case mode: when line `k` is a well-formed summary and no later
   * line carries the summary marker, the counters of line `k` decide.
   */
  lemma CaseVerdict(suite: string, name: string, lines: seq<string>, k: nat, c: Summary, tail: string)
    requires name != "" && k < |lines| && WellFormed(c)
    requires lines[k] == SummaryText(c) + tail
    requires forall j :: k < j < |lines| ==> !Contains(lines[j], CaseSummaryMarker)
    ensures Classify(suite, name, lines) == Ladder(c, lines)
  {
    assert lines[k][..|CaseSummaryMarker|] == CaseSummaryMarker;
    assert Contains(lines[k], CaseSummaryMarker);
    var last := LastContaining(lines, CaseSummaryMarker);
    assert last == Some(k);
    ParseSummaryText(c, tail);
  }

  /** A total of `0` is `Missing` whatever the other counters say, and keeps every line. */
  lemma ZeroTotalIsMissing(suite: string, name: string, lines: seq<string>, k: nat, c: Summary, tail: string)
    requires name != "" && k < |lines| && WellFormed(c) && c.total == "0"
    requires lines[k] == SummaryText(c) + tail
    requires forall j :: k < j < |lines| ==> !Contains(lines[j], CaseSummaryMarker)
    ensures Classify(suite, name, lines) == Verdict(Missing, lines, None)
  {
    CaseVerdict(suite, name, lines, k, c, tail);
  }

  /**
   * The ladder as a first-match decision over the counters: each verdict
   * holds exactly when its rung is the first whose comparison succeeds. The
   * first two rungs keep every line, the next three keep the output before
   * the execution summary, and only the fall-through reports an error.
   */
  lemma LadderRungs(c: Summary, lines: seq<string>)
    ensures var v := Ladder(c, lines);
      var zero, ok, skip, fail, err :=
        c.total == "0", c.total == c.succeeded, c.total == c.skipped, c.total == c.failed, c.total == c.errored;
      && (v.status == Pass <==> !zero && ok)
      && (v.status == Missing <==> zero || (!ok && skip))
      && (v.status == Fail <==> !zero && !ok && !skip && fail)
      && (v.status == Error <==> !zero && !ok && !skip && !fail && err)
      && (v.status == Unknown <==> !zero && !ok && !skip && !fail && !err)
      && (zero || ok ==> v.results == lines && v.err.None?)
      && (!zero && !ok && (skip || fail || err) ==>
            v.results == LinesBefore(lines, ExecutionSummaryMarker) && v.err.None?)
      && (v.err.Some? <==> v.status == Unknown)
  {
  }

  /**
   * Single-case mode without a usable summary: no line carries the summary
   * marker, or the last one that does is not a summary line. Either way the
   * verdict is `Error` with an error and every line is kept.
   */
  lemma CaseWithoutSummary(suite: string, name: string, lines: seq<string>)
    requires name != "" && |lines| > 0
    requires (forall j :: 0 <= j < |lines| ==> !Contains(lines[j], CaseSummaryMarker))
      || (exists k :: 0 <= k < |lines| && Contains(lines[k], CaseSummaryMarker) && ParseSummary(lines[k]).None?
            && forall j :: k < j < |lines| ==> !Contains(lines[j], CaseSummaryMarker))
    ensures Classify(suite, name, lines).status == Error
    ensures Classify(suite, name, lines).err.Some?
    ensures Classify(suite, name, lines).results == lines
  {
    var last := LastContaining(lines, CaseSummaryMarker);
    if last.Some? {
      var k :| 0 <= k < |lines| && Contains(lines[k], CaseSummaryMarker) && ParseSummary(lines[k]).None?
            && forall j :: k < j < |lines| ==> !Contains(lines[j], CaseSummaryMarker);
      assert last.value == k;
    }
  }

  // ---------------------------------------------------------------------
  // The test entity

  /**
   * A test of the list. The list, the execution queue and the detail view all
   * refer to the same test, and the queue updates its status and results in
   * place, so it is an object. Its identity never changes.
   */
  class Test {
    const suite: string
    const name: string
    var status: Status
    var results: seq<string>

    constructor (suite: string, name: string)
      ensures this.suite == suite && this.name == name
      ensures status == Initial && results == []
    {
      this.suite := suite;
      this.name := name;
      status := Initial;
      results := [];
    }

    function Identity(): string {
      DisplayName(suite, name)
    }

    /**
     * `ProcessResults`: returns the verdict's status and error and reassigns
     * the results when the verdict trims them; the status field is the caller's.
     */
    method ProcessResults() returns (st: Status, err: Option<string>)
      modifies this`results
      ensures Verdict(st, results, err) == Classify(suite, name, old(results))
    {
      if name == "" {
        st, err := ProcessSuiteResults();
      } else {
        st, err := ProcessCaseResults();
      }
    }

    method ProcessSuiteResults() returns (st: Status, err: Option<string>)
      modifies this`results
      ensures Verdict(st, results, err) == ClassifySuite(Identity(), old(results))
    {
      if |results| == 0 {
        return Error, Some("no results for suite: " + Identity());
      }
      var errorResults := CollectBefore(results, ExecutionSummaryMarker);
      if |errorResults| > 0 {
        results := errorResults;
        return Fail, None;
      }
      return Pass, None;
    }

    method ProcessCaseResults() returns (st: Status, err: Option<string>)
      modifies this`results
      ensures Verdict(st, results, err) == ClassifyCase(Identity(), old(results))
    {
      if |results| == 0 {
        return Error, Some("no results for test: " + Identity());
      }
      var outputLines := CollectBefore(results, ExecutionSummaryMarker);
      var summaryEndLine := FindLast(results, CaseSummaryMarker);
      if summaryEndLine.None? {
        return Error, Some("Failed to find summary line: " + CaseSummaryMarker);
      }
      var line := results[summaryEndLine.value];
      var matches := ParseSummary(line);
      if matches.None? {
        return Error, Some("Failed to parse summary: " + line);
      }
      var c := matches.value;
      if c.total == "0" {
        return Missing, None;
      } else if c.total == c.succeeded {
        return Pass, None;
      } else if c.total == c.skipped {
        results := outputLines;
        return Missing, None;
      } else if c.total == c.failed {
        results := outputLines;
        return Fail, None;
      } else if c.total == c.errored {
        results := outputLines;
        return Error, None;
      }
      return Unknown, Some("Unknown result: " + SummaryText(c));
    }
  }
}
