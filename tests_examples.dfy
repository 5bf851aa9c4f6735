/**
 * The cases of tests/tests_test.go, stated as lemmas about the classifier.
 * The free-form lines tSQLt prints and the rows of its result table are left
 * as parameters, constrained only by what the classifier looks at; the
 * summary line is the one tSQLt prints for the counters of each case.
 */
module ClassifierExamples {
  import opened Wrappers
  import opened Text
  import opened Tests

  lemma DisplayNameExamples()
    ensures DisplayName("Suite", "MyTest") == "Suite.MyTest"
    ensures DisplayName("Suite", "") == "Suite"
  {
  }

  lemma NoResultsIsError()
    ensures Classify("Suite", "MyTest", []) == Verdict(Error, [], Some("no results for test: Suite.MyTest"))
    ensures Classify("Suite", "", []) == Verdict(Error, [], Some("no results for suite: Suite"))
  {
    DisplayNameExamples();
    assert "no results for test: " + "Suite.MyTest" == "no results for test: Suite.MyTest";
    assert "no results for suite: " + "Suite" == "no results for suite: Suite";
  }

  /** The execution summary marker is the first marker line after the output. */
  lemma {:induction false} OutputBeforeMarker(output: seq<string>, rest: seq<string>)
    requires forall l :: l in output ==> !Contains(l, ExecutionSummaryMarker)
    ensures LinesBefore(output + [ExecutionSummaryMarker] + rest, ExecutionSummaryMarker) == output
  {
    var lines := output + [ExecutionSummaryMarker] + rest;
    assert lines[|output|] == ExecutionSummaryMarker;
    assert lines[|output|][..|ExecutionSummaryMarker|] == ExecutionSummaryMarker;
    forall j | 0 <= j < |output| ensures !Contains(lines[j], ExecutionSummaryMarker) {
      assert lines[j] == output[j] && output[j] in output;
    }
    LinesBeforeUnique(lines, ExecutionSummaryMarker, output);
  }

  /** Single-case mode: the summary `c` on the last line decides. */
  lemma LastLineDecides(suite: string, name: string, lines: seq<string>, c: Summary)
    requires name != "" && WellFormed(c)
    requires |lines| > 0 && lines[|lines| - 1] == SummaryText(c)
    ensures Classify(suite, name, lines) == Ladder(c, lines)
  {
    assert lines[|lines| - 1] == SummaryText(c) + "";
    CaseVerdict(suite, name, lines, |lines| - 1, c, "");
  }

  /** A failing case keeps the failure message printed before the summary table. */
  lemma FailingCase(suite: string, name: string, output: seq<string>, table: seq<string>)
    requires name != ""
    requires forall l :: l in output ==> !Contains(l, ExecutionSummaryMarker)
    ensures Classify(suite, name,
      output + [ExecutionSummaryMarker] + table + [SummaryText(Summary("1", "0", "0", "1", "0"))])
      == Verdict(Fail, output, None)
  {
    var c := Summary("1", "0", "0", "1", "0");
    var lines := output + [ExecutionSummaryMarker] + table + [SummaryText(c)];
    LastLineDecides(suite, name, lines, c);
    assert lines == output + [ExecutionSummaryMarker] + (table + [SummaryText(c)]);
    OutputBeforeMarker(output, table + [SummaryText(c)]);
  }

  /** An erroring case keeps the error message printed before the summary table. */
  lemma ErroringCase(suite: string, name: string, output: seq<string>, table: seq<string>)
    requires name != ""
    requires forall l :: l in output ==> !Contains(l, ExecutionSummaryMarker)
    ensures Classify(suite, name,
      output + [ExecutionSummaryMarker] + table + [SummaryText(Summary("1", "0", "0", "0", "1"))])
      == Verdict(Error, output, None)
  {
    var c := Summary("1", "0", "0", "0", "1");
    var lines := output + [ExecutionSummaryMarker] + table + [SummaryText(c)];
    LastLineDecides(suite, name, lines, c);
    assert lines == output + [ExecutionSummaryMarker] + (table + [SummaryText(c)]);
    OutputBeforeMarker(output, table + [SummaryText(c)]);
  }

  /** A passing case keeps everything it captured. */
  lemma PassingCase(suite: string, name: string, table: seq<string>)
    requires name != ""
    ensures var lines := [ExecutionSummaryMarker] + table + [SummaryText(Summary("1", "1", "0", "0", "0"))];
      Classify(suite, name, lines) == Verdict(Pass, lines, None)
  {
    var c := Summary("1", "1", "0", "0", "0");
    LastLineDecides(suite, name, [ExecutionSummaryMarker] + table + [SummaryText(c)], c);
  }

  /** A test name the suite does not have runs nothing and is reported missing. */
  lemma MissingCase(suite: string, name: string, table: seq<string>)
    requires name != ""
    ensures var lines := [ExecutionSummaryMarker] + table + [SummaryText(Summary("0", "0", "0", "0", "0"))];
      Classify(suite, name, lines) == Verdict(Missing, lines, None)
  {
    var c := Summary("0", "0", "0", "0", "0");
    LastLineDecides(suite, name, [ExecutionSummaryMarker] + table + [SummaryText(c)], c);
  }

  /**
   * Counters that match no rung of the ladder (here one success and one
   * failure) give `Unknown` with an error naming the summary.
   */
  lemma MixedCase(suite: string, name: string, lines: seq<string>)
    requires name != "" && |lines| > 0
    requires lines[|lines| - 1] == SummaryText(Summary("2", "1", "0", "1", "0"))
    ensures Classify(suite, name, lines)
      == Verdict(Unknown, lines, Some("Unknown result: " + SummaryText(Summary("2", "1", "0", "1", "0"))))
  {
    LastLineDecides(suite, name, lines, Summary("2", "1", "0", "1", "0"));
  }

  /** A failing suite keeps what was printed before the summary table. */
  lemma FailingSuite(suite: string, output: seq<string>, table: seq<string>)
    requires |output| > 0
    requires forall l :: l in output ==> !Contains(l, ExecutionSummaryMarker)
    ensures Classify(suite, "", output + [ExecutionSummaryMarker] + table) == Verdict(Fail, output, None)
  {
    OutputBeforeMarker(output, table);
  }

  /** A suite whose output opens with the summary table passes and keeps everything. */
  lemma PassingSuite(suite: string, table: seq<string>)
    ensures Classify(suite, "", [ExecutionSummaryMarker] + table)
      == Verdict(Pass, [ExecutionSummaryMarker] + table, None)
  {
    OutputBeforeMarker([], table);
    assert [] + [ExecutionSummaryMarker] + table == [ExecutionSummaryMarker] + table;
  }
}
