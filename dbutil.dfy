/**
 * The message sink of dbutil/dbutil.go. The SQL Server driver hands every
 * message the server prints (tSQLt's output among them) to `Logger.Log`,
 * together with the context of the statement that produced it; the logger
 * keeps the interesting ones, per test, under the test's display name.
 */
module DbUtil {
  import opened Wrappers
  import opened Text
  import opened Tests

  /**
   * The `context.Context` a message arrives with: none at all (a nil
   * context), or one that may carry a test name under the key "testname".
   */
  datatype Context = NoContext | Context(testname: Option<string>)

  /** The cut set of dbutil/dbutil.go:21. */
  const Noise: set<char> := {' ', '\t', '\r', '\n', '-'}

  /** The message with the noise around it trimmed away. */
  function Clean(msg: string): string {
    Trim(msg, Noise)
  }

  /** A message is kept when something is left after trimming and it does not start with `+`. */
  predicate Kept(msg: string) {
    Clean(msg) != "" && Clean(msg)[0] != '+'
  }

  /** A stored line: non-empty, no `+` in front, no noise at either end. */
  predicate CleanLine(l: string) {
    l != [] && l[0] != '+' && l[0] !in Noise && l[|l| - 1] !in Noise
  }

  /** What the logger stores for `test`; an absent key reads as no lines (Go's nil slice). */
  function Bucket(m: map<string, seq<string>>, test: string): seq<string> {
    if test in m then m[test] else []
  }

  /** Every stored line of every test is clean. */
  predicate AllClean(m: map<string, seq<string>>) {
    forall test, k :: test in m && 0 <= k < |m[test]| ==> CleanLine(m[test][k])
  }

  /** The effect of one `Log` call on the stored results (dbutil/dbutil.go:16-38). */
  function Record(m: map<string, seq<string>>, ctx: Context, msg: string): map<string, seq<string>> {
    if ctx.NoContext? || !Kept(msg) || ctx.testname.None? then m
    else m[ctx.testname.value := Bucket(m, ctx.testname.value) + [Clean(msg)]]
  }

  /** A kept message is clean once trimmed. */
  lemma KeptIsClean(msg: string)
    requires Kept(msg)
    ensures CleanLine(Clean(msg))
  {
    TrimShape(msg, Noise);
  }

  /**
   * `Log` appends the trimmed message to the bucket of the context's test
   * exactly when the context names a test and the message is kept, and
   * touches no other test.
   */
  lemma RecordEffect(m: map<string, seq<string>>, ctx: Context, msg: string)
    ensures ctx.Context? && ctx.testname.Some? && Kept(msg) ==>
      Record(m, ctx, msg) == m[ctx.testname.value := Bucket(m, ctx.testname.value) + [Clean(msg)]]
    ensures !(ctx.Context? && ctx.testname.Some? && Kept(msg)) ==> Record(m, ctx, msg) == m
    ensures forall test :: (ctx.NoContext? || ctx.testname != Some(test)) ==>
      Bucket(Record(m, ctx, msg), test) == Bucket(m, test) && (test in Record(m, ctx, msg) <==> test in m)
  {
  }

  /** Logging keeps every stored line clean. */
  lemma RecordKeepsClean(m: map<string, seq<string>>, ctx: Context, msg: string)
    requires AllClean(m)
    ensures AllClean(Record(m, ctx, msg))
  {
    if ctx.Context? && ctx.testname.Some? && Kept(msg) {
      KeptIsClean(msg);
    }
  }

  /** The messages of `msgs` the logger keeps, trimmed, in order. */
  function Captured(msgs: seq<string>): (r: seq<string>)
    ensures |r| <= |msgs|
    ensures forall k :: 0 <= k < |r| ==> CleanLine(r[k])
    decreases |msgs|
  {
    if |msgs| == 0 then []
    else
      var last := msgs[|msgs| - 1];
      if Kept(last) then (KeptIsClean(last); Captured(msgs[..|msgs| - 1]) + [Clean(last)])
      else Captured(msgs[..|msgs| - 1])
  }

  /** `Log` called with each message of `msgs` in turn, under one context. */
  function RecordAll(m: map<string, seq<string>>, ctx: Context, msgs: seq<string>): map<string, seq<string>>
    decreases |msgs|
  {
    if |msgs| == 0 then m
    else Record(RecordAll(m, ctx, msgs[..|msgs| - 1]), ctx, msgs[|msgs| - 1])
  }

  /**
   * Logging a whole statement's messages under a test's context appends the
   * captured ones to that test's bucket, creates the bucket only when
   * something is captured, and leaves every other test alone.
   */
  lemma {:induction false} RecordAllEffect(m: map<string, seq<string>>, test: string, msgs: seq<string>)
    ensures Bucket(RecordAll(m, Context(Some(test)), msgs), test) == Bucket(m, test) + Captured(msgs)
    ensures test in RecordAll(m, Context(Some(test)), msgs) <==> test in m || Captured(msgs) != []
    ensures forall other :: other != test ==>
      (other in RecordAll(m, Context(Some(test)), msgs) <==> other in m)
      && Bucket(RecordAll(m, Context(Some(test)), msgs), other) == Bucket(m, other)
    decreases |msgs|
  {
    if |msgs| > 0 {
      var ctx := Context(Some(test));
      var init, last := msgs[..|msgs| - 1], msgs[|msgs| - 1];
      var prev := RecordAll(m, ctx, init);
      RecordAllEffect(m, test, init);
      assert RecordAll(m, ctx, msgs) == Record(prev, ctx, last);
      assert Captured(msgs) == Captured(init) + (if Kept(last) then [Clean(last)] else []);
      RecordEffect(prev, ctx, last);
    }
  }

  /**
   * The results map of dbutil/dbutil.go:12-14. The driver calls `Log`
   * from whatever goroutine runs the statement; the map is shared with the
   * test runner, which clears and reads it around each statement.
   */
  class Logger {
    var results: map<string, seq<string>>

    /** The logger main.go:52 creates: no results yet. */
    constructor()
      ensures results == map[]
    {
      results := map[];
    }

    /** dbutil/dbutil.go:16-38 */
    method Log(ctx: Context, msg: string)
      modifies this
      ensures results == Record(old(results), ctx, msg)
      ensures AllClean(old(results)) ==> AllClean(results)
    {
      if AllClean(results) {
        RecordKeepsClean(results, ctx, msg);
      }
      if ctx.NoContext? {
        return;
      }
      var trimmed := Trim(msg, Noise);
      if trimmed == "" || trimmed[0] == '+' {
        return;
      }
      if ctx.testname.None? {
        return;
      }
      var test := ctx.testname.value;
      if test !in results {
        assert Bucket(results, test) + [trimmed] == [trimmed];
        results := results[test := [trimmed]];
        return;
      }
      results := results[test := results[test] + [trimmed]];
    }

    /**
     * dbutil/dbutil.go:40-44: the lines stored under the test's display
     * name, and whether the name is a key at all.
     */
    function GetResults(test: Test): (r: (seq<string>, bool))
      reads this
      ensures r.1 <==> test.Identity() in results
      ensures r.0 == Bucket(results, test.Identity())
    {
      var id := test.Identity();
      if id in results then (results[id], true) else ([], false)
    }

    /**
     * dbutil/dbutil.go:46-53: empties the test's bucket if it has one (the
     * key stays), and never creates one. The lines returned are always nil.
     */
    method ClearResults(test: Test) returns (cleared: seq<string>, ok: bool)
      modifies this
      ensures cleared == []
      ensures ok <==> test.Identity() in old(results)
      ensures results == if ok then old(results)[test.Identity() := []] else old(results)
      ensures AllClean(old(results)) ==> AllClean(results)
    {
      var id := test.Identity();
      cleared := [];
      ok := id in results;
      if ok {
        if AllClean(results) {
          ClearKeepsClean(results, id);
        }
        results := results[id := []];
      }
    }
  }

  /** Clearing keeps the stored lines clean. */
  lemma ClearKeepsClean(m: map<string, seq<string>>, test: string)
    requires AllClean(m) && test in m
    ensures AllClean(m[test := []])
  {
  }

  /**
   * Clearing a test and then logging a statement's messages for it leaves
   * exactly the captured messages: nothing from an earlier run survives.
   */
  lemma ClearThenRecord(m: map<string, seq<string>>, test: string, msgs: seq<string>)
    ensures var cleared := if test in m then m[test := []] else m;
      var after := RecordAll(cleared, Context(Some(test)), msgs);
      && Bucket(after, test) == Captured(msgs)
      && (test in after <==> test in m || Captured(msgs) != [])
  {
    var cleared := if test in m then m[test := []] else m;
    RecordAllEffect(cleared, test, msgs);
  }
}
