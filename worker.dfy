/**
 * The worker of main.go:244-264, one iteration: the oldest queued test is
 * taken, run and settled, and the list is told that a status changed.
 */
module Worker {
  import opened Tests
  import opened DbUtil
  import opened Runner
  import opened Table

  /** One turn of `processTestQueue`: receive, run, settle, send "TestUpdated". */
  method ServeOne(m: Model, logger: Logger, exec: Execution) returns (t: Test, cmd: Cmd)
    requires m.Valid() && |m.queue| > 0
    modifies m, m.tests, logger, m.queue[0]
    ensures m.Valid()
    ensures t == old(m.queue)[0] && m.queue == old(m.queue)[1..]
    ensures m.mode == old(m.mode) && m.tests == old(m.tests)
    ensures (t.status, t.results) == Settle(t.Identity() in old(logger.results), t.suite, t.name, exec)
    ensures Bucket(logger.results, t.Identity()) == Captured(exec.messages)
    ensures old(m.mode) == TableMode ==>
      && m.updating && m.cursor == old(m.cursor)
      && (if old(m.updating) then cmd == NoCmd && m.rows == old(m.rows)
          else cmd == ScheduleTick && m.rows == RowsOf(m.tests))
    ensures forall u :: u in old(m.tests) && u != t ==> unchanged(u)
    ensures var id := t.Identity();
      && (id in logger.results <==> id in old(logger.results) || Captured(exec.messages) != [])
      && forall other :: other != id ==>
        (other in logger.results <==> other in old(logger.results))
        && Bucket(logger.results, other) == Bucket(old(logger.results), other)
    ensures old(m.mode) == TableMode ==> m.chosen == null && m.content == old(m.content)
    ensures old(m.mode) == ViewportMode ==>
      m.cursor == old(m.cursor) && m.updating == old(m.updating) && m.rows == old(m.rows)
    ensures old(m.mode) == ViewportMode ==>
      cmd == NoCmd && m.chosen == old(m.chosen) && m.content == Detail(m.tests[m.cursor])
  {
    t := m.Take();
    ProcessTest(logger, t, exec);
    cmd := m.Update(Note("TestUpdated"));
  }
}
