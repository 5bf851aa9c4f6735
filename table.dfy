/**
 * The interactive list of table/table.go: the tests with their statuses, the
 * queue the worker takes tests from, the detail view of one test, and the
 * messages that move the program between the two views.
 */
module Table {
  import opened Text
  import opened Tests

  /** Which widget has the keyboard. Nothing ever switches to the text area. */
  datatype Mode = TableMode | ViewportMode | TextareaMode

  /** The messages the program receives. */
  datatype Event =
    | Key(key: string)                     // a key press, named as `tea.KeyMsg.String()` names it
    | WindowSize(width: int, height: int)  // the terminal was resized
    | Tick                                 // the 200 ms timer fired
    | Note(text: string)                   // a plain string message, such as "Open" or "TestUpdated"

  /**
   * What an update asks the program to do next: nothing, fire `Tick` in
   * 200 ms, quit, or whatever the focused widget asked for. `Panic` stands
   * for an update that indexes an empty list and crashes the program.
   */
  datatype Cmd = NoCmd | ScheduleTick | Quit | Delegated | Panic

  /** The two cells of a row of the list. */
  datatype Row = Row(status: string, test: string)

  /** What `UpdateTable` does with a message (table/table.go:88-144). */
  datatype TableAction =
    | ChooseKey    // "enter" or space: open the detail view of the test under the cursor
    | RunKey       // "r": rerun the test under the cursor
    | RunAllKey    // "R": rerun every test
    | RemoveKey    // "d" or "x": drop the test under the cursor
    | TickFired    // the refresh timer fired
    | OpenNote     // the note "Open": the list view was (re)entered
    | UpdatedNote  // the note "TestUpdated": some status may have changed
    | ToTable      // anything else goes to the table widget

  function TableActionOf(ev: Event): TableAction {
    match ev
    case Key(k) =>
      if k == "enter" || k == " " then ChooseKey
      else if k == "r" then RunKey
      else if k == "R" then RunAllKey
      else if k == "d" || k == "x" then RemoveKey
      else ToTable
    case Tick => TickFired
    case Note(text) =>
      if text == "Open" then OpenNote else if text == "TestUpdated" then UpdatedNote else ToTable
    case WindowSize(_, _) => ToTable
  }

  /** What `UpdateViewport` does with a message (table/table.go:151-195). */
  datatype ViewAction =
    | CloseKey     // "esc" or "q": back to the list
    | RerunKey     // "r": rerun the test shown
    | NextKey      // "j" or "down": show the next test
    | PreviousKey  // "k" or "up": show the previous test
    | ShowNote     // the note "Open" or "TestUpdated": redraw the detail
    | ToViewport   // anything else goes to the viewport widget

  function ViewActionOf(ev: Event): ViewAction {
    match ev
    case Key(k) =>
      if k == "esc" || k == "q" then CloseKey
      else if k == "r" then RerunKey
      else if k == "j" || k == "down" then NextKey
      else if k == "k" || k == "up" then PreviousKey
      else ToViewport
    case Note(text) => if text == "Open" || text == "TestUpdated" then ShowNote else ToViewport
    case Tick => ToViewport
    case WindowSize(_, _) => ToViewport
  }

  /** The test a move in the detail view lands on: one step, but never off either end of the list. */
  function Neighbour(at: nat, n: nat, down: bool): nat {
    if down then (if at + 1 < n then at + 1 else at)
    else (if at > 0 then at - 1 else at)
  }

  /** table/table.go:43-45 */
  function TestToRow(t: Test): Row
    reads t
  {
    Row(Label(t.status), t.Identity())
  }

  /** One row per test, in list order. */
  function RowsOf(tests: seq<Test>): (rows: seq<Row>)
    reads tests
    ensures |rows| == |tests|
    decreases |tests|
  {
    if |tests| == 0 then [] else RowsOf(tests[..|tests| - 1]) + [TestToRow(tests[|tests| - 1])]
  }

  /** The `i`-th row is the `i`-th test's. */
  lemma {:induction false} RowsOfAt(tests: seq<Test>, i: nat)
    requires i < |tests|
    ensures RowsOf(tests)[i] == TestToRow(tests[i])
    decreases |tests|
  {
    if i < |tests| - 1 {
      RowsOfAt(tests[..|tests| - 1], i);
    }
  }

  /** The status column names each test's status, and no other. */
  lemma RowShowsStatus(tests: seq<Test>, i: nat, s: Status)
    requires i < |tests|
    ensures RowsOf(tests)[i].status == Label(s) <==> tests[i].status == s
    ensures RowsOf(tests)[i].test == DisplayName(tests[i].suite, tests[i].name)
  {
    RowsOfAt(tests, i);
    LabelsDistinct(tests[i].status, s);
  }

  /** table/table.go:47-53 */
  method BuildRows(tests: seq<Test>) returns (rows: seq<Row>)
    ensures rows == RowsOf(tests)
  {
    rows := [];
    var i := 0;
    while i < |tests|
      invariant 0 <= i <= |tests|
      invariant rows == RowsOf(tests[..i])
    {
      assert tests[..i + 1][..i] == tests[..i];
      rows := rows + [TestToRow(tests[i])];
      i := i + 1;
    }
    assert tests[..i] == tests;
  }

  /** What the detail view shows for a test (table/table.go:183-190). */
  function Detail(t: Test): string
    reads t
  {
    if t.status == Running then "Test running..." else Join(t.results, "\n")
  }

  /** No test sits in two places of the list: a Go slice of structs gives each its own storage. */
  predicate Distinct(tests: seq<Test>) {
    forall i, j :: 0 <= i < j < |tests| ==> tests[i] != tests[j]
  }

  /** The list without its `i`-th test, the others in their order. */
  function Without(tests: seq<Test>, i: nat): seq<Test>
    requires i < |tests|
  {
    tests[..i] + tests[i + 1..]
  }

  /**
   * Removing a test shortens the list by one, moves the tests after it up by
   * one, keeps the list free of repeats, and drops exactly that test.
   */
  lemma WithoutShape(tests: seq<Test>, i: nat)
    requires i < |tests| && Distinct(tests)
    ensures |Without(tests, i)| == |tests| - 1
    ensures forall k :: 0 <= k < |tests| - 1 ==>
      Without(tests, i)[k] == if k < i then tests[k] else tests[k + 1]
    ensures Distinct(Without(tests, i))
    ensures forall t :: t in Without(tests, i) <==> t in tests && t != tests[i]
  {
    var w := Without(tests, i);
    forall t | t in tests && t != tests[i] ensures t in w {
      var k :| 0 <= k < |tests| && tests[k] == t;
      if k < i {
        assert w[k] == t;
      } else {
        assert w[k - 1] == t;
      }
    }
  }

  /** The statuses of the tests, in order. */
  function Statuses(tests: seq<Test>): (st: seq<Status>)
    reads tests
    ensures |st| == |tests|
    ensures forall i :: 0 <= i < |tests| ==> st[i] == tests[i].status
    decreases |tests|
  {
    if |tests| == 0 then [] else Statuses(tests[..|tests| - 1]) + [tests[|tests| - 1].status]
  }

  /** The queue after `runTest` of a test whose status was `st`: only a test not running is sent. */
  function Enqueue(queue: seq<Test>, t: Test, st: Status): seq<Test> {
    if st == Running then queue else queue + [t]
  }

  /**
   * The first `n` tests whose status (in `st`) is not `Running`, in order:
   * those a rerun of the first `n` tests queues.
   */
  function Waiting(tests: seq<Test>, st: seq<Status>, n: nat): seq<Test>
    requires |st| == |tests| && n <= |tests|
  {
    if n == 0 then [] else Enqueue(Waiting(tests, st, n - 1), tests[n - 1], st[n - 1])
  }

  /** A test is queued by a rerun exactly when it was not running, and at most once. */
  lemma {:induction false} WaitingMembers(tests: seq<Test>, st: seq<Status>, n: nat)
    requires |st| == |tests| && n <= |tests| && Distinct(tests)
    ensures forall t :: t in Waiting(tests, st, n) ==> t in tests
    ensures forall i :: 0 <= i < |tests| ==> (tests[i] in Waiting(tests, st, n) <==> i < n && st[i] != Running)
    ensures Distinct(Waiting(tests, st, n))
  {
    if n > 0 {
      WaitingMembers(tests, st, n - 1);
      var w := Waiting(tests, st, n - 1);
      var x := if st[n - 1] == Running then [] else [tests[n - 1]];
      assert Waiting(tests, st, n) == w + x;
      forall i | 0 <= i < |tests| ensures tests[i] in w + x <==> i < n && st[i] != Running {
        assert tests[i] == tests[n - 1] <==> i == n - 1;
      }
      forall i, j | 0 <= i < j < |w + x| ensures (w + x)[i] != (w + x)[j] {
        if j >= |w| {
          assert (w + x)[i] == w[i] && w[i] in w;
        }
      }
    }
  }

  /** The queue holds running tests only, none of them twice. */
  predicate QueueSound(queue: seq<Test>)
    reads queue
  {
    Distinct(queue) && forall k :: 0 <= k < |queue| ==> queue[k].status == Running
  }

  /** The fields of a `Model`, as a value. */
  datatype Snapshot = Snapshot(
    tests: seq<Test>, queue: seq<Test>, mode: Mode, chosen: Test?,
    updating: bool, cursor: nat, rows: seq<Row>, content: string)

  /**
   * table/table.go:32-41, without the widgets' looks: the list's rows and
   * cursor stand for the table widget, the detail text for the viewport.
   */
  class Model {
    var tests: seq<Test>
    /** The tests sent to the worker and not yet taken, oldest first. */
    var queue: seq<Test>
    var mode: Mode
    /** The test of the detail view; null outside it. */
    var chosen: Test?
    /** A refresh tick is on its way. */
    var updating: bool
    /** The table widget's cursor and rows. */
    var cursor: nat
    var rows: seq<Row>
    /** The viewport widget's content. */
    var content: string

    /** The cursor is on a test (or at 0 on an empty list), and the detail view shows the test under it. */
    predicate Valid()
      reads this, queue
    {
      && Distinct(tests)
      && (cursor < |tests| || cursor == 0)
      && (mode == TableMode ==> chosen == null)
      && (mode == ViewportMode ==> cursor < |tests| && chosen == tests[cursor])
      && QueueSound(queue)
    }

    /** `InitialModel` (table/table.go:286-333): the list view, nothing queued. */
    constructor (tests: seq<Test>)
      requires Distinct(tests)
      ensures Valid()
      ensures this.tests == tests && queue == [] && mode == TableMode && chosen == null
      ensures !updating && cursor == 0 && rows == RowsOf(tests) && content == ""
    {
      this.tests := tests;
      queue := [];
      mode := TableMode;
      chosen := null;
      updating := false;
      cursor := 0;
      rows := RowsOf(tests);
      content := "";
    }

    /**
     * table/table.go:55-63: a running test is left alone; any other is
     * marked running and handed to the worker.
     */
    method RunTest(i: nat)
      requires i < |tests| && Valid()
      modifies this`queue, {tests[i]}`status
      ensures Valid()
      ensures tests[i].status == Running && tests[i].results == old(tests[i].results)
      ensures queue == Enqueue(old(queue), tests[i], old(tests[i].status))
    {
      var test := tests[i];
      if test.status == Running {
        return;
      }
      test.status := Running;
      queue := queue + [test];
    }

    /**
     * The worker's receive at main.go:246: the oldest queued test leaves the
     * queue; it is still running, and nothing else changes.
     */
    method Take() returns (t: Test)
      requires Valid() && |queue| > 0
      modifies this`queue
      ensures Valid()
      ensures t == old(queue)[0] && queue == old(queue)[1..]
      ensures t !in queue && t.status == Running
    {
      t := queue[0];
      queue := queue[1..];
    }

    /**
     * The goroutine of table/table.go:99-103, run to completion: every test
     * not yet running is marked running and queued, in list order.
     */
    method RerunAll()
      requires Valid()
      modifies this`queue, tests`status
      ensures Valid()
      ensures forall k :: 0 <= k < |tests| ==> tests[k].status == Running
      ensures forall k :: 0 <= k < |tests| ==> tests[k].results == old(tests[k].results)
      ensures queue == old(queue) + Waiting(tests, old(Statuses(tests)), |tests|)
    {
      ghost var before := Statuses(tests);
      var i := 0;
      while i < |tests|
        invariant 0 <= i <= |tests| && Valid()
        invariant forall k :: 0 <= k < i ==> tests[k].status == Running
        invariant forall k :: i <= k < |tests| ==> tests[k].status == before[k]
        invariant queue == old(queue) + Waiting(tests, before, i)
      {
        RunTest(i);
        i := i + 1;
      }
    }

    /**
     * table/table.go:65-80: drops the `i`-th test and reports whether there
     * was one; the cursor is the caller's business.
     */
    method RemoveTest(i: int) returns (ok: bool)
      modifies this`tests
      ensures ok <==> 0 <= i < |old(tests)|
      ensures ok ==> tests == Without(old(tests), i)
      ensures !ok ==> tests == old(tests)
    {
      if i < 0 || i >= |tests| {
        return false;
      }
      var kept: seq<Test> := [];
      var j := 0;
      while j < |tests|
        invariant 0 <= j <= |tests|
        invariant kept == if j <= i then tests[..j] else tests[..i] + tests[i + 1..j]
      {
        if j < i {
          assert tests[..j + 1] == tests[..j] + [tests[j]];
        } else if j > i {
          assert tests[i + 1..j + 1] == tests[i + 1..j] + [tests[j]];
        } else {
          assert tests[i + 1..j + 1] == [];
        }
        if j != i {
          kept := kept + [tests[j]];
        }
        j := j + 1;
      }
      assert tests[i + 1..j] == tests[i + 1..];
      tests := kept;
      return true;
    }

    /** The model's own fields, as one value. */
    function Snap(): Snapshot
      reads this
    {
      Snapshot(tests, queue, mode, chosen, updating, cursor, rows, content)
    }

    /** The command a "TestUpdated" note answers with: a tick, unless one is already on its way. */
    static function Refresh(s: Snapshot): Cmd {
      if s.updating then NoCmd else ScheduleTick
    }

    /**
     * The "TestUpdated" note in the list view (table/table.go:130-141), from
     * snapshot `s`: with a tick already on its way nothing happens; otherwise
     * the rows are rebuilt from the tests as they are now and a tick is
     * scheduled.
     */
    function AfterTestUpdated(s: Snapshot): Snapshot
      reads this, tests
    {
      if s.updating then s else s.(updating := true, rows := RowsOf(tests))
    }

    /** Only the `i`-th test changed: it is running now, with the same results. */
    twostate predicate Enqueued(before: seq<Test>, i: nat)
      reads before
    {
      && i < |before|
      && before[i].status == Running && before[i].results == old(before[i].results)
      && (forall k :: 0 <= k < |before| && k != i ==> unchanged(before[k]))
    }

    /**
     * "enter" or space in the list (table/table.go:91-94): the detail view of
     * the test under the cursor; on an empty list the indexing panics.
     */
    twostate predicate ChooseStep(before: seq<Test>, cmd: Cmd)
      reads this, tests, before
    {
      var s := old(Snap());
      var at := s.cursor;
      && unchanged(before)
      && if at < |before| then
           Snap() == s.(mode := ViewportMode, chosen := before[at], content := Detail(before[at])) && cmd == NoCmd
         else
           Snap() == s && cmd == Panic
    }

    /**
     * "r" in the list (table/table.go:95-97): the test under the cursor is
     * rerun and the list refreshed; on an empty list the indexing panics.
     */
    twostate predicate RunStep(before: seq<Test>, cmd: Cmd)
      reads this, tests, before
    {
      var s := old(Snap());
      var at := s.cursor;
      if at < |before| then
        && Enqueued(before, at)
        && Snap() == AfterTestUpdated(s.(queue := Enqueue(s.queue, before[at], old(before[at].status))))
        && cmd == Refresh(s)
      else
        Snap() == s && cmd == Panic && unchanged(before)
    }

    /**
     * "R" in the list (table/table.go:98-104): every test not yet running is
     * queued, in list order, and the list refreshed.
     */
    twostate predicate RunAllStep(before: seq<Test>, cmd: Cmd)
      reads this, tests, before
    {
      var s := old(Snap());
      && (forall k :: 0 <= k < |before| ==> before[k].status == Running && before[k].results == old(before[k].results))
      && Snap() == AfterTestUpdated(s.(queue := s.queue + Waiting(before, old(Statuses(before)), |before|)))
      && cmd == Refresh(s)
    }

    /**
     * "d" or "x" in the list (table/table.go:105-116): the test under the
     * cursor is dropped and the cursor moves up one; the key goes on to the
     * widget either way.
     */
    twostate predicate RemoveStep(before: seq<Test>, cmd: Cmd)
      reads this, tests, before
    {
      var s := old(Snap());
      var at := s.cursor;
      && cmd == Delegated && unchanged(before)
      && if at < |before| then
           tests == Without(before, at) && Snap() == s.(tests := tests, rows := RowsOf(tests), cursor := if at > 0 then at - 1 else 0)
         else
           Snap() == s
    }

    /** The tick (table/table.go:118-120): the list is redrawn and the next tick scheduled. */
    twostate predicate TickStep(before: seq<Test>, cmd: Cmd)
      reads this, tests, before
    {
      Snap() == old(Snap()).(updating := true, rows := RowsOf(tests)) && cmd == ScheduleTick && unchanged(before)
    }

    /** The note "Open" in the list (table/table.go:125-129): the list is redrawn, no tick pending. */
    twostate predicate OpenedStep(before: seq<Test>, cmd: Cmd)
      reads this, tests, before
    {
      Snap() == old(Snap()).(updating := false, rows := RowsOf(tests)) && cmd == NoCmd && unchanged(before)
    }

    /** The note "TestUpdated" in the list (table/table.go:130-141). */
    twostate predicate UpdatedStep(before: seq<Test>, cmd: Cmd)
      reads this, tests, before
    {
      Snap() == AfterTestUpdated(old(Snap())) && cmd == Refresh(old(Snap())) && unchanged(before)
    }

    /**
     * The transition of `UpdateTable` (table/table.go:86-147) from the list
     * `before`. Only "r" and "R" change tests, and only their statuses.
     */
    twostate predicate TableStep(before: seq<Test>, ev: Event, cmd: Cmd)
      reads this, tests, before
    {
      match TableActionOf(ev)
      case ChooseKey => ChooseStep(before, cmd)
      case RunKey => RunStep(before, cmd)
      case RunAllKey => RunAllStep(before, cmd)
      case RemoveKey => RemoveStep(before, cmd)
      case TickFired => TickStep(before, cmd)
      case OpenNote => OpenedStep(before, cmd)
      case UpdatedNote => UpdatedStep(before, cmd)
      case ToTable => Snap() == old(Snap()) && cmd == Delegated && unchanged(before)
    }

    /** "esc" or "q" in the detail view (table/table.go:154-157): back to the list. */
    twostate predicate CloseStep(before: seq<Test>, cmd: Cmd)
      reads this, tests, before
    {
      && Snap() == old(Snap()).(mode := TableMode, chosen := null, updating := false, rows := RowsOf(tests))
      && cmd == NoCmd && unchanged(before)
    }

    /** "r" in the detail view (table/table.go:158-160): the test shown is rerun and redrawn. */
    twostate predicate RerunStep(before: seq<Test>, cmd: Cmd)
      reads this, tests, before
    {
      var s := old(Snap());
      var at := s.cursor;
      && Enqueued(before, at)
      && Snap() == s.(queue := Enqueue(s.queue, before[at], old(before[at].status)), content := Detail(before[at]))
      && cmd == NoCmd
    }

    /** A move in the detail view (table/table.go:161-176): the test at `to` is shown. */
    twostate predicate MoveStep(before: seq<Test>, to: nat, cmd: Cmd)
      reads this, tests, before
    {
      && to < |before|
      && Snap() == old(Snap()).(cursor := to, chosen := before[to], content := Detail(before[to]))
      && cmd == NoCmd && unchanged(before)
    }

    /** The notes "Open" and "TestUpdated" in the detail view (table/table.go:182-192). */
    twostate predicate ShowStep(before: seq<Test>, cmd: Cmd)
      reads this, tests, before
    {
      var at := old(cursor);
      && at < |before|
      && Snap() == old(Snap()).(content := Detail(before[at]))
      && cmd == NoCmd && unchanged(before)
    }

    /**
     * The transition of `UpdateViewport` (table/table.go:149-198) from the
     * list `before`, the cursor on a test. Only "r" changes a test.
     */
    twostate predicate ViewportStep(before: seq<Test>, ev: Event, cmd: Cmd)
      reads this, tests, before
    {
      var at := old(cursor);
      && at < |before|
      && match ViewActionOf(ev)
         case CloseKey => CloseStep(before, cmd)
         case RerunKey => RerunStep(before, cmd)
         case NextKey => MoveStep(before, Neighbour(at, |before|, true), cmd)
         case PreviousKey => MoveStep(before, Neighbour(at, |before|, false), cmd)
         case ShowNote => ShowStep(before, cmd)
         case ToViewport => Snap() == old(Snap()) && cmd == Delegated && unchanged(before)
    }

    /** table/table.go:91-94 */
    method OpenDetail() returns (cmd: Cmd)
      requires Valid() && mode == TableMode
      modifies this
      ensures Valid()
      ensures ChooseStep(old(tests), cmd)
    {
      if cursor >= |tests| {
        return Panic;
      }
      mode := ViewportMode;
      chosen := tests[cursor];
      cmd := ShowDetail();
    }

    /** table/table.go:95-97 */
    method RunChosen() returns (cmd: Cmd)
      requires Valid() && mode == TableMode
      modifies this, tests`status
      ensures Valid()
      ensures RunStep(old(tests), cmd)
    {
      if cursor >= |tests| {
        return Panic;
      }
      RunTest(cursor);
      cmd := TestsUpdated();
    }

    /** table/table.go:98-104 */
    method RunEveryTest() returns (cmd: Cmd)
      requires Valid() && mode == TableMode
      modifies this, tests`status
      ensures Valid()
      ensures RunAllStep(old(tests), cmd)
    {
      ghost var s := Snap();
      RerunAll();
      assert Snap() == s.(queue := s.queue + Waiting(s.tests, old(Statuses(tests)), |tests|));
      cmd := TestsUpdated();
    }

    /** table/table.go:105-116 */
    method RemoveChosen() returns (cmd: Cmd)
      requires Valid() && mode == TableMode
      modifies this`tests, this`rows, this`cursor
      ensures Valid()
      ensures RemoveStep(old(tests), cmd)
    {
      var at := cursor;
      var ok := RemoveTest(at);
      if ok {
        assert Distinct(tests) by {
          WithoutShape(old(tests), at);
        }
        Relist(at);
      }
      cmd := Delegated;
    }

    /**
     * table/table.go:108-112: after the `at`-th test is gone, the rows are
     * rebuilt and the cursor moves up one (it stays on the first row).
     */
    method Relist(at: nat)
      requires Distinct(tests) && QueueSound(queue) && mode == TableMode && chosen == null
      requires at <= |tests| && (at > 0 || cursor == 0)
      modifies this`rows, this`cursor
      ensures Valid()
      ensures rows == RowsOf(tests) && cursor == if at > 0 then at - 1 else 0
    {
      rows := BuildRows(tests);
      if at > 0 {
        cursor := at - 1;
      }
    }

    /** table/table.go:118-120 */
    method TickElapsed() returns (cmd: Cmd)
      requires Valid() && mode == TableMode
      modifies this
      ensures Valid()
      ensures TickStep(old(tests), cmd)
    {
      updating := false;
      cmd := TestsUpdated();
    }

    /** table/table.go:125-129 */
    method ListOpened() returns (cmd: Cmd)
      requires Valid() && mode == TableMode
      modifies this
      ensures Valid()
      ensures OpenedStep(old(tests), cmd)
    {
      updating := false;
      rows := BuildRows(tests);
      cmd := NoCmd;
    }

    /** table/table.go:130-141 */
    method TestsUpdated() returns (cmd: Cmd)
      requires Valid() && mode == TableMode
      modifies this
      ensures Valid()
      ensures UpdatedStep(old(tests), cmd)
    {
      if updating {
        return NoCmd;
      }
      updating := true;
      rows := BuildRows(tests);
      cmd := ScheduleTick;
    }

    /**
     * table/table.go:86-147: a note the list sends itself ("Open",
     * "TestUpdated") goes straight to its handler.
     */
    method UpdateTable(ev: Event) returns (cmd: Cmd)
      requires Valid() && mode == TableMode
      modifies this, tests`status
      ensures Valid()
      ensures TableStep(old(tests), ev, cmd)
    {
      match TableActionOf(ev) {
        case ChooseKey => cmd := OpenDetail();
        case RunKey => cmd := RunChosen();
        case RunAllKey => cmd := RunEveryTest();
        case RemoveKey => cmd := RemoveChosen();
        case TickFired => cmd := TickElapsed();
        case OpenNote => cmd := ListOpened();
        case UpdatedNote => cmd := TestsUpdated();
        case ToTable => cmd := Delegated;
      }
    }

    /** table/table.go:154-157 */
    method CloseDetail() returns (cmd: Cmd)
      requires Valid() && mode == ViewportMode
      modifies this
      ensures Valid()
      ensures CloseStep(old(tests), cmd)
    {
      mode := TableMode;
      chosen := null;
      cmd := ListOpened();
    }

    /** table/table.go:158-160 */
    method RerunShown() returns (cmd: Cmd)
      requires Valid() && mode == ViewportMode
      modifies this, tests`status
      ensures Valid()
      ensures RerunStep(old(tests), cmd)
    {
      RunTest(cursor);
      cmd := ShowDetail();
    }

    /** table/table.go:161-176: `down` for "j" and "down", otherwise "k" and "up". */
    method MoveDetail(down: bool) returns (cmd: Cmd)
      requires Valid() && mode == ViewportMode
      modifies this
      ensures Valid()
      ensures MoveStep(old(tests), Neighbour(old(cursor), |old(tests)|, down), cmd)
    {
      var to := cursor;
      if down && cursor + 1 < |tests| {
        to := cursor + 1;
      } else if !down && cursor > 0 {
        to := cursor - 1;
      }
      if to != cursor {
        cursor := to;
        chosen := tests[to];
      }
      cmd := ShowDetail();
    }

    /** table/table.go:182-192 */
    method ShowDetail() returns (cmd: Cmd)
      requires Valid() && mode == ViewportMode
      modifies this
      ensures Valid()
      ensures ShowStep(old(tests), cmd)
    {
      content := Detail(chosen);
      cmd := NoCmd;
    }

    /**
     * table/table.go:149-198: a note the view sends itself goes straight to
     * its handler.
     */
    method UpdateViewport(ev: Event) returns (cmd: Cmd)
      requires Valid() && mode == ViewportMode
      modifies this, tests`status
      ensures Valid()
      ensures ViewportStep(old(tests), ev, cmd)
    {
      match ViewActionOf(ev) {
        case CloseKey => cmd := CloseDetail();
        case RerunKey => cmd := RerunShown();
        case NextKey => cmd := MoveDetail(true);
        case PreviousKey => cmd := MoveDetail(false);
        case ShowNote => cmd := ShowDetail();
        case ToViewport => cmd := Delegated;
      }
    }

    /**
     * table/table.go:213-241: ctrl+c quits from anywhere; everything else goes
     * to the update of the current view (the text area only to its widget).
     */
    method Update(ev: Event) returns (cmd: Cmd)
      requires Valid()
      modifies this, tests`status
      ensures Valid()
      ensures ev == Key("ctrl+c") ==> cmd == Quit && Snap() == old(Snap()) && unchanged(old(tests))
      ensures ev != Key("ctrl+c") && old(mode) == TableMode ==> TableStep(old(tests), ev, cmd)
      ensures ev != Key("ctrl+c") && old(mode) == ViewportMode ==> ViewportStep(old(tests), ev, cmd)
      ensures ev != Key("ctrl+c") && old(mode) == TextareaMode ==>
        cmd == Delegated && Snap() == old(Snap()) && unchanged(old(tests))
    {
      if ev == Key("ctrl+c") {
        return Quit;
      }
      match mode {
        case TextareaMode =>
          cmd := Delegated;
        case ViewportMode =>
          cmd := UpdateViewport(ev);
        case TableMode =>
          cmd := UpdateTable(ev);
      }
    }
  }
}
