/**
 * The SQL repository (internal/repository/task.go). The database itself is
 * not modelled: what it answers to each statement is an input, and the
 * model states which statement each operation issues and what it makes of
 * the answer.
 */
module Repository {
  import opened Wrappers
  import opened Entity
  import opened Ports
  import opened SqlText

  /** A value bound to a positional parameter. */
  datatype Arg = StrArg(s: string) | IntArg(n: int) | TimeArg(d: Date) | BoolArg(b: bool)

  /** A parameterised statement and the arguments it is executed with. */
  datatype Statement = Statement(query: string, args: seq<Arg>)

  /** The placeholders in the text are exactly `$1`..`$n` for n arguments, in argument order. */
  predicate Numbered(st: Statement)
  {
    Placeholders(st.query) == Upto(|st.args|)
  }

  /** What scanning one result row into a Task gives. */
  datatype ScanOutcome = Scanned(task: Task) | ScanFailed(error: Error)

  /** What `Query` gives: an error, or the rows that `rows.Next` walks through. */
  datatype QueryOutcome = QueryFailed(error: Error) | Rows(rows: seq<ScanOutcome>)

  /**
   * The database as the repository observes it, one answer per way the code
   * reads a result: `QueryRow(..).Scan(&id)`, `QueryRow(..).Scan(<task fields>)`,
   * `QueryRow(..).Scan()` and `Query(..)`.
   */
  datatype Database = Database(
    scanId: Statement -> Result<int, Error>,
    scanTask: Statement -> Result<Task, Error>,
    scanNothing: Statement -> Option<Error>,
    query: Statement -> QueryOutcome)

  // The fixed SQL texts of internal/repository/task.go:10, 20, 29, 38 and 47-69.
  // The longer ones are written as a few joined literals: the verifier checks
  // that a text is a `Fragment` character by character, and a single literal
  // of that length costs it far more than its pieces do.
  const SelectColumns: Fragment := "SELECT id, title, " + "description, date, " + "completed FROM tasks"
  /** The predicate used when no completion filter is given: it matches every row. */
  const AnyCompletion: Fragment := " WHERE (completed = 'true' " + "OR completed = 'false')"
  const InsertHead: Fragment := "INSERT INTO tasks(title, " + "description, date, " + "completed) VALUES ("
  const ById: Fragment := " WHERE id = "
  const Comma: Fragment := ", "
  const ReturningId: Fragment := ") RETURNING id"
  const UpdateHead: Fragment := "UPDATE tasks SET title="
  const SetDescription: Fragment := ", description="
  const SetDate: Fragment := ", date="
  const SetCompleted: Fragment := ", completed="
  const DeleteHead: Fragment := "DELETE FROM tasks"

  /** A parameter and the fragment after it add exactly that parameter. */
  lemma AppendParamText(s: string, n: nat, t: Fragment)
    ensures Placeholders(s + ParamText(n) + t) == Placeholders(s) + [n]
  {
    AppendParam(s, n);
    AppendText(s + ParamText(n), t);
  }

  /** Text, one parameter, then text reads back $1. */
  lemma OneParam(h: Fragment, t: Fragment)
    ensures Placeholders(h + ParamText(1) + t) == [1]
  {
    PlaceholdersOfText(h);
    AppendParamText(h, 1, t);
  }

  /** Text and four parameters separated by text read back $1..$4. */
  lemma FourParams(h: Fragment, a: Fragment, b: Fragment, c: Fragment, t: Fragment)
    ensures Placeholders(h + ParamText(1) + a + ParamText(2) + b + ParamText(3) + c + ParamText(4) + t) == [1, 2, 3, 4]
  {
    var s1 := h + ParamText(1) + a;
    var s2 := s1 + ParamText(2) + b;
    var s3 := s2 + ParamText(3) + c;
    PlaceholdersOfText(h);
    AppendParamText(h, 1, a);
    AppendParamText(s1, 2, b);
    AppendParamText(s2, 3, c);
    AppendParamText(s3, 4, t);
  }

  // ---------------------------------------------------------------------
  // Single-row statements (internal/repository/task.go:10-43)
  // ---------------------------------------------------------------------

  /** The statement `InsertTask` issues: the four written columns bound to $1..$4 in column order. */
  function InsertStatement(task: Task): (st: Statement)
    ensures Numbered(st)
    ensures st.args == [StrArg(task.title), StrArg(task.description), TimeArg(task.date), BoolArg(task.completed)]
  {
    FourParams(InsertHead, Comma, Comma, Comma, ReturningId);
    Statement(InsertHead + ParamText(1) + Comma + ParamText(2) + Comma + ParamText(3) + Comma + ParamText(4) + ReturningId,
              [StrArg(task.title), StrArg(task.description), TimeArg(task.date), BoolArg(task.completed)])
  }

  /** The statement `GetTask` issues: the id bound to $1. */
  function SelectStatement(id: int): (st: Statement)
    ensures Numbered(st)
    ensures st.args == [IntArg(id)]
  {
    var head: Fragment := SelectColumns + ById;
    OneParam(head, "");
    Statement(head + ParamText(1) + "", [IntArg(id)])
  }

  /** The statement `UpdateTask` issues: the four columns bound to $1..$4 and the id to $5. */
  function UpdateStatement(id: int, task: Task): (st: Statement)
    ensures Numbered(st)
    ensures st.args == [StrArg(task.title), StrArg(task.description), TimeArg(task.date), BoolArg(task.completed), IntArg(id)]
  {
    var q := UpdateHead + ParamText(1) + SetDescription + ParamText(2) + SetDate + ParamText(3)
             + SetCompleted + ParamText(4) + ById;
    FourParams(UpdateHead, SetDescription, SetDate, SetCompleted, ById);
    AppendParam(q, 5);
    Statement(q + ParamText(5),
              [StrArg(task.title), StrArg(task.description), TimeArg(task.date), BoolArg(task.completed), IntArg(id)])
  }

  /** The statement `DeleteTask` issues: the id bound to $1. */
  function DeleteStatement(id: int): (st: Statement)
    ensures Numbered(st)
    ensures st.args == [IntArg(id)]
  {
    var head: Fragment := DeleteHead + ById;
    OneParam(head, "");
    Statement(head + ParamText(1) + "", [IntArg(id)])
  }

  /** The replies of the single-row operations: an id, or -1 beside the error. */
  function InsertTask(db: Database, task: Task): (r: IdReply)
    ensures r.err.None? <==> db.scanId(InsertStatement(task)).Ok?
    ensures r.err.Some? ==> r.id == -1 && r.err.value == db.scanId(InsertStatement(task)).error
    ensures r.err.None? ==> r.id == db.scanId(InsertStatement(task)).value
  {
    match db.scanId(InsertStatement(task))
    case Err(e) => IdReply(-1, Some(e))
    case Ok(id) => IdReply(id, None)
  }

  /** The scanned task, or no task beside the error. */
  function GetTask(db: Database, id: int): (r: TaskReply)
    ensures r.err.None? <==> db.scanTask(SelectStatement(id)).Ok?
    ensures r.err.Some? ==> r.task.None? && r.err.value == db.scanTask(SelectStatement(id)).error
    ensures r.err.None? ==> r.task == Some(db.scanTask(SelectStatement(id)).value)
  {
    match db.scanTask(SelectStatement(id))
    case Err(e) => TaskReply(None, Some(e))
    case Ok(t) => TaskReply(Some(t), None)
  }

  /** The error of the `Scan()`, unchanged, or nil. */
  function UpdateTask(db: Database, id: int, task: Task): (r: Option<Error>)
    ensures r == db.scanNothing(UpdateStatement(id, task))
  {
    var err := db.scanNothing(UpdateStatement(id, task));
    if err.Some? then err else None
  }

  /** The error of the `Scan()`, unchanged, or nil. */
  function DeleteTask(db: Database, id: int): (r: Option<Error>)
    ensures r == db.scanNothing(DeleteStatement(id))
  {
    var err := db.scanNothing(DeleteStatement(id));
    if err.Some? then err else None
  }

  // ---------------------------------------------------------------------
  // The list query (internal/repository/task.go:46-90)
  // ---------------------------------------------------------------------

  const CompletedIs: Fragment := " WHERE completed = "
  const And: Fragment := " AND "
  const DateIs: Fragment := "date = "
  const OrderByLimit: Fragment := " ORDER BY id LIMIT "
  const OffsetText: Fragment := " OFFSET "

  /** The filter values in the order their predicates are written: completion, then date. */
  function FilterArgs(completed: string, date: string): (args: seq<Arg>)
  {
    (if completed != "" then [StrArg(completed)] else []) + (if date != "" then [StrArg(date)] else [])
  }

  /** The completion predicate: `completed = $1`, or the match-all predicate. */
  function CompletedClause(completed: string): string
  {
    if completed != "" then CompletedIs + ParamText(1) else AnyCompletion
  }

  /** The WHERE clause: the completion predicate, then the date predicate on the next parameter. */
  function WhereClause(completed: string, date: string): string
  {
    var head := CompletedClause(completed);
    if date != "" then head + And + DateIs + ParamText(if completed != "" then 2 else 1) else head
  }

  /** `fmt.Sprintf(" ORDER BY id LIMIT $%d OFFSET $%d", n + 1, n + 2)`: the page limits after n filter values. */
  function LimitTail(n: nat): string
  {
    OrderByLimit + ParamText(n + 1) + OffsetText + ParamText(n + 2)
  }

  /** The text of the list statement: columns, then the WHERE clause followed by LIMIT and OFFSET on the next two parameters. */
  function ListQuery(completed: string, date: string): string
  {
    SelectColumns + (WhereClause(completed, date) + LimitTail(|FilterArgs(completed, date)|))
  }

  /** The list statement and the arguments it is executed with: filter values, then page size and offset. */
  function ListStatement(offset: int, completed: string, pageSize: int, date: string): (st: Statement)
    ensures Numbered(st)
    ensures |st.args| >= 2 && st.args[|st.args| - 2] == IntArg(pageSize) && st.args[|st.args| - 1] == IntArg(offset)
  {
    ListNumbered(completed, date);
    Statement(ListQuery(completed, date), ListArgs(offset, completed, pageSize, date))
  }

  /** The arguments the list statement is executed with: filter values, then page size and offset. */
  function ListArgs(offset: int, completed: string, pageSize: int, date: string): seq<Arg>
  {
    FilterArgs(completed, date) + [IntArg(pageSize), IntArg(offset)]
  }

  lemma TextParam(h: Fragment, n: nat)
    ensures Placeholders(h + ParamText(n)) == [n]
  {
    PlaceholdersOfText(h);
    AppendParam(h, n);
  }

  lemma TwoTextsParam(s: string, a: Fragment, b: Fragment, n: nat)
    ensures Placeholders(s + a + b + ParamText(n)) == Placeholders(s) + [n]
  {
    AppendText(s, a);
    AppendText(s + a, b);
    AppendParam(s + a + b, n);
  }

  lemma CompletedNumbered(completed: string)
    ensures Placeholders(CompletedClause(completed)) == if completed != "" then [1] else []
    ensures CompletedClause(completed) != [] && CompletedClause(completed)[0] == ' '
  {
    if completed != "" {
      TextParam(CompletedIs, 1);
    } else {
      PlaceholdersOfText(AnyCompletion);
    }
  }

  /** The WHERE clause holds one placeholder per filter value, numbered from 1. */
  lemma WhereNumbered(completed: string, date: string)
    ensures Placeholders(WhereClause(completed, date)) == Upto(|FilterArgs(completed, date)|)
    ensures WhereClause(completed, date) != [] && WhereClause(completed, date)[0] == ' '
  {
    var head := CompletedClause(completed);
    CompletedNumbered(completed);
    if date != "" {
      TwoTextsParam(head, And, DateIs, if completed != "" then 2 else 1);
    }
  }

  /** The page limits after n filter values read back $n+1 and $n+2. */
  lemma TailNumbered(n: nat)
    ensures Placeholders(LimitTail(n)) == [n + 1, n + 2]
  {
    PlaceholdersOfText(OrderByLimit);
    AppendParamText(OrderByLimit, n + 1, OffsetText);
    AppendParam(OrderByLimit + ParamText(n + 1) + OffsetText, n + 2);
  }

  /** A clause numbered `$1..$n` followed by the page limits is numbered `$1..$(n+2)`. */
  lemma TailAfterNumbered(w: string, n: nat)
    requires Placeholders(w) == Upto(n)
    ensures Placeholders(w + LimitTail(n)) == Upto(n + 2)
  {
    TailNumbered(n);
    PlaceholdersConcat(w, LimitTail(n));
    UptoNext(n);
    UptoNext(n + 1);
  }

  lemma ListNumbered(completed: string, date: string)
    ensures Placeholders(ListQuery(completed, date)) == Upto(|FilterArgs(completed, date)| + 2)
  {
    var w := WhereClause(completed, date);
    var n := |FilterArgs(completed, date)|;
    WhereNumbered(completed, date);
    TailAfterNumbered(w, n);
    PlaceholdersOfText(SelectColumns);
    PlaceholdersConcat(SelectColumns, w + LimitTail(n));
  }

  /**
   * Builds the list statement step by step as the source does, growing the
   * WHERE clause, the parameter count and the argument list together.
   */
  method BuildListQuery(offset: int, completed: string, pageSize: int, date: string) returns (st: Statement)
    ensures st.query == ListQuery(completed, date) && st.args == ListArgs(offset, completed, pageSize, date)
  {
    var query := SelectColumns;
    var args: seq<Arg> := [];
    var whereClause := "";
    var count: nat := 0;
    if completed != "" {
      count := count + 1;
      whereClause := CompletedIs + ParamText(count);
      args := args + [StrArg(completed)];
    } else {
      whereClause := AnyCompletion;
    }
    assert whereClause == CompletedClause(completed) && whereClause != "";
    assert args == (if completed != "" then [StrArg(completed)] else []) && count == |args|;
    if date != "" {
      if whereClause != "" {
        whereClause := whereClause + And;
      }
      whereClause := whereClause + DateIs + ParamText(count + 1);
      count := count + 1;
      args := args + [StrArg(date)];
    }
    assert args == FilterArgs(completed, date) && count == |args|;
    assert whereClause == WhereClause(completed, date);
    query := query + (whereClause + LimitTail(count));
    st := Statement(query, args + [IntArg(pageSize), IntArg(offset)]);
  }

  lemma LimitTailText0()
    ensures LimitTail(0) == " ORDER BY id LIMIT $1 OFFSET $2"
  {
    assert ParamText(1) == "$1" && ParamText(2) == "$2";
  }

  lemma LimitTailText1()
    ensures LimitTail(1) == " ORDER BY id LIMIT $2 OFFSET $3"
  {
    assert ParamText(2) == "$2" && ParamText(3) == "$3";
  }

  lemma LimitTailText2()
    ensures LimitTail(2) == " ORDER BY id LIMIT $3 OFFSET $4"
  {
    assert ParamText(3) == "$3" && ParamText(4) == "$4";
  }

  /** The four shapes the list statement takes, one per combination of filters. */
  lemma ListStatementShapes(offset: int, completed: string, pageSize: int, date: string)
    ensures var st := ListStatement(offset, completed, pageSize, date);
      && (completed == "" && date == "" ==>
            st.query == SelectColumns + (AnyCompletion + " ORDER BY id LIMIT $1 OFFSET $2") &&
            st.args == [IntArg(pageSize), IntArg(offset)])
      && (completed != "" && date == "" ==>
            st.query == SelectColumns + (" WHERE completed = $1" + " ORDER BY id LIMIT $2 OFFSET $3") &&
            st.args == [StrArg(completed), IntArg(pageSize), IntArg(offset)])
      && (completed == "" && date != "" ==>
            st.query == SelectColumns + (AnyCompletion + " AND date = $1" + " ORDER BY id LIMIT $2 OFFSET $3") &&
            st.args == [StrArg(date), IntArg(pageSize), IntArg(offset)])
      && (completed != "" && date != "" ==>
            st.query == SelectColumns + (" WHERE completed = $1 AND date = $2" + " ORDER BY id LIMIT $3 OFFSET $4") &&
            st.args == [StrArg(completed), StrArg(date), IntArg(pageSize), IntArg(offset)])
  {
    WhereTexts(completed, date);
    ListArgsShapes(offset, completed, pageSize, date);
    var n := |FilterArgs(completed, date)|;
    if n == 0 {
      LimitTailText0();
    } else if n == 1 {
      LimitTailText1();
    } else {
      LimitTailText2();
    }
  }

  /**
   * The unfiltered first page of ten: the statement text and arguments the
   * repository's own test expects; the pieces join to that test's single
   * string, written in the same pieces as the texts above.
   */
  lemma DefaultListStatement()
    ensures ListStatement(0, "", 10, "").query ==
      ("SELECT id, title, " + "description, date, " + "completed FROM tasks")
      + ((" WHERE (completed = 'true' " + "OR completed = 'false')") + " ORDER BY id LIMIT $1 OFFSET $2")
    ensures ListStatement(0, "", 10, "").args == [IntArg(10), IntArg(0)]
  {
    ListStatementShapes(0, "", 10, "");
  }

  lemma ListArgsShapes(offset: int, completed: string, pageSize: int, date: string)
    ensures var args := ListStatement(offset, completed, pageSize, date).args;
      && (completed == "" && date == "" ==> args == [IntArg(pageSize), IntArg(offset)])
      && (completed != "" && date == "" ==> args == [StrArg(completed), IntArg(pageSize), IntArg(offset)])
      && (completed == "" && date != "" ==> args == [StrArg(date), IntArg(pageSize), IntArg(offset)])
      && (completed != "" && date != "" ==> args == [StrArg(completed), StrArg(date), IntArg(pageSize), IntArg(offset)])
  {
  }

  lemma WhereTexts(completed: string, date: string)
    ensures completed == "" && date == "" ==> WhereClause(completed, date) == AnyCompletion
    ensures completed != "" && date == "" ==> WhereClause(completed, date) == " WHERE completed = $1"
    ensures completed == "" && date != "" ==> WhereClause(completed, date) == AnyCompletion + " AND date = $1"
    ensures completed != "" && date != "" ==> WhereClause(completed, date) == " WHERE completed = $1 AND date = $2"
  {
    assert ParamText(1) == "$1" && ParamText(2) == "$2";
    if date != "" && completed == "" {
      assert AnyCompletion + And + DateIs + ParamText(1) == AnyCompletion + (And + DateIs + ParamText(1));
    }
  }

  // ---------------------------------------------------------------------
  // Row collection (internal/repository/task.go:76-90)
  // ---------------------------------------------------------------------

  predicate AllScanned(rows: seq<ScanOutcome>)
  {
    forall i :: 0 <= i < |rows| ==> rows[i].Scanned?
  }

  /** What walking the rows yields: every task in row order, or the first scan error. */
  function Collected(rows: seq<ScanOutcome>): Result<seq<Task>, Error>
  {
    if rows == [] then Ok([])
    else
      match rows[0]
      case ScanFailed(e) => Err(e)
      case Scanned(t) =>
        var rest := Collected(rows[1..]);
        if rest.Err? then rest else Ok([t] + rest.value)
  }

  /** When every row scans, the result holds every row's task, in row order. */
  lemma {:induction false} CollectedAllScanned(rows: seq<ScanOutcome>)
    requires AllScanned(rows)
    ensures Collected(rows).Ok?
    ensures |Collected(rows).value| == |rows|
    ensures forall i :: 0 <= i < |rows| ==> Collected(rows).value[i] == rows[i].task
  {
    if rows != [] {
      CollectedAllScanned(rows[1..]);
    }
  }

  /** The first row that fails to scan decides the result: its error, and no tasks at all. */
  lemma {:induction false} CollectedFirstFailure(rows: seq<ScanOutcome>, k: nat)
    requires k < |rows| && rows[k].ScanFailed?
    requires AllScanned(rows[..k])
    ensures Collected(rows) == Err(rows[k].error)
  {
    if k > 0 {
      assert rows[0] == rows[..k][0];
      assert rows[1..][..k - 1] == rows[..k][1..];
      CollectedFirstFailure(rows[1..], k - 1);
    }
  }

  /** The `for rows.Next()` loop: append each scanned task, stop at the first scan error. */
  method CollectRows(rows: seq<ScanOutcome>) returns (r: Result<seq<Task>, Error>)
    ensures r == Collected(rows)
  {
    var tasks: seq<Task> := [];
    var i := 0;
    while i < |rows|
      invariant 0 <= i <= |rows|
      invariant AllScanned(rows[..i])
      invariant |tasks| == i
      invariant forall k :: 0 <= k < i ==> tasks[k] == rows[k].task
    {
      match rows[i]
      case ScanFailed(e) => {
        CollectedFirstFailure(rows, i);
        return Err(e);
      }
      case Scanned(t) => {
        tasks := tasks + [t];
        assert rows[..i + 1] == rows[..i] + [rows[i]];
        i := i + 1;
      }
    }
    assert rows[..i] == rows;
    CollectedAllScanned(rows);
    assert tasks == Collected(rows).value;
    r := Ok(tasks);
  }

  /** The reply of the list operation for the rows the database answers with. */
  function ListTasks(db: Database, offset: int, completed: string, pageSize: int, date: string): ListReply
  {
    match db.query(ListStatement(offset, completed, pageSize, date))
    case QueryFailed(e) => ListReply([], Some(e))
    case Rows(rows) =>
      match Collected(rows)
      case Err(e) => ListReply([], Some(e))
      case Ok(tasks) => ListReply(tasks, None)
  }

  /** `GetTaskList`: build the statement, run it, collect the rows. */
  method GetTaskList(db: Database, offset: int, completed: string, pageSize: int, date: string) returns (r: ListReply)
    ensures r == ListTasks(db, offset, completed, pageSize, date)
  {
    var st := BuildListQuery(offset, completed, pageSize, date);
    assert st == ListStatement(offset, completed, pageSize, date);
    var outcome := db.query(st);
    if outcome.QueryFailed? {
      return ListReply([], Some(outcome.error));
    }
    var collected := CollectRows(outcome.rows);
    if collected.Err? {
      return ListReply([], Some(collected.error));
    }
    r := ListReply(collected.value, None);
  }

  /**
   * The list reply succeeds exactly when the query runs and every row scans;
   * it then holds every row's task in row order, and on any error it holds
   * no task at all: never a partial list.
   */
  lemma ListTasksMeaning(db: Database, offset: int, completed: string, pageSize: int, date: string)
    ensures var outcome := db.query(ListStatement(offset, completed, pageSize, date));
      var r := ListTasks(db, offset, completed, pageSize, date);
      && (r.err.None? <==> outcome.Rows? && AllScanned(outcome.rows))
      && (r.err.Some? ==> r.tasks == [])
      && (outcome.QueryFailed? ==> r.err == Some(outcome.error))
      && (r.err.None? ==>
            |r.tasks| == |outcome.rows| && forall i :: 0 <= i < |r.tasks| ==> r.tasks[i] == outcome.rows[i].task)
      && (forall k ::
            outcome.Rows? && 0 <= k < |outcome.rows| && outcome.rows[k].ScanFailed? && AllScanned(outcome.rows[..k])
            ==> r.err == Some(outcome.rows[k].error))
  {
    var outcome := db.query(ListStatement(offset, completed, pageSize, date));
    if outcome.Rows? {
      var rows := outcome.rows;
      if AllScanned(rows) {
        CollectedAllScanned(rows);
      } else {
        var k :| 0 <= k < |rows| && rows[k].ScanFailed?;
        FirstFailureExists(rows, k);
      }
      forall k | 0 <= k < |rows| && rows[k].ScanFailed? && AllScanned(rows[..k])
        ensures Collected(rows) == Err(rows[k].error)
      {
        CollectedFirstFailure(rows, k);
      }
    }
  }

  /** Some row fails to scan, so some row is the first to fail and decides the result. */
  lemma {:induction false} FirstFailureExists(rows: seq<ScanOutcome>, k: nat)
    requires k < |rows| && rows[k].ScanFailed?
    ensures Collected(rows).Err?
  {
    if AllScanned(rows[..k]) {
      CollectedFirstFailure(rows, k);
    } else {
      var j :| 0 <= j < k && rows[..k][j].ScanFailed?;
      FirstFailureExists(rows, j);
    }
  }

  /** Two rows that scan are returned as two tasks, in row order, without error. */
  lemma TwoRowsExample(db: Database, t1: Task, t2: Task)
    requires db.query(ListStatement(0, "", 10, "")) == Rows([Scanned(t1), Scanned(t2)])
    ensures ListTasks(db, 0, "", 10, "") == ListReply([t1, t2], None)
  {
    var rows := [Scanned(t1), Scanned(t2)];
    assert AllScanned(rows);
    ListTasksMeaning(db, 0, "", 10, "");
  }

  /** The repository as the service sees it, backed by the given database. */
  function SqlRepository(db: Database): TaskRepository
  {
    TaskRepository(
      task => InsertTask(db, task),
      id => GetTask(db, id),
      (id, task) => UpdateTask(db, id, task),
      id => DeleteTask(db, id),
      (offset, completed, pageSize, date) => ListTasks(db, offset, completed, pageSize, date))
  }
}
