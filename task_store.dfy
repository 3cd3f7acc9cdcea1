/**
 * services/task/store.go: the task store over a SQL database. The database is a
 * table of rows plus an engine that answers statements; what the engine does with
 * a statement is left open, so every property here holds for any engine.
 */
module TaskStore {
  import opened Wrappers
  import opened GoInt
  import opened Types
  import Pagination

  /** A column value as the driver hands it over or receives it as a bound parameter. */
  datatype Value = Null | IntV(i: int) | StrV(s: string) | TimeV(t: Timestamp)

  type Row = seq<Value>

  datatype DbError =
    | EngineError(code: int)     // whatever the database or the driver reports
    | NoRows                     // sql.ErrNoRows, from QueryRow(...).Scan on an empty result
    | ColumnCount(columns: nat)  // Scan given a row with another number of columns than destinations
    | BadColumn(index: nat)      // a column whose value its destination cannot hold (NULL into a string, say)

  /** SQL text with its bound parameters, in placeholder order. */
  datatype Statement = Statement(sql: string, args: seq<Value>)

  /** The answer to a query: an error up front, or the rows it yields and the error `rows.Err()` would report. */
  datatype QueryResult =
    | QueryFailed(err: DbError)
    | Yielded(rows: seq<Row>, iterErr: Option<DbError>)

  /** The answer to an exec: an error, or the table afterwards and what `RowsAffected()` returns. */
  datatype ExecResult =
    | ExecFailed(err: DbError)
    | Executed(table: seq<Row>, rowsAffected: Result<int, DbError>)

  /** The database engine: any function from a statement and the current table to an answer. */
  datatype Engine = Engine(query: (Statement, seq<Row>) -> QueryResult, exec: (Statement, seq<Row>) -> ExecResult)

  const DefaultStatus: string := "pending"

  /** The columns scanRowsIntoTask reads, in its order, which is also the order of the listing's select list. */
  const TaskColumns: seq<string> := ["id", "user_id", "title", "description", "status", "priority", "due_date", "created_at", "updated_at"]

  /** The six columns a create or an update writes, in the order both statements name them. */
  const WrittenColumns: seq<string> := TaskColumns[1..7]

  /** `cols` separated by `sep`. */
  function Join(cols: seq<string>, sep: string): string
  {
    if |cols| == 0 then "" else if |cols| == 1 then cols[0] else cols[0] + sep + Join(cols[1..], sep)
  }

  /** `c = ?` for each column, as an UPDATE's SET list writes them. */
  function Assignments(cols: seq<string>): (r: seq<string>)
    ensures |r| == |cols|
    ensures forall i :: 0 <= i < |cols| ==> r[i] == cols[i] + " = ?"
  {
    if cols == [] then [] else [cols[0] + " = ?"] + Assignments(cols[1..])
  }

  /** `n` placeholders, as an INSERT's VALUES list writes them. */
  function Placeholders(n: nat): seq<string>
  {
    if n == 0 then [] else ["?"] + Placeholders(n - 1)
  }

  // The SQL text the store sends. The statements that list columns are spelt from the
  // column lists above, which keeps their text and the scan order in one place.
  const SelectByIdSql: string := "SELECT * FROM tasks WHERE id = ?"
  const CountSql: string := "SELECT COUNT(*) FROM tasks"
  const ListSqlHead: string := "\n\tSELECT " + Join(TaskColumns, ", ") + "\n\tFROM tasks\n\tORDER BY "
  const ListSqlTail: string := "\n\tLIMIT ? OFFSET ?"
  const InsertSql: string :=
    "INSERT INTO tasks (" + Join(WrittenColumns, ", ") + ") VALUES (" + Join(Placeholders(|WrittenColumns|), ", ") + ")"
  const UpdateSql: string := "UPDATE tasks SET " + Join(Assignments(WrittenColumns), ", ") + " WHERE id = ?"
  const DeleteSql: string := "DELETE FROM tasks WHERE id = ?"

  /** The listing query: the already validated sort key and order are the only text spliced in. */
  function ListSql(sortBy: string, order: string): (r: string)
    ensures |r| == |ListSqlHead| + |sortBy| + 1 + |order| + |ListSqlTail|
    ensures r[..|ListSqlHead|] == ListSqlHead && r[|r| - |ListSqlTail|..] == ListSqlTail
    ensures r[|ListSqlHead|..|ListSqlHead| + |sortBy|] == sortBy && r[|ListSqlHead| + |sortBy|] == ' '
    ensures r[|ListSqlHead| + |sortBy| + 1..|r| - |ListSqlTail|] == order
  {
    ListSqlHead + sortBy + " " + order + ListSqlTail
  }

  function SelectById(taskID: int): Statement
  {
    Statement(SelectByIdSql, [IntV(taskID)])
  }

  const CountStatement: Statement := Statement(CountSql, [])

  /** Sort key and order go into the text; limit, then offset, are bound to the two placeholders. */
  function ListStatement(p: Pagination.PaginationParams): (r: Statement)
    ensures r.sql == ListSql(p.sortBy, p.order)
    ensures |r.args| == 2 && r.args[0] == IntV(p.limit) && r.args[1] == IntV(p.offset)
  {
    Statement(ListSql(p.sortBy, p.order), [IntV(p.limit), IntV(p.offset)])
  }

  function NullableInt(o: Option<int>): Value
  {
    match o
    case Some(n) => IntV(n)
    case None => Null
  }

  function NullableString(o: Option<string>): Value
  {
    match o
    case Some(s) => StrV(s)
    case None => Null
  }

  function NullableTime(o: Option<Timestamp>): Value
  {
    match o
    case Some(t) => TimeV(t)
    case None => Null
  }

  function InsertStatement(t: CreateTaskPayload): Statement
  {
    Statement(InsertSql, [NullableInt(t.userId), StrV(t.title), StrV(t.description), StrV(t.status),
                          IntV(t.priority), NullableTime(t.dueDate)])
  }

  function UpdateStatement(taskID: int, t: UpdateTaskPayload): Statement
  {
    Statement(UpdateSql, [NullableInt(t.userId), NullableString(t.title), NullableString(t.description),
                          NullableString(t.status), NullableInt(t.priority), NullableTime(t.dueDate), IntV(taskID)])
  }

  function DeleteStatement(taskID: int): Statement
  {
    Statement(DeleteSql, [IntV(taskID)])
  }

  /** The row a stored task comes back as: its fields in the order of TaskColumns. */
  function TaskRow(t: Task): Row
  {
    [IntV(t.id), NullableInt(t.userId), StrV(t.title), StrV(t.description), StrV(t.status),
     IntV(t.priority), NullableTime(t.dueDate), TimeV(t.createdAt), TimeV(t.updatedAt)]
  }

  /**
   * scanRowsIntoTask: the nine columns into id, user_id, title, description, status,
   * priority, due_date, created_at and updated_at, failing on the first one that does not fit.
   */
  function ScanTask(row: Row): (r: Result<Task, DbError>)
    ensures r.Ok? <==> exists t :: row == TaskRow(t)
    ensures r.Ok? ==> TaskRow(r.value) == row
  {
    if |row| != |TaskColumns| then Err(ColumnCount(|row|))
    else if !row[0].IntV? then Err(BadColumn(0))
    else if !(row[1].Null? || row[1].IntV?) then Err(BadColumn(1))
    else if !row[2].StrV? then Err(BadColumn(2))
    else if !row[3].StrV? then Err(BadColumn(3))
    else if !row[4].StrV? then Err(BadColumn(4))
    else if !row[5].IntV? then Err(BadColumn(5))
    else if !(row[6].Null? || row[6].TimeV?) then Err(BadColumn(6))
    else if !row[7].TimeV? then Err(BadColumn(7))
    else if !row[8].TimeV? then Err(BadColumn(8))
    else
      var t := Task(row[0].i, if row[1].Null? then None else Some(row[1].i), row[2].s, row[3].s, row[4].s,
                    row[5].i, if row[6].Null? then None else Some(row[6].t), row[7].t, row[8].t);
      assert TaskRow(t) == row;
      Ok(t)
  }

  /** Scanning the row of a task gives the task back. */
  lemma ScanTaskRow(t: Task)
    ensures ScanTask(TaskRow(t)) == Ok(t)
  {
  }

  /**
   * The rows scanned in order, stopping at the first row that fails.
   * Defined on the prefix, the way the `rows.Next()` loops walk the result.
   */
  function ScanAll(rows: seq<Row>): (r: Result<seq<Task>, DbError>)
    ensures r.Ok? <==> forall i :: 0 <= i < |rows| ==> ScanTask(rows[i]).Ok?
    ensures r.Ok? ==> |r.value| == |rows| && forall i :: 0 <= i < |rows| ==> ScanTask(rows[i]) == Ok(r.value[i])
    ensures r.Err? ==> exists i :: 0 <= i < |rows| && ScanTask(rows[i]) == Err(r.error) &&
                                   forall j :: 0 <= j < i ==> ScanTask(rows[j]).Ok?
  {
    if rows == [] then Ok([])
    else
      var front := rows[..|rows| - 1];
      assert forall i :: 0 <= i < |front| ==> front[i] == rows[i];
      match ScanAll(front)
      case Err(e) => Err(e)
      case Ok(ts) =>
        match ScanTask(rows[|rows| - 1])
        case Err(e) => Err(e)
        case Ok(t) => Ok(ts + [t])
  }

  /** Once a prefix fails to scan, the whole result fails with the same error. */
  lemma {:induction false} ScanAllErrSticks(rows: seq<Row>, k: nat)
    requires k <= |rows| && ScanAll(rows[..k]).Err?
    ensures ScanAll(rows) == ScanAll(rows[..k])
    decreases |rows| - k
  {
    if k < |rows| {
      assert rows[..k + 1][..k] == rows[..k];
      ScanAllErrSticks(rows, k + 1);
    } else {
      assert rows[..k] == rows;
    }
  }

  /**
   * GetTaskByID's answer: the query's error, the first scan error, the task of the
   * last row, or the zero-valued task when no row matched.
   */
  function TaskOf(answer: QueryResult): (r: Result<Task, DbError>)
    ensures answer.QueryFailed? ==> r == Err(answer.err)
    ensures answer.Yielded? && answer.rows == [] ==> r == Ok(ZeroTask)
    ensures answer.Yielded? && answer.rows != [] && r.Ok? ==> Ok(r.value) == ScanTask(answer.rows[|answer.rows| - 1])
    ensures answer.Yielded? ==> (r.Ok? <==> forall i :: 0 <= i < |answer.rows| ==> ScanTask(answer.rows[i]).Ok?)
    ensures answer.Yielded? && ScanAll(answer.rows).Err? ==> r == Err(ScanAll(answer.rows).error)
  {
    match answer
    case QueryFailed(e) => Err(e)
    case Yielded(rows, _) =>
      match ScanAll(rows)
      case Err(e) => Err(e)
      case Ok(ts) => Ok(if ts == [] then ZeroTask else ts[|ts| - 1])
  }

  /** QueryRow(...).Scan(&total): the first row's single integer column. */
  function CountOf(answer: QueryResult): (r: Result<int, DbError>)
    ensures answer.QueryFailed? ==> r == Err(answer.err)
    ensures r.Ok? <==> answer.Yielded? && |answer.rows| > 0 && |answer.rows[0]| == 1 &&
                       answer.rows[0][0].IntV? && IsInt64(answer.rows[0][0].i)
    ensures r.Ok? ==> answer.rows[0][0] == IntV(r.value) && IsInt64(r.value)
    ensures answer.Yielded? && answer.rows == [] ==> r == Err(answer.iterErr.GetOr(NoRows))
  {
    match answer
    case QueryFailed(e) => Err(e)
    case Yielded(rows, iterErr) =>
      if rows == [] then Err(iterErr.GetOr(NoRows))
      else if |rows[0]| != 1 then Err(ColumnCount(|rows[0]|))
      else if rows[0][0].IntV? && IsInt64(rows[0][0].i) then Ok(rows[0][0].i)
      else Err(BadColumn(0))
  }

  /** The three results of GetPaginatedTasks. */
  datatype Listing = Listing(tasks: seq<Task>, total: int, err: Option<DbError>)

  /** GetPaginatedTasks' answer, given what the engine says to the count and to the listing query. */
  function ListingOf(count: QueryResult, listing: QueryResult): (r: Listing)
    ensures r.err.Some? ==> r.tasks == [] && r.total == 0
    ensures CountOf(count).Err? ==> r.err == Some(CountOf(count).error)
    ensures CountOf(count).Ok? && listing.QueryFailed? ==> r.err == Some(listing.err)
    ensures CountOf(count).Ok? && listing.Yielded? && ScanAll(listing.rows).Err? ==>
      r.err == Some(ScanAll(listing.rows).error)
    ensures r.err.None? <==> CountOf(count).Ok? && listing.Yielded? && ScanAll(listing.rows).Ok?
    ensures r.err.None? ==> r.total == CountOf(count).value
    ensures r.err.None? ==>
      (|r.tasks| == |listing.rows| &&
       forall i :: 0 <= i < |listing.rows| ==> ScanTask(listing.rows[i]) == Ok(r.tasks[i]))
  {
    match CountOf(count)
    case Err(e) => Listing([], 0, Some(e))
    case Ok(n) =>
      match listing
      case QueryFailed(e) => Listing([], 0, Some(e))
      case Yielded(rows, _) =>
        match ScanAll(rows)
        case Err(e) => Listing([], 0, Some(e))
        case Ok(ts) => Listing(ts, n, None)
  }

  /** The total is the count query's answer alone: listing another page, or any other rows, reports the same total. */
  lemma TotalIgnoresListing(count: QueryResult, listing1: QueryResult, listing2: QueryResult)
    requires ListingOf(count, listing1).err.None? && ListingOf(count, listing2).err.None?
    ensures ListingOf(count, listing1).total == ListingOf(count, listing2).total
  {
  }

  /** CreateTask's default: an empty status becomes "pending"; nothing else changes. */
  function WithDefaultStatus(t: CreateTaskPayload): (r: CreateTaskPayload)
    ensures t.status == "" ==> r == t.(status := DefaultStatus)
    ensures t.status != "" ==> r == t
    ensures r.status != ""
  {
    if t.status == "" then t.(status := DefaultStatus) else t
  }

  /** The error an exec reports when the caller discards its result. */
  function ExecError(res: ExecResult): Option<DbError>
  {
    if res.ExecFailed? then Some(res.err) else None
  }

  /** The table after an exec: unchanged when it failed. */
  function Applied(res: ExecResult, before: seq<Row>): seq<Row>
  {
    if res.ExecFailed? then before else res.table
  }

  /** DeleteTask's two results: the affected-row count, or 0 with the error. */
  function DeleteOutcome(res: ExecResult): (r: (int, Option<DbError>))
    ensures r.1.Some? ==> r.0 == 0
    ensures res.ExecFailed? ==> r == (0, Some(res.err))
    ensures res.Executed? && res.rowsAffected.Err? ==> r == (0, Some(res.rowsAffected.error))
    ensures r.1.None? <==> res.Executed? && res.rowsAffected.Ok?
    ensures r.1.None? ==> r.0 == res.rowsAffected.value
  {
    match res
    case ExecFailed(e) => (0, Some(e))
    case Executed(_, Err(e)) => (0, Some(e))
    case Executed(_, Ok(n)) => (n, None)
  }

  /**
   * The value an INSERT binds to its i-th placeholder is what the stored task's row holds
   * under the i-th column the statement names: WrittenColumns[i] is TaskColumns[i + 1].
   */
  lemma InsertBindsColumns(p: CreateTaskPayload, t: Task)
    requires t.userId == p.userId && t.title == p.title && t.description == p.description
    requires t.status == p.status && t.priority == p.priority && t.dueDate == p.dueDate
    ensures |InsertStatement(p).args| == |WrittenColumns|
    ensures forall i :: 0 <= i < |WrittenColumns| ==>
      WrittenColumns[i] == TaskColumns[i + 1] && InsertStatement(p).args[i] == TaskRow(t)[i + 1]
  {
  }

  /** A create without a status stores "pending" in the status column, and every other column as sent. */
  lemma CreateBindsPending(p: CreateTaskPayload)
    requires p.status == ""
    ensures InsertStatement(WithDefaultStatus(p)).args[3] == StrV("pending")
    ensures forall i :: 0 <= i < 6 && i != 3 ==> InsertStatement(WithDefaultStatus(p)).args[i] == InsertStatement(p).args[i]
  {
  }

  /**
   * The value an UPDATE binds to its i-th SET placeholder is what the row it leaves holds
   * under the i-th column it names; the task id goes to the last placeholder, in WHERE.
   */
  lemma UpdateBindsColumns(taskID: int, p: UpdateTaskPayload, t: Task)
    requires p.userId == t.userId && p.title == Some(t.title) && p.description == Some(t.description)
    requires p.status == Some(t.status) && p.priority == Some(t.priority) && p.dueDate == t.dueDate
    ensures |UpdateStatement(taskID, p).args| == |WrittenColumns| + 1
    ensures forall i :: 0 <= i < |WrittenColumns| ==>
      Assignments(WrittenColumns)[i] == TaskColumns[i + 1] + " = ?" && UpdateStatement(taskID, p).args[i] == TaskRow(t)[i + 1]
    ensures UpdateStatement(taskID, p).args[|WrittenColumns|] == IntV(taskID)
  {
  }

  /** Store: the tasks table, the engine that answers for it, and every statement sent so far. */
  class Store {
    const engine: Engine
    var table: seq<Row>
    var issued: seq<Statement>

    constructor (engine: Engine, table: seq<Row>)
      ensures this.engine == engine && this.table == table && issued == []
    {
      this.engine := engine;
      this.table := table;
      issued := [];
    }

    /** What the engine answers to a query against the current table. */
    function Answer(st: Statement): QueryResult
      reads this`table
    {
      engine.query(st, table)
    }

    /** What the engine does with an exec against the current table. */
    function Outcome(st: Statement): ExecResult
      reads this`table
    {
      engine.exec(st, table)
    }

    method GetTaskByID(taskID: int) returns (r: Result<Task, DbError>)
      modifies this`issued
      ensures issued == old(issued) + [SelectById(taskID)]
      ensures r == TaskOf(Answer(SelectById(taskID)))
    {
      var st := SelectById(taskID);
      issued := issued + [st];
      var answer := engine.query(st, table);
      if answer.QueryFailed? {
        return Err(answer.err);
      }
      var rows := answer.rows;
      var t := ZeroTask;
      var i := 0;
      while i < |rows|
        invariant 0 <= i <= |rows|
        invariant ScanAll(rows[..i]).Ok?
        invariant t == if i == 0 then ZeroTask else ScanAll(rows[..i]).value[i - 1]
      {
        var scanned := ScanTask(rows[i]);
        assert rows[..i + 1][..i] == rows[..i];
        if scanned.Err? {
          ScanAllErrSticks(rows, i + 1);
          return Err(scanned.error);
        }
        t := scanned.value;
        i := i + 1;
      }
      assert rows[..i] == rows;
      return Ok(t);
    }

    method GetPaginatedTasks(pagination: Pagination.PaginationParams)
      returns (tasks: seq<Task>, total: int, err: Option<DbError>)
      modifies this`issued
      ensures issued == old(issued) + [CountStatement] +
        (if CountOf(Answer(CountStatement)).Ok? then [ListStatement(pagination)] else [])
      ensures Listing(tasks, total, err) == ListingOf(Answer(CountStatement), Answer(ListStatement(pagination)))
    {
      issued := issued + [CountStatement];
      var count := CountOf(engine.query(CountStatement, table));
      if count.Err? {
        return [], 0, Some(count.error);
      }
      var st := ListStatement(pagination);
      issued := issued + [st];
      var answer := engine.query(st, table);
      if answer.QueryFailed? {
        return [], 0, Some(answer.err);
      }
      var rows := answer.rows;
      tasks := [];
      var i := 0;
      while i < |rows|
        invariant 0 <= i <= |rows|
        invariant ScanAll(rows[..i]) == Ok(tasks)
      {
        var scanned := ScanTask(rows[i]);
        assert rows[..i + 1][..i] == rows[..i];
        if scanned.Err? {
          ScanAllErrSticks(rows, i + 1);
          return [], 0, Some(scanned.error);
        }
        tasks := tasks + [scanned.value];
        i := i + 1;
      }
      assert rows[..i] == rows;
      return tasks, count.value, None;
    }

    method CreateTask(task: CreateTaskPayload) returns (err: Option<DbError>)
      modifies this
      ensures issued == old(issued) + [InsertStatement(WithDefaultStatus(task))]
      ensures err == ExecError(old(Outcome(InsertStatement(WithDefaultStatus(task)))))
      ensures table == Applied(old(Outcome(InsertStatement(WithDefaultStatus(task)))), old(table))
    {
      var t := task;
      if t.status == "" {
        t := t.(status := DefaultStatus);
      }
      var st := InsertStatement(t);
      issued := issued + [st];
      var res := engine.exec(st, table);
      table := Applied(res, table);
      return ExecError(res);
    }

    method UpdateTask(taskID: int, task: UpdateTaskPayload) returns (err: Option<DbError>)
      modifies this
      ensures issued == old(issued) + [UpdateStatement(taskID, task)]
      ensures err == ExecError(old(Outcome(UpdateStatement(taskID, task))))
      ensures table == Applied(old(Outcome(UpdateStatement(taskID, task))), old(table))
    {
      var st := UpdateStatement(taskID, task);
      issued := issued + [st];
      var res := engine.exec(st, table);
      table := Applied(res, table);
      return ExecError(res);
    }

    method DeleteTask(taskID: int) returns (rowsAffected: int, err: Option<DbError>)
      modifies this
      ensures issued == old(issued) + [DeleteStatement(taskID)]
      ensures (rowsAffected, err) == DeleteOutcome(old(Outcome(DeleteStatement(taskID))))
      ensures table == Applied(old(Outcome(DeleteStatement(taskID))), old(table))
    {
      var st := DeleteStatement(taskID);
      issued := issued + [st];
      var res := engine.exec(st, table);
      if res.ExecFailed? {
        return 0, Some(res.err);
      }
      table := res.table;
      if res.rowsAffected.Err? {
        return 0, Some(res.rowsAffected.error);
      }
      return res.rowsAffected.value, None;
    }
  }
}
