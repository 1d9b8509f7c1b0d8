/** The seven operations of the accessor. Each builds its statement, hands it to the driver,
    and turns what the driver answers into a Result: a fault never escapes, it becomes a
    failure whose message names the table. The driver is `exec`, a function from a statement
    to its outcome; what the database does with the statement is not part of this model. */
module SqlUtils {
  import opened Results
  import opened Fragments
  import opened Statements
  import opened Pagination

  /** The error of a point operation that found no row. */
  const NoData := "No data"

  /** The error of an insert that returned no row. */
  const NoDataReturned := "No data returned"

  /** What reading `count[0].count` raises when the count statement returned no row. */
  const MissingCountRow := "TypeError: Cannot read properties of undefined (reading 'count')"

  /** The key column of the updates when the caller leaves it undefined. */
  function IdColumn(idColumn: Option<string>): (c: string)
    ensures idColumn.None? ==> c == "id"
    ensures idColumn.Some? ==> c == idColumn.value
  {
    if idColumn.Some? then idColumn.value else "id"
  }

  /** The first returned row as a success, or the given error when no row came back. */
  function FirstRow<Row>(rows: seq<Row>, absent: string): (r: Result<Row, string>)
    ensures r.Success? <==> |rows| > 0
    ensures r.Success? ==> r.value == rows[0]
    ensures r.Failure? ==> r.error == absent
  {
    if |rows| > 0 then Success(rows[0]) else Failure(absent)
  }

  // ---- Error messages

  /** getSingleObj's message embeds the looked-up value, not the fault. */
  function GetSingleObjError(table: string, queryValue: Value): (e: string)
    ensures Mentions(e, table) && Mentions(e, ValueText(queryValue))
  {
    var e := "Failed to get data from table(" + table + "): " + ValueText(queryValue);
    MentionsMiddle("Failed to get data from table(", table, "): " + ValueText(queryValue));
    assert e == "Failed to get data from table(" + table + ("): " + ValueText(queryValue));
    MentionsMiddle("Failed to get data from table(" + table + "): ", ValueText(queryValue), "");
    assert e == "Failed to get data from table(" + table + "): " + ValueText(queryValue) + "";
    e
  }

  /** The message of both list operations: the table, the filter value (`undefined` when
      absent) and the fault. */
  function ListError(table: string, queryValue: Option<Value>, cause: string): (e: string)
    ensures Mentions(e, table) && Mentions(e, ValueText(ValueOrUndefined(queryValue))) && EndsWith(e, cause)
  {
    var v := ValueText(ValueOrUndefined(queryValue));
    var rest := "-" + v + "): ";
    var e := "Failed to get data from table(" + table + rest + cause;
    MentionsMiddle("Failed to get data from table(", table, rest + cause);
    assert e == "Failed to get data from table(" + table + (rest + cause);
    MentionsMiddle("Failed to get data from table(" + table + "-", v, "): " + cause);
    assert e == "Failed to get data from table(" + table + "-" + v + ("): " + cause);
    EndsWithAppend("Failed to get data from table(" + table + rest, cause);
    e
  }

  function UpdateColumnError(table: string, column: string, cause: string): (e: string)
    ensures Mentions(e, table) && Mentions(e, column) && EndsWith(e, cause)
  {
    var e := "Updating " + table + "(" + column + ") failed: " + cause;
    MentionsMiddle("Updating ", table, "(" + column + ") failed: " + cause);
    assert e == "Updating " + table + ("(" + column + ") failed: " + cause);
    MentionsMiddle("Updating " + table + "(", column, ") failed: " + cause);
    assert e == "Updating " + table + "(" + column + (") failed: " + cause);
    EndsWithAppend("Updating " + table + "(" + column + ") failed: ", cause);
    e
  }

  function UpdateError(table: string, cause: string): (e: string)
    ensures Mentions(e, table) && EndsWith(e, cause)
  {
    var e := "Updating " + table + " failed: " + cause;
    MentionsMiddle("Updating ", table, " failed: " + cause);
    assert e == "Updating " + table + (" failed: " + cause);
    EndsWithAppend("Updating " + table + " failed: ", cause);
    e
  }

  function DeleteError(table: string, id: int, cause: string): (e: string)
    ensures Mentions(e, table) && Mentions(e, IntText(id)) && EndsWith(e, cause)
  {
    var e := "Deleting " + table + "(" + IntText(id) + ") failed: " + cause;
    MentionsMiddle("Deleting ", table, "(" + IntText(id) + ") failed: " + cause);
    assert e == "Deleting " + table + ("(" + IntText(id) + ") failed: " + cause);
    MentionsMiddle("Deleting " + table + "(", IntText(id), ") failed: " + cause);
    assert e == "Deleting " + table + "(" + IntText(id) + (") failed: " + cause);
    EndsWithAppend("Deleting " + table + "(" + IntText(id) + ") failed: ", cause);
    e
  }

  function InsertError(table: string, cause: string): (e: string)
    ensures Mentions(e, table) && EndsWith(e, cause)
  {
    var e := "Inserting into " + table + " failed: " + cause;
    MentionsMiddle("Inserting into ", table, " failed: " + cause);
    assert e == "Inserting into " + table + (" failed: " + cause);
    EndsWithAppend("Inserting into " + table + " failed: ", cause);
    e
  }

  // ---- getSingleObj

  /** Success with the first row exactly when the lookup returned a row; "No data" when it
      returned none; on a fault, a message with the table and the value, whatever the fault. */
  function GetSingleObj<Row>(table: string, queryParam: string, queryValue: Value, exec: Statement -> Outcome<Row>)
    : (r: Result<Row, string>)
    ensures var o := exec(GetSingleObjStatement(table, queryParam, queryValue));
      (r.Success? <==> o.Rows? && |o.rows| > 0) &&
      (r.Success? ==> r.value == o.rows[0]) &&
      (o.Rows? && o.rows == [] ==> r == Failure(NoData)) &&
      (o.Fault? ==> r == Failure(GetSingleObjError(table, queryValue)))
  {
    match exec(GetSingleObjStatement(table, queryParam, queryValue))
    case Fault(_) => Failure(GetSingleObjError(table, queryValue))
    case Rows(rows) => FirstRow(rows, NoData)
  }

  // ---- getAllObjs

  /** Success with every returned row, none at all included; a fault becomes a failure. */
  function GetAllObjs<Row>(table: string, options: ListOptions, exec: Statement -> Outcome<Row>)
    : (r: Result<seq<Row>, string>)
    ensures var o := exec(GetAllObjsStatement(table, options));
      (r.Success? <==> o.Rows?) &&
      (o.Rows? ==> r.value == o.rows) &&
      (o.Fault? ==> r.error == ListError(table, options.queryValue, o.message))
  {
    match exec(GetAllObjsStatement(table, options))
    case Fault(message) => Failure(ListError(table, options.queryValue, message))
    case Rows(rows) => Success(rows)
  }

  // ---- getAllObjsPaginated

  /** The option bag of the paginated list; an absent bag is one whose fields are all absent. */
  datatype PageOptions = PageOptions(
    queryParam: Option<string>,
    queryValue: Option<Value>,
    page: Option<int>,
    pageSize: Option<int>)

  /** One page of rows with the total the filter matches and the number of pages it spans. */
  datatype Page<Row> = Page(data: seq<Row>, total: int, pageCount: int)

  /** The page the options select: its statement reads pageSize rows from row (page - 1) * pageSize. */
  function PageQuery(table: string, options: PageOptions): Statement {
    var pageSize := PageSize(options.pageSize);
    PageStatement(table, Filter(options.queryParam, options.queryValue), pageSize, Offset(PageNumber(options.page), pageSize))
  }

  function CountQuery(table: string, options: PageOptions): Statement {
    CountStatement(table, Filter(options.queryParam, options.queryValue))
  }

  /** Counts the filtered rows, then reads one page of them. `countOf` is the number the
      driver's count row converts to. Success carries the page's rows, the total from the
      first count row and the ceiling of total / pageSize; the count is run first, and a fault
      of either statement, or a count without a row, becomes a failure. */
  function GetAllObjsPaginated<Row>(table: string, options: PageOptions, countOf: Row -> nat, exec: Statement -> Outcome<Row>)
    : (r: Result<Page<Row>, string>)
    ensures var count := exec(CountQuery(table, options));
      var page := exec(PageQuery(table, options));
      var pageSize := PageSize(options.pageSize);
      (r.Success? <==> count.Rows? && count.rows != [] && page.Rows?) &&
      (r.Success? ==> r.value.data == page.rows && r.value.total == countOf(count.rows[0])) &&
      (r.Success? && pageSize > 0 ==>
        (r.value.pageCount - 1) * pageSize < r.value.total <= r.value.pageCount * pageSize) &&
      (r.Success? && pageSize < 0 ==>
        r.value.pageCount * pageSize <= r.value.total < (r.value.pageCount - 1) * pageSize) &&
      (count.Fault? ==> r == Failure(ListError(table, options.queryValue, count.message))) &&
      (count.Rows? && count.rows == [] ==> r == Failure(ListError(table, options.queryValue, MissingCountRow))) &&
      (count.Rows? && count.rows != [] && page.Fault? ==> r == Failure(ListError(table, options.queryValue, page.message)))
  {
    var pageSize := PageSize(options.pageSize);
    match exec(CountQuery(table, options))
    case Fault(message) => Failure(ListError(table, options.queryValue, message))
    case Rows(counted) =>
      if counted == [] then Failure(ListError(table, options.queryValue, MissingCountRow))
      else
        var total := countOf(counted[0]);
        var pageCount := PageCount(total, pageSize);
        PageCountIsCeiling(total, pageSize);
        match exec(PageQuery(table, options))
        case Fault(message) => Failure(ListError(table, options.queryValue, message))
        case Rows(rows) => Success(Page(rows, total, pageCount))
  }

  // ---- updateSingleColumn

  /** Success with the first updated row exactly when a row came back; "No data" when none
      did; a fault becomes a failure naming the table and the column. */
  function UpdateSingleColumn<Row>(
    table: string, column: string, value: Value, idQuery: int, idColumn: Option<string>,
    exec: Statement -> Outcome<Row>)
    : (r: Result<Row, string>)
    ensures var o := exec(UpdateSingleColumnStatement(table, column, value, idQuery, IdColumn(idColumn)));
      (r.Success? <==> o.Rows? && |o.rows| > 0) &&
      (r.Success? ==> r.value == o.rows[0]) &&
      (o.Rows? && o.rows == [] ==> r == Failure(NoData)) &&
      (o.Fault? ==> r == Failure(UpdateColumnError(table, column, o.message)))
  {
    match exec(UpdateSingleColumnStatement(table, column, value, idQuery, IdColumn(idColumn)))
    case Fault(message) => Failure(UpdateColumnError(table, column, message))
    case Rows(rows) => FirstRow(rows, NoData)
  }

  // ---- updateData

  /** How updateData reads the driver's answer: the first returned row, "No data" when none
      came back, and a failure naming the table on a fault. */
  function UpdateDataResult<Row>(table: string, o: Outcome<Row>): (r: Result<Row, string>)
    ensures r.Success? <==> o.Rows? && |o.rows| > 0
    ensures r.Success? ==> r.value == o.rows[0]
    ensures o.Rows? && o.rows == [] ==> r == Failure(NoData)
    ensures o.Fault? ==> r == Failure(UpdateError(table, o.message))
  {
    match o
    case Fault(message) => Failure(UpdateError(table, message))
    case Rows(rows) => FirstRow(rows, NoData)
  }

  /** Builds the SET list one own property at a time, as the source's loop does, then runs
      the update; the statement it runs is UpdateDataStatement, whose meaning
      UpdateDataStatementMeaning states. */
  method UpdateData<Row>(
    table: string, updateData: InputData, idQuery: int, idColumn: Option<string>,
    exec: Statement -> Outcome<Row>)
    returns (r: Result<Row, string>)
    ensures r == UpdateDataResult(table, exec(UpdateDataStatement(table, updateData, idQuery, IdColumn(idColumn))))
  {
    var setClauses: seq<Statement> := [];
    for i := 0 to |updateData|
      invariant setClauses == SetClauses(updateData[..i])
    {
      assert updateData[..i + 1][..i] == updateData[..i];
      var p := updateData[i];
      if p.own {
        setClauses := setClauses + [Assignment((p.column, p.value))];
      }
    }
    assert updateData[..|updateData|] == updateData;
    var query := UpdateStatement(table, setClauses, idQuery, IdColumn(idColumn));
    r := UpdateDataResult(table, exec(query));
  }

  // ---- deleteSingleRow

  /** Success whenever the driver raises no fault, whether or not a row was deleted. */
  function DeleteSingleRow<Row>(table: string, id: int, exec: Statement -> Outcome<Row>): (r: Result<(), string>)
    ensures var o := exec(DeleteStatement(table, id));
      (r.Success? <==> o.Rows?) &&
      (o.Fault? ==> r == Failure(DeleteError(table, id, o.message)))
  {
    match exec(DeleteStatement(table, id))
    case Fault(message) => Failure(DeleteError(table, id, message))
    case Rows(_) => Success(())
  }

  // ---- insertData

  /** How insertData reads the driver's answer: the first returned row, "No data returned"
      when none came back, and a failure naming the table on a fault. */
  function InsertDataResult<Row>(table: string, o: Outcome<Row>): (r: Result<Row, string>)
    ensures r.Success? <==> o.Rows? && |o.rows| > 0
    ensures r.Success? ==> r.value == o.rows[0]
    ensures o.Rows? && o.rows == [] ==> r == Failure(NoDataReturned)
    ensures o.Fault? ==> r == Failure(InsertError(table, o.message))
  {
    match o
    case Fault(message) => Failure(InsertError(table, message))
    case Rows(rows) => FirstRow(rows, NoDataReturned)
  }

  /** Builds the column and value lists one own property at a time, the first without a
      comma, as the source's loop does, then runs the insert; the statement it runs is
      InsertDataStatement, whose meaning InsertDataStatementHoles and InsertListsSplit state. */
  method InsertData<Row>(table: string, insertData: InputData, exec: Statement -> Outcome<Row>)
    returns (r: Result<Row, string>)
    ensures r == InsertDataResult(table, exec(InsertDataStatement(table, insertData)))
  {
    var columns: seq<Statement> := [];
    var values: seq<Statement> := [];
    var isFirst := true;
    for i := 0 to |insertData|
      invariant (columns, values, isFirst) == InsertScan(insertData[..i])
    {
      assert insertData[..i + 1][..i] == insertData[..i];
      var p := insertData[i];
      if p.own {
        if !isFirst {
          columns := columns + [[Kw(","), Ident(p.column)]];
          values := values + [[Kw(","), Param(p.value)]];
        } else {
          columns := columns + [[Ident(p.column)]];
          values := values + [[Param(p.value)]];
          isFirst := false;
        }
      }
    }
    assert insertData[..|insertData|] == insertData;
    var query := InsertStatement(table, columns, values);
    r := InsertDataResult(table, exec(query));
  }
}
