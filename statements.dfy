/** The statements the seven operations send to the driver, and the decoders that read the
    caller's options, assignments and column/value pairs back out of them. */
module Statements {
  import opened Results
  import opened Fragments

  // ---- Input data

  /** One property `for (const column in data)` visits, in the order it visits them;
      `own` is the answer of `data.hasOwnProperty(column)`. */
  datatype Prop = Prop(column: string, value: Value, own: bool)

  type InputData = seq<Prop>

  /** The (column, value) pairs of the own properties, in visiting order. */
  function OwnFields(data: InputData): seq<(string, Value)>
  {
    if data == [] then []
    else
      var p := data[|data| - 1];
      OwnFields(data[..|data| - 1]) + (if p.own then [(p.column, p.value)] else [])
  }

  // ---- Point lookup (getSingleObj)

  /** `select * from <table> where <queryParam> = <queryValue>`: one equality predicate. */
  function GetSingleObjStatement(table: string, queryParam: string, queryValue: Value): (s: Statement)
    ensures Safe(s)
    ensures Holes(s) == [Ident(table), Ident(queryParam), Param(queryValue)]
  {
    var s := [Kw("select * from"), Ident(table), Kw("where"), Ident(queryParam), Kw("="), Param(queryValue)];
    assert Holes(s[5..]) == [Param(queryValue)];
    assert Holes(s[3..]) == [Ident(queryParam), Param(queryValue)];
    assert Holes(s[1..]) == [Ident(table), Ident(queryParam), Param(queryValue)];
    s
  }

  // ---- Filtered, ordered, limited list (getAllObjs)

  /** The option bag of the list operations; an absent bag is one whose fields are all absent. */
  datatype ListOptions = ListOptions(
    queryParam: Option<string>,
    queryValue: Option<Value>,
    limit: Option<int>,
    order: Option<string>)

  datatype Direction = Asc | Desc

  /** The clauses a list statement carries, after the option bag's truthiness tests. */
  datatype Clauses = Clauses(filter: Option<(string, Value)>, order: Option<Direction>, limit: Option<int>)

  /** The value an absent `queryValue!` stands for: `undefined`. */
  function ValueOrUndefined(v: Option<Value>): Value {
    if v.Some? then v.value else Undefined
  }

  /** The filter `options?.queryParam ? WHERE ... : nothing` selects: present exactly when the
      column name is a non-empty string. */
  function Filter(queryParam: Option<string>, queryValue: Option<Value>): (f: Option<(string, Value)>)
    ensures f.Some? <==> queryParam.Some? && queryParam.value != ""
    ensures f.Some? ==> f.value == (queryParam.value, ValueOrUndefined(queryValue))
  {
    if queryParam.Some? && queryParam.value != "" then Some((queryParam.value, ValueOrUndefined(queryValue)))
    else None
  }

  /** The clauses an option bag asks for: a WHERE for a non-empty column name, ORDER BY id DESC
      for "DESC", ORDER BY id ASC for any other non-empty order, a LIMIT for a non-zero limit. */
  function ListClauses(o: ListOptions): (c: Clauses)
    ensures c.filter == Filter(o.queryParam, o.queryValue)
    ensures c.order == Some(Desc) <==> o.order == Some("DESC")
    ensures c.order == Some(Asc) <==> o.order.Some? && o.order.value != "" && o.order.value != "DESC"
    ensures c.order == None <==> o.order == None || o.order == Some("")
    ensures c.limit.Some? <==> o.limit.Some? && o.limit.value != 0
    ensures c.limit.Some? ==> c.limit == o.limit
  {
    Clauses(
      Filter(o.queryParam, o.queryValue),
      if o.order.None? || o.order.value == "" then None
      else if o.order.value == "DESC" then Some(Desc) else Some(Asc),
      if o.limit.Some? && o.limit.value != 0 then o.limit else None)
  }

  function Where(filter: Option<(string, Value)>): (s: Statement)
    ensures Safe(s)
  {
    match filter
    case None => []
    case Some((column, value)) => [Kw("WHERE"), Ident(column), Kw("="), Param(value)]
  }

  function OrderBy(order: Option<Direction>): (s: Statement)
    ensures Safe(s)
  {
    match order
    case None => []
    case Some(Desc) => [Kw("ORDER BY id DESC")]
    case Some(Asc) => [Kw("ORDER BY id ASC")]
  }

  function Limit(limit: Option<int>): (s: Statement)
    ensures Safe(s)
  {
    match limit
    case None => []
    case Some(n) => [Kw("LIMIT"), Param(Number(n))]
  }

  /** `SELECT * FROM <table> [WHERE ..] [ORDER BY ..] [LIMIT ..];` for the given clauses. */
  function ListStatement(table: string, c: Clauses): (s: Statement)
    ensures Safe(s)
  {
    SafeAppend([Kw("SELECT * FROM"), Ident(table)], Where(c.filter));
    SafeAppend([Kw("SELECT * FROM"), Ident(table)] + Where(c.filter), OrderBy(c.order));
    SafeAppend([Kw("SELECT * FROM"), Ident(table)] + Where(c.filter) + OrderBy(c.order), Limit(c.limit));
    SafeAppend([Kw("SELECT * FROM"), Ident(table)] + Where(c.filter) + OrderBy(c.order) + Limit(c.limit), [Kw(";")]);
    [Kw("SELECT * FROM"), Ident(table)] + Where(c.filter) + OrderBy(c.order) + Limit(c.limit) + [Kw(";")]
  }

  /** A leading WHERE clause, if the statement starts with one, and what follows it. */
  function SplitWhere(s: Statement): (Option<(string, Value)>, Statement) {
    if |s| >= 4 && s[0] == Kw("WHERE") && s[1].Ident? && s[2] == Kw("=") && s[3].Param?
    then (Some((s[1].name, s[3].value)), s[4..])
    else (None, s)
  }

  /** A leading ORDER BY clause, if the statement starts with one, and what follows it. */
  function SplitOrder(s: Statement): (Option<Direction>, Statement) {
    if |s| >= 1 && s[0] == Kw("ORDER BY id DESC") then (Some(Desc), s[1..])
    else if |s| >= 1 && s[0] == Kw("ORDER BY id ASC") then (Some(Asc), s[1..])
    else (None, s)
  }

  /** The LIMIT clause that ends a list statement: Some(None) when there is none, None when
      what is left is not a LIMIT clause. */
  function SplitLimit(s: Statement): Option<Option<int>> {
    if s == [] then Some(None)
    else if |s| == 2 && s[0] == Kw("LIMIT") && s[1].Param? && s[1].value.Number? then Some(Some(s[1].value.n))
    else None
  }

  /** Reads the clauses back out of what lies between a list statement's table and its
      semicolon; None when that is not a sequence of optional clauses. */
  function ParseClauses(body: Statement): Option<Clauses> {
    var (filter, afterWhere) := SplitWhere(body);
    var (order, afterOrder) := SplitOrder(afterWhere);
    match SplitLimit(afterOrder)
    case None => None
    case Some(limit) => Some(Clauses(filter, order, limit))
  }

  /** Reads the table and the clauses back out of a list statement; None for any other shape. */
  function ParseList(s: Statement): Option<(string, Clauses)> {
    if |s| < 3 || s[0] != Kw("SELECT * FROM") || !s[1].Ident? || s[|s| - 1] != Kw(";") then None
    else
      match ParseClauses(s[2..|s| - 1])
      case None => None
      case Some(c) => Some((s[1].name, c))
  }

  lemma SplitWhereOf(filter: Option<(string, Value)>, rest: Statement)
    requires rest == [] || rest[0] != Kw("WHERE")
    ensures SplitWhere(Where(filter) + rest) == (filter, rest)
  {
    if filter.Some? {
      assert (Where(filter) + rest)[4..] == rest;
    } else {
      assert Where(filter) + rest == rest;
    }
  }

  lemma SplitOrderOf(order: Option<Direction>, rest: Statement)
    requires rest == [] || (rest[0] != Kw("ORDER BY id DESC") && rest[0] != Kw("ORDER BY id ASC"))
    ensures SplitOrder(OrderBy(order) + rest) == (order, rest)
  {
    if order.Some? {
      assert (OrderBy(order) + rest)[1..] == rest;
    } else {
      assert OrderBy(order) + rest == rest;
    }
  }

  /** A list statement determines its table and clauses: each clause is emitted whole or not at
      all, and no clause can be mistaken for another. */
  lemma ParseListStatement(table: string, c: Clauses)
    ensures ParseList(ListStatement(table, c)) == Some((table, c))
  {
    var body := Where(c.filter) + (OrderBy(c.order) + Limit(c.limit));
    ParseClausesOf(c);
    ParseListFrame(table, body);
    assert ListStatement(table, c) == [Kw("SELECT * FROM"), Ident(table)] + body + [Kw(";")];
  }

  lemma ParseClausesOf(c: Clauses)
    ensures ParseClauses(Where(c.filter) + (OrderBy(c.order) + Limit(c.limit))) == Some(c)
  {
    SplitWhereOf(c.filter, OrderBy(c.order) + Limit(c.limit));
    SplitOrderOf(c.order, Limit(c.limit));
  }

  lemma ParseListFrame(table: string, body: Statement)
    ensures ParseList([Kw("SELECT * FROM"), Ident(table)] + body + [Kw(";")])
      == match ParseClauses(body) case None => None case Some(c) => Some((table, c))
  {
    var s := [Kw("SELECT * FROM"), Ident(table)] + body + [Kw(";")];
    assert s[2..|s| - 1] == body;
  }

  /** The statement getAllObjs sends for a table and an option bag. */
  function GetAllObjsStatement(table: string, o: ListOptions): (s: Statement)
    ensures Safe(s)
    ensures ParseList(s) == Some((table, ListClauses(o)))
  {
    ParseListStatement(table, ListClauses(o));
    ListStatement(table, ListClauses(o))
  }

  /** A fragment is in a list statement exactly when it is in its head, in one of its three
      optional clauses, or is its closing semicolon. */
  lemma ListStatementMembers(table: string, c: Clauses, f: Frag)
    ensures f in ListStatement(table, c) <==>
      f in [Kw("SELECT * FROM"), Ident(table)] || f in Where(c.filter) || f in OrderBy(c.order) ||
      f in Limit(c.limit) || f == Kw(";")
  {
  }

  /** In a list statement, each clause keyword is present exactly when its clause is. */
  lemma ListStatementKeywords(table: string, c: Clauses)
    ensures var s := ListStatement(table, c);
      (Kw("WHERE") in s <==> c.filter.Some?) &&
      (Kw("ORDER BY id DESC") in s <==> c.order == Some(Desc)) &&
      (Kw("ORDER BY id ASC") in s <==> c.order == Some(Asc)) &&
      (Kw("LIMIT") in s <==> c.limit.Some?) &&
      (c.limit.Some? ==> Param(Number(c.limit.value)) in s)
  {
    ListStatementMembers(table, c, Kw("WHERE"));
    ListStatementMembers(table, c, Kw("ORDER BY id DESC"));
    ListStatementMembers(table, c, Kw("ORDER BY id ASC"));
    ListStatementMembers(table, c, Kw("LIMIT"));
    if c.limit.Some? {
      ListStatementMembers(table, c, Param(Number(c.limit.value)));
    }
  }

  /** Each optional clause of getAllObjs is present exactly when its option is truthy, and
      only the ordering the option names is emitted. */
  lemma GetAllObjsClauses(table: string, o: ListOptions)
    ensures var s := GetAllObjsStatement(table, o);
      (Kw("WHERE") in s <==> o.queryParam.Some? && o.queryParam.value != "") &&
      (Kw("ORDER BY id DESC") in s <==> o.order == Some("DESC")) &&
      (Kw("ORDER BY id ASC") in s <==> o.order.Some? && o.order.value != "" && o.order.value != "DESC") &&
      (Kw("LIMIT") in s <==> o.limit.Some? && o.limit.value != 0) &&
      (o.limit.Some? && o.limit.value != 0 ==> Param(Number(o.limit.value)) in s)
  {
    ListStatementKeywords(table, ListClauses(o));
  }

  // ---- Paginated list (getAllObjsPaginated)

  /** `SELECT COUNT(*) FROM <table> [WHERE ..]` */
  function CountStatement(table: string, filter: Option<(string, Value)>): (s: Statement)
    ensures Safe(s)
  {
    SafeAppend([Kw("SELECT COUNT(*) FROM"), Ident(table)], Where(filter));
    [Kw("SELECT COUNT(*) FROM"), Ident(table)] + Where(filter)
  }

  /** `SELECT * FROM <table> [WHERE ..] ORDER BY id LIMIT <pageSize> OFFSET <offset>` */
  function PageStatement(table: string, filter: Option<(string, Value)>, pageSize: int, offset: int): (s: Statement)
    ensures Safe(s)
  {
    var tail := [Kw("ORDER BY id"), Kw("LIMIT"), Param(Number(pageSize)), Kw("OFFSET"), Param(Number(offset))];
    SafeAppend([Kw("SELECT * FROM"), Ident(table)], Where(filter));
    SafeAppend([Kw("SELECT * FROM"), Ident(table)] + Where(filter), tail);
    [Kw("SELECT * FROM"), Ident(table)] + Where(filter) + tail
  }

  /** The count and the page read the same rows: after their two leading fragments both carry
      the same optional WHERE, and the page then always ends with the ordering and the window. */
  lemma CountAndPageShareFilter(
    table: string, filter: Option<(string, Value)>, pageSize: int, offset: int)
    ensures var count := CountStatement(table, filter);
      var page := PageStatement(table, filter, pageSize, offset);
      |page| == |count| + 5 &&
      count[2..] == page[2..|page| - 5] &&
      (filter.Some? <==> Kw("WHERE") in count) &&
      (filter.Some? <==> Kw("WHERE") in page) &&
      page[|page| - 5..] == [Kw("ORDER BY id"), Kw("LIMIT"), Param(Number(pageSize)), Kw("OFFSET"), Param(Number(offset))]
  {
    var count := CountStatement(table, filter);
    var page := PageStatement(table, filter, pageSize, offset);
    assert count[2..] == Where(filter);
    assert page[2..|page| - 5] == Where(filter);
  }

  // ---- Update of one column (updateSingleColumn)

  /** `update <table> set <column> = <value>, updated_at = now() where <idColumn> = <idQuery> returning *` */
  function UpdateSingleColumnStatement(table: string, column: string, value: Value, idQuery: int, idColumn: string): (s: Statement)
    ensures Safe(s)
    ensures Holes(s) == [Ident(table), Ident(column), Param(value), Ident(idColumn), Param(Number(idQuery))]
  {
    var head := [Kw("update"), Ident(table), Kw("set")];
    var tail := [Kw("updated_at = now()"), Kw("where"), Ident(idColumn), Kw("="), Param(Number(idQuery)), Kw("returning *")];
    UpdateShapeHoles("update", "set", "where", "returning *", table, Assignment((column, value)), idColumn, Number(idQuery));
    AssignmentHoles((column, value));
    SafeAppend(head, Assignment((column, value)));
    SafeAppend(head + Assignment((column, value)), tail);
    head + Assignment((column, value)) + tail
  }

  /** The holes of an update statement, whatever the case of its keywords: the table, those of
      its assignments, then the key column and the key value. */
  lemma UpdateShapeHoles(update: string, setKw: string, where: string, returning: string,
                         table: string, assignments: Statement, idColumn: string, idValue: Value)
    ensures Holes([Kw(update), Ident(table), Kw(setKw)] + assignments +
                  [Kw("updated_at = now()"), Kw(where), Ident(idColumn), Kw("="), Param(idValue), Kw(returning)])
      == [Ident(table)] + Holes(assignments) + [Ident(idColumn), Param(idValue)]
  {
    var head := [Kw(update), Ident(table), Kw(setKw)];
    var tail := [Kw("updated_at = now()"), Kw(where), Ident(idColumn), Kw("="), Param(idValue), Kw(returning)];
    HolesAppend(head, assignments);
    HolesAppend(head + assignments, tail);
    assert Holes(head[2..]) == [];
    assert Holes(head) == [Ident(table)];
    assert Holes(tail[5..]) == [];
    assert Holes(tail[4..]) == [Param(idValue)];
    assert Holes(tail[3..]) == [Param(idValue)];
    assert Holes(tail[2..]) == [Ident(idColumn), Param(idValue)];
    assert Holes(tail[1..]) == [Ident(idColumn), Param(idValue)];
  }

  lemma AssignmentHoles(f: (string, Value))
    ensures Holes(Assignment(f)) == [Ident(f.0), Param(f.1)]
  {
    var a := Assignment(f);
    assert Holes(a[3..]) == [];
    assert Holes(a[2..]) == [Param(f.1)];
    assert Holes(a[1..]) == [Param(f.1)];
  }

  // ---- Update of many columns (updateData)

  /** `<column> = <value>,`: one element of the SET list. */
  function Assignment(f: (string, Value)): Statement {
    [Ident(f.0), Kw("="), Param(f.1), Kw(",")]
  }

  /** The array of assignments the loop of updateData pushes, one per own property. */
  function SetClauses(data: InputData): seq<Statement> {
    if data == [] then []
    else
      var p := data[|data| - 1];
      SetClauses(data[..|data| - 1]) + (if p.own then [Assignment((p.column, p.value))] else [])
  }

  /** `UPDATE <table> SET <setClauses> updated_at = now() WHERE <idColumn> = <idQuery> RETURNING *` */
  function UpdateStatement(table: string, setClauses: seq<Statement>, idQuery: int, idColumn: string): Statement {
    [Kw("UPDATE"), Ident(table), Kw("SET")] + Flatten(setClauses) +
    [Kw("updated_at = now()"), Kw("WHERE"), Ident(idColumn), Kw("="), Param(Number(idQuery)), Kw("RETURNING *")]
  }

  /** What an update statement says: which row of which table, and which columns it sets. */
  datatype UpdateTarget = UpdateTarget(table: string, assignments: seq<(string, Value)>, idColumn: string, idValue: Value)

  /** The assignments of a SET list that ends in `updated_at = now()`, or None. */
  function DecodeSetList(s: Statement): Option<seq<(string, Value)>>
    decreases |s|
  {
    if s == [Kw("updated_at = now()")] then Some([])
    else if |s| >= 4 && s[0].Ident? && s[1] == Kw("=") && s[2].Param? && s[3] == Kw(",") then
      match DecodeSetList(s[4..])
      case None => None
      case Some(rest) => Some([(s[0].name, s[2].value)] + rest)
    else None
  }

  /** Reads the target back out of an update statement; None for any other shape. */
  function ParseUpdate(s: Statement): Option<UpdateTarget> {
    if |s| < 9 || s[0] != Kw("UPDATE") || !s[1].Ident? || s[2] != Kw("SET") then None
    else
      var tail := s[|s| - 5..];
      if tail[0] != Kw("WHERE") || !tail[1].Ident? || tail[2] != Kw("=") || !tail[3].Param? || tail[4] != Kw("RETURNING *")
      then None
      else
        match DecodeSetList(s[3..|s| - 5])
        case None => None
        case Some(fs) => Some(UpdateTarget(s[1].name, fs, tail[1].name, tail[3].value))
  }

  /** The assignments of a list of fields, in order. */
  function AssignmentList(fs: seq<(string, Value)>): Statement {
    if fs == [] then [] else Assignment(fs[0]) + AssignmentList(fs[1..])
  }

  lemma {:induction false} AssignmentListSnoc(fs: seq<(string, Value)>, f: (string, Value))
    ensures AssignmentList(fs + [f]) == AssignmentList(fs) + Assignment(f)
  {
    if fs == [] {
      assert fs + [f] == [f];
      assert AssignmentList([f]) == Assignment(f) + AssignmentList([]);
    } else {
      assert (fs + [f])[1..] == fs[1..] + [f];
      AssignmentListSnoc(fs[1..], f);
    }
  }

  /** The loop emits exactly one assignment per own property, in visiting order. */
  lemma {:induction false} SetClausesAreOwnFields(data: InputData)
    ensures |SetClauses(data)| == |OwnFields(data)|
    ensures Flatten(SetClauses(data)) == AssignmentList(OwnFields(data))
  {
    if data != [] {
      var init := data[..|data| - 1];
      var p := data[|data| - 1];
      SetClausesAreOwnFields(init);
      if p.own {
        FlattenSnoc(SetClauses(init), Assignment((p.column, p.value)));
        AssignmentListSnoc(OwnFields(init), (p.column, p.value));
      } else {
        assert SetClauses(data) == SetClauses(init);
        assert OwnFields(data) == OwnFields(init);
      }
    }
  }

  lemma {:induction false} DecodeAssignmentList(fs: seq<(string, Value)>)
    ensures DecodeSetList(AssignmentList(fs) + [Kw("updated_at = now()")]) == Some(fs)
  {
    if fs != [] {
      var s := AssignmentList(fs) + [Kw("updated_at = now()")];
      assert s == Assignment(fs[0]) + (AssignmentList(fs[1..]) + [Kw("updated_at = now()")]);
      assert s[4..] == AssignmentList(fs[1..]) + [Kw("updated_at = now()")];
      DecodeAssignmentList(fs[1..]);
      assert [fs[0]] + fs[1..] == fs;
    }
  }

  /** The statement updateData sends for a table, an input object and the row's key. */
  function UpdateDataStatement(table: string, data: InputData, idQuery: int, idColumn: string): Statement {
    UpdateStatement(table, SetClauses(data), idQuery, idColumn)
  }

  /** An updateData statement sets the own properties, in visiting order, then always
      updated_at, and it keys on idColumn = idQuery. */
  lemma UpdateDataStatementMeaning(table: string, data: InputData, idQuery: int, idColumn: string)
    ensures ParseUpdate(UpdateDataStatement(table, data, idQuery, idColumn))
      == Some(UpdateTarget(table, OwnFields(data), idColumn, Number(idQuery)))
  {
    var setList := Flatten(SetClauses(data)) + [Kw("updated_at = now()")];
    SetClausesAreOwnFields(data);
    DecodeAssignmentList(OwnFields(data));
    UpdateStatementRegroup(table, SetClauses(data), idQuery, idColumn);
    ParseUpdateFrame(table, setList, idColumn, Number(idQuery));
  }

  /** An update statement read as its head, its SET list ending in updated_at, and its key. */
  lemma UpdateStatementRegroup(table: string, setClauses: seq<Statement>, idQuery: int, idColumn: string)
    ensures UpdateStatement(table, setClauses, idQuery, idColumn)
      == [Kw("UPDATE"), Ident(table), Kw("SET")] + (Flatten(setClauses) + [Kw("updated_at = now()")]) +
         [Kw("WHERE"), Ident(idColumn), Kw("="), Param(Number(idQuery)), Kw("RETURNING *")]
  {
  }

  lemma ParseUpdateFrame(table: string, setList: Statement, idColumn: string, idValue: Value)
    requires setList != []
    ensures ParseUpdate([Kw("UPDATE"), Ident(table), Kw("SET")] + setList +
                        [Kw("WHERE"), Ident(idColumn), Kw("="), Param(idValue), Kw("RETURNING *")])
      == match DecodeSetList(setList)
         case None => None
         case Some(fs) => Some(UpdateTarget(table, fs, idColumn, idValue))
  {
    var tail := [Kw("WHERE"), Ident(idColumn), Kw("="), Param(idValue), Kw("RETURNING *")];
    var s := [Kw("UPDATE"), Ident(table), Kw("SET")] + setList + tail;
    assert s[3..|s| - 5] == setList;
    assert s[|s| - 5..] == tail;
  }

  /** An updateData statement holds no text but the source's own keywords. */
  lemma UpdateDataStatementSafe(table: string, data: InputData, idQuery: int, idColumn: string)
    ensures Safe(UpdateDataStatement(table, data, idQuery, idColumn))
  {
    var setList := Flatten(SetClauses(data));
    SetClausesAreOwnFields(data);
    AssignmentListSafe(OwnFields(data));
    var head := [Kw("UPDATE"), Ident(table), Kw("SET")];
    var tail := [Kw("updated_at = now()"), Kw("WHERE"), Ident(idColumn), Kw("="), Param(Number(idQuery)), Kw("RETURNING *")];
    SafeAppend(head, setList);
    SafeAppend(head + setList, tail);
  }

  lemma {:induction false} AssignmentListSafe(fs: seq<(string, Value)>)
    ensures Safe(AssignmentList(fs))
  {
    if fs != [] {
      AssignmentListSafe(fs[1..]);
      SafeAppend(Assignment(fs[0]), AssignmentList(fs[1..]));
    }
  }

  /** Without own properties the SET list is `updated_at = now()` alone. */
  lemma NoFieldsSetOnlyTimestamp(table: string, data: InputData, idQuery: int, idColumn: string)
    requires forall i | 0 <= i < |data| :: !data[i].own
    ensures UpdateDataStatement(table, data, idQuery, idColumn)
      == [Kw("UPDATE"), Ident(table), Kw("SET"), Kw("updated_at = now()"), Kw("WHERE"),
          Ident(idColumn), Kw("="), Param(Number(idQuery)), Kw("RETURNING *")]
  {
    NoOwnFields(data);
    SetClausesAreOwnFields(data);
  }

  lemma {:induction false} NoOwnFields(data: InputData)
    requires forall i | 0 <= i < |data| :: !data[i].own
    ensures OwnFields(data) == []
  {
    if data != [] {
      NoOwnFields(data[..|data| - 1]);
    }
  }

  /** updateSingleColumn's SET list is the one updateData builds for an object whose one own
      property is that column, and both bind the same names and values in the same order. */
  lemma SingleColumnIsOneFieldUpdate(table: string, column: string, value: Value, idQuery: int, idColumn: string)
    ensures var one := UpdateSingleColumnStatement(table, column, value, idQuery, idColumn);
      var many := UpdateDataStatement(table, [Prop(column, value, true)], idQuery, idColumn);
      one[3..8] == many[3..8] && Holes(one) == Holes(many)
  {
    var data := [Prop(column, value, true)];
    var a := Assignment((column, value));
    assert data[..0] == [];
    assert SetClauses(data) == [a];
    FlattenSnoc([], a);
    assert [] + [a] == [a];
    UpdateShapeHoles("UPDATE", "SET", "WHERE", "RETURNING *", table, a, idColumn, Number(idQuery));
    AssignmentHoles((column, value));
    var many := UpdateDataStatement(table, data, idQuery, idColumn);
    assert many == [Kw("UPDATE"), Ident(table), Kw("SET")] + a +
      [Kw("updated_at = now()"), Kw("WHERE"), Ident(idColumn), Kw("="), Param(Number(idQuery)), Kw("RETURNING *")];
  }

  // ---- Insert (insertData)

  /** The comma that precedes every element of a list but the first. */
  function Lead(i: nat): Statement {
    if i == 0 then [] else [Kw(",")]
  }

  /** The arrays `columns` and `values` and the flag `isFirst` after the loop of insertData. */
  function InsertScan(data: InputData): (seq<Statement>, seq<Statement>, bool) {
    if data == [] then ([], [], true)
    else
      var (columns, values, isFirst) := InsertScan(data[..|data| - 1]);
      var p := data[|data| - 1];
      if !p.own then (columns, values, isFirst)
      else if !isFirst then (columns + [[Kw(","), Ident(p.column)]], values + [[Kw(","), Param(p.value)]], isFirst)
      else (columns + [[Ident(p.column)]], values + [[Param(p.value)]], false)
  }

  /** `INSERT INTO <table> (<columns>) VALUES (<values>) RETURNING *` */
  function InsertStatement(table: string, columns: seq<Statement>, values: seq<Statement>): Statement {
    [Kw("INSERT INTO"), Ident(table), Kw("(")] + Flatten(columns) +
    [Kw(")"), Kw("VALUES"), Kw("(")] + Flatten(values) + [Kw(")"), Kw("RETURNING *")]
  }

  /** The statement insertData sends for a table and an input object. */
  function InsertDataStatement(table: string, data: InputData): Statement {
    var (columns, values, _) := InsertScan(data);
    InsertStatement(table, columns, values)
  }

  /** The loop pairs the arrays: columns[i] names the own property whose value values[i] binds;
      element 0 has no comma and every later element one; isFirst stays set only without own
      properties. */
  lemma {:induction false} InsertScanPairs(data: InputData)
    ensures var (columns, values, isFirst) := InsertScan(data);
      var fs := OwnFields(data);
      |columns| == |fs| && |values| == |fs| && (isFirst <==> fs == []) &&
      forall i | 0 <= i < |fs| ::
        columns[i] == Lead(i) + [Ident(fs[i].0)] && values[i] == Lead(i) + [Param(fs[i].1)]
  {
    if data != [] {
      InsertScanPairs(data[..|data| - 1]);
    }
  }

  /** The elements of a list separated by commas. */
  function CommaJoin(xs: Statement): Statement {
    if |xs| <= 1 then xs else [xs[0], Kw(",")] + CommaJoin(xs[1..])
  }

  lemma {:induction false} CommaJoinSnoc(xs: Statement, x: Frag)
    ensures CommaJoin(xs + [x]) == CommaJoin(xs) + Lead(|xs|) + [x]
  {
    if |xs| == 0 {
      assert xs + [x] == [x];
    } else if |xs| == 1 {
      assert (xs + [x])[1..] == [x];
    } else {
      assert (xs + [x])[1..] == xs[1..] + [x];
      CommaJoinSnoc(xs[1..], x);
    }
  }

  /** Splitting a comma-separated list back into its elements; None when it is not one. */
  function SplitCommas(s: Statement): Option<Statement>
    decreases |s|
  {
    if s == [] then Some([])
    else if s[0].Kw? then None
    else if |s| == 1 then Some(s)
    else if s[1] != Kw(",") || |s| == 2 then None
    else
      match SplitCommas(s[2..])
      case None => None
      case Some(rest) => Some([s[0]] + rest)
  }

  lemma {:induction false} SplitCommaJoin(xs: Statement)
    requires forall i | 0 <= i < |xs| :: !xs[i].Kw?
    ensures SplitCommas(CommaJoin(xs)) == Some(xs)
  {
    if |xs| > 1 {
      var s := CommaJoin(xs);
      assert s[2..] == CommaJoin(xs[1..]);
      SplitCommaJoin(xs[1..]);
      assert [xs[0]] + xs[1..] == xs;
    }
  }

  /** The column identifiers and the value parameters of a list of fields. */
  function Columns(fs: seq<(string, Value)>): (r: Statement)
    ensures |r| == |fs| && forall i | 0 <= i < |fs| :: r[i] == Ident(fs[i].0)
  {
    if fs == [] then [] else Columns(fs[..|fs| - 1]) + [Ident(fs[|fs| - 1].0)]
  }

  function Values(fs: seq<(string, Value)>): (r: Statement)
    ensures |r| == |fs| && forall i | 0 <= i < |fs| :: r[i] == Param(fs[i].1)
  {
    if fs == [] then [] else Values(fs[..|fs| - 1]) + [Param(fs[|fs| - 1].1)]
  }

  /** One step of the insert loop over an own property appends the same position's element
      to both arrays. */
  lemma InsertScanStep(data: InputData)
    requires data != [] && data[|data| - 1].own
    ensures var p := data[|data| - 1];
      var (columns, values, _) := InsertScan(data[..|data| - 1]);
      var n := |OwnFields(data[..|data| - 1])|;
      InsertScan(data).0 == columns + [Lead(n) + [Ident(p.column)]] &&
      InsertScan(data).1 == values + [Lead(n) + [Param(p.value)]] &&
      OwnFields(data) == OwnFields(data[..|data| - 1]) + [(p.column, p.value)]
  {
    var init := data[..|data| - 1];
    var p := data[|data| - 1];
    InsertScanPairs(init);
    var (columns, values, isFirst) := InsertScan(init);
    if isFirst {
      assert Lead(|OwnFields(init)|) + [Ident(p.column)] == [Ident(p.column)];
      assert Lead(|OwnFields(init)|) + [Param(p.value)] == [Param(p.value)];
    } else {
      assert Lead(|OwnFields(init)|) == [Kw(",")];
      assert [Kw(",")] + [Ident(p.column)] == [Kw(","), Ident(p.column)];
      assert [Kw(",")] + [Param(p.value)] == [Kw(","), Param(p.value)];
    }
  }

  /** The spliced column list is the comma-separated own column names, and the spliced value
      list the comma-separated own values, in the same order. */
  lemma {:induction false} InsertListsAreCommaJoins(data: InputData)
    ensures Flatten(InsertScan(data).0) == CommaJoin(Columns(OwnFields(data)))
    ensures Flatten(InsertScan(data).1) == CommaJoin(Values(OwnFields(data)))
  {
    if data != [] {
      var init := data[..|data| - 1];
      var p := data[|data| - 1];
      InsertListsAreCommaJoins(init);
      var fs := OwnFields(init);
      if p.own {
        InsertScanStep(data);
        var f := (p.column, p.value);
        assert Columns(fs + [f]) == Columns(fs) + [Ident(p.column)];
        assert Values(fs + [f]) == Values(fs) + [Param(p.value)];
        CommaJoinSnoc(Columns(fs), Ident(p.column));
        CommaJoinSnoc(Values(fs), Param(p.value));
        FlattenSnoc(InsertScan(init).0, Lead(|fs|) + [Ident(p.column)]);
        FlattenSnoc(InsertScan(init).1, Lead(|fs|) + [Param(p.value)]);
      } else {
        assert InsertScan(data) == InsertScan(init);
        assert OwnFields(data) == fs;
      }
    }
  }

  /** The column list and the value list of an insert statement split back, at their commas,
      into the own column names and the own values, position by position. */
  lemma InsertListsSplit(data: InputData)
    ensures SplitCommas(Flatten(InsertScan(data).0)) == Some(Columns(OwnFields(data)))
    ensures SplitCommas(Flatten(InsertScan(data).1)) == Some(Values(OwnFields(data)))
  {
    InsertListsAreCommaJoins(data);
    SplitCommaJoin(Columns(OwnFields(data)));
    SplitCommaJoin(Values(OwnFields(data)));
  }

  /** The holes of an insert statement are those of its two spliced lists, after the table. */
  lemma InsertStatementHoles(table: string, c: Statement, v: Statement)
    ensures Holes([Kw("INSERT INTO"), Ident(table), Kw("(")] + c + [Kw(")"), Kw("VALUES"), Kw("(")] + v + [Kw(")"), Kw("RETURNING *")])
      == [Ident(table)] + Holes(c) + Holes(v)
  {
    var head := [Kw("INSERT INTO"), Ident(table), Kw("(")];
    var middle := [Kw(")"), Kw("VALUES"), Kw("(")];
    var tail := [Kw(")"), Kw("RETURNING *")];
    HolesAppend(head, c);
    HolesAppend(head + c, middle);
    HolesAppend(head + c + middle, v);
    HolesAppend(head + c + middle + v, tail);
    assert Holes(head[2..]) == [];
    assert Holes(head) == [Ident(table)];
    assert Holes(middle[2..]) == [];
    assert Holes(middle) == [];
    assert Holes(tail[1..]) == [];
    assert Holes(tail) == [];
  }

  /** An insert statement names the table, then binds every own column and then every own
      value, both in visiting order, so the i-th column gets the i-th value. */
  lemma InsertDataStatementHoles(table: string, data: InputData)
    ensures Holes(InsertDataStatement(table, data))
      == [Ident(table)] + Columns(OwnFields(data)) + Values(OwnFields(data))
  {
    var fs := OwnFields(data);
    InsertListsAreCommaJoins(data);
    HolesOfCommaJoin(Columns(fs));
    HolesOfCommaJoin(Values(fs));
    InsertStatementHoles(table, Flatten(InsertScan(data).0), Flatten(InsertScan(data).1));
  }

  /** Without own properties both parenthesised lists are empty. */
  lemma InsertWithoutFields(table: string, data: InputData)
    requires forall i | 0 <= i < |data| :: !data[i].own
    ensures InsertDataStatement(table, data)
      == [Kw("INSERT INTO"), Ident(table), Kw("("), Kw(")"), Kw("VALUES"), Kw("("), Kw(")"), Kw("RETURNING *")]
  {
    NoOwnFields(data);
    InsertListsAreCommaJoins(data);
  }

  lemma {:induction false} HolesOfCommaJoin(xs: Statement)
    requires forall i | 0 <= i < |xs| :: !xs[i].Kw?
    ensures Holes(CommaJoin(xs)) == xs
  {
    if |xs| == 1 {
      assert Holes(xs) == [xs[0]] + Holes(xs[1..]);
    } else if |xs| > 1 {
      HolesOfCommaJoin(xs[1..]);
      var s := CommaJoin(xs);
      assert s[1..][1..] == CommaJoin(xs[1..]);
      assert [xs[0]] + xs[1..] == xs;
    }
  }

  lemma InsertDataStatementSafe(table: string, data: InputData)
    ensures Safe(InsertDataStatement(table, data))
  {
    var (columns, values, _) := InsertScan(data);
    InsertScanPairs(data);
    var fs := OwnFields(data);
    forall p | p in columns ensures Safe(p) {
      var i :| 0 <= i < |columns| && columns[i] == p;
    }
    forall p | p in values ensures Safe(p) {
      var i :| 0 <= i < |values| && values[i] == p;
    }
    var c := Flatten(columns);
    var v := Flatten(values);
    var head := [Kw("INSERT INTO"), Ident(table), Kw("(")];
    SafeAppend(head, c);
    SafeAppend(head + c, [Kw(")"), Kw("VALUES"), Kw("(")]);
    SafeAppend(head + c + [Kw(")"), Kw("VALUES"), Kw("(")], v);
    SafeAppend(head + c + [Kw(")"), Kw("VALUES"), Kw("(")] + v, [Kw(")"), Kw("RETURNING *")]);
  }

  // ---- Delete (deleteSingleRow)

  /** `delete from <table> where id = <id>`: always keyed on the literal column id. */
  function DeleteStatement(table: string, id: int): (s: Statement)
    ensures Safe(s)
    ensures Holes(s) == [Ident(table), Param(Number(id))]
    ensures Kw("where id =") in s
  {
    var s := [Kw("delete from"), Ident(table), Kw("where id ="), Param(Number(id))];
    assert Holes(s[3..]) == [Param(Number(id))];
    assert Holes(s[1..]) == Holes(s);
    s
  }
}
