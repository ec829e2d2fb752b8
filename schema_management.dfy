/**
  The schema manager: derives the DDL for each event type of the type
  mapping, runs it against the database, keeps the last successfully
  synchronised event types, and re-synchronises when the file watcher
  reports a write to the event-type file.
 */
module SchemaManagement {
  import opened Wrappers
  import opened Json
  import opened Errors
  import opened Strings
  import opened Database
  import Channel

  const TypeMappingKey := "type_mapping"

  // ---------------------------------------------------------------------
  // Loading
  // ---------------------------------------------------------------------

  /**
    `load_event_types_from_file` after the file has been read and parsed:
    `parsed` is what reading and parsing `file` gave. An empty map is
    refused; anything else is returned as it is.
   */
  function LoadEventTypes(file: string, parsed: Result<Map>): (r: Result<Map>)
    ensures r.Ok? <==> parsed.Ok? && parsed.value != []
    ensures r.Ok? ==> r.value == parsed.value
    ensures parsed.Ok? && parsed.value == [] ==> r == Err(EmptyEventTypes(file))
    ensures parsed.Err? ==> r == parsed
  {
    match parsed
    case Err(e) => Err(e)
    case Ok(m) => if m == [] then Err(EmptyEventTypes(file)) else Ok(m)
  }

  // ---------------------------------------------------------------------
  // ALTER TABLE ... ADD COLUMN
  // ---------------------------------------------------------------------

  const AlterPrefix := "ALTER TABLE "
  const AddColumnInfix := " ADD COLUMN IF NOT EXISTS "

  /** `query_from_column_data_type`: the statement that adds one column if it is missing. */
  function QueryFromColumnDataType(table: string, column: string, dataType: string): (r: Result<string>)
    ensures r.Ok?
    ensures AlterPrefix <= r.value
  {
    Ok(AlterPrefix + table + AddColumnInfix + column + " " + dataType)
  }

  /** `s` without the prefix `p`, when it starts with it. */
  function StripPrefix(p: string, s: string): Option<string>
  {
    if p <= s then Some(s[|p|..]) else None
  }

  /** The leading blank-free word of `s` and what follows it. */
  function SplitWord(s: string): (string, string)
  {
    var w := Word(s);
    (w, s[|w|..])
  }

  /** Reads table, column and data type back out of an add-column statement. */
  function ParseAddColumn(q: string): Option<(string, string, string)>
  {
    match StripPrefix(AlterPrefix, q)
    case None => None
    case Some(afterAlter) =>
      var (table, afterTable) := SplitWord(afterAlter);
      match StripPrefix(AddColumnInfix, afterTable)
      case None => None
      case Some(afterAdd) =>
        var (column, afterColumn) := SplitWord(afterAdd);
        if afterColumn == [] then None else Some((table, column, afterColumn[1..]))
  }

  lemma StripPrefixOf(p: string, s: string)
    ensures StripPrefix(p, p + s) == Some(s)
  {
    assert (p + s)[|p|..] == s;
  }

  lemma SplitWordOf(w: string, rest: string)
    requires NoSpace(w) && rest != [] && rest[0] == ' '
    ensures SplitWord(w + rest) == (w, rest)
  {
    WordOf(w, rest);
    assert (w + rest)[|w|..] == rest;
  }

  /**
    The add-column statement names its table, column and data type
    unambiguously: when the two names hold no blank, they and the data type
    read back exactly.
   */
  lemma AddColumnRoundTrip(table: string, column: string, dataType: string)
    requires NoSpace(table) && NoSpace(column)
    ensures ParseAddColumn(QueryFromColumnDataType(table, column, dataType).value) == Some((table, column, dataType))
  {
    var afterColumn := " " + dataType;
    var afterAdd := column + afterColumn;
    var afterTable := AddColumnInfix + afterAdd;
    var afterAlter := table + afterTable;
    assert QueryFromColumnDataType(table, column, dataType).value == AlterPrefix + afterAlter;
    StripPrefixOf(AlterPrefix, afterAlter);
    SplitWordOf(table, afterTable);
    StripPrefixOf(AddColumnInfix, afterAdd);
    SplitWordOf(column, afterColumn);
    assert afterColumn[1..] == dataType;
  }

  /**
    The add-column statement `test_query_from_column_data_type` expects, "ALTER TABLE mint_coins ADD COLUMN IF NOT EXISTS time timestamp",
    written here piece by piece.
   */
  lemma MintCoinsAddColumn()
    ensures QueryFromColumnDataType("mint_coins", "time", "timestamp")
         == Ok("ALTER TABLE mint_coins" + " ADD COLUMN IF NOT EXISTS " + "time" + " " + "timestamp")
  {
    assert AlterPrefix + "mint_coins" == "ALTER TABLE mint_coins";
  }

  // ---------------------------------------------------------------------
  // CREATE TABLE
  // ---------------------------------------------------------------------

  const CreateTablePrefix := "CREATE TABLE IF NOT EXISTS "

  function CreateTableSql(table: string, columns: string): (q: string)
    ensures CreateTablePrefix <= q
  {
    CreateTablePrefix + table + " (" + columns + ")"
  }

  /** One column definition, `name type`. */
  function ColumnDef(entry: (string, Value)): string
    requires entry.1.String?
  {
    entry.0 + " " + entry.1.s
  }

  /**
    The text the column loop adds for one entry: its definition, followed by
    a comma unless the entry is the last of the mapping; nothing for an
    entry whose type is not a string.
   */
  function Piece(entry: (string, Value), last: bool): string
  {
    if entry.1.String? then ColumnDef(entry) + (if last then "" else ",") else ""
  }

  /** The column list after the loop has seen the first `k` entries of `tm`. */
  function ColumnsUpTo(tm: Map, k: nat): string
    requires k <= |tm|
  {
    if k == 0 then ""
    else ColumnsUpTo(tm, k - 1) + Piece(tm[k - 1], k - 1 == |tm| - 1)
  }

  function Columns(tm: Map): string
  {
    ColumnsUpTo(tm, |tm|)
  }

  /** The definitions of the entries whose type is a string, in mapping order. */
  function Defs(tm: Map): (ds: seq<string>)
    ensures |ds| <= |tm|
  {
    if tm == [] then []
    else Defs(tm[..|tm| - 1]) + (if tm[|tm| - 1].1.String? then [ColumnDef(tm[|tm| - 1])] else [])
  }

  predicate AllStrings(tm: Map)
  {
    forall i :: 0 <= i < |tm| ==> tm[i].1.String?
  }

  /** Definitions joined by commas, each one followed by a comma. */
  function Closed(ds: seq<string>): string
  {
    if ds == [] then "" else Join(",", ds) + ","
  }

  lemma ClosedSnoc(ds: seq<string>, d: string)
    ensures Closed(ds + [d]) == Closed(ds) + d + ","
  {
    if ds != [] {
      JoinSnoc(",", ds, d);
    } else {
      assert Join(",", [d]) == d;
    }
  }

  lemma DefsSnoc(tm: Map, k: nat)
    requires 0 < k <= |tm|
    ensures Defs(tm[..k]) == Defs(tm[..k - 1]) + (if tm[k - 1].1.String? then [ColumnDef(tm[k - 1])] else [])
  {
    assert tm[..k][..k - 1] == tm[..k - 1];
    assert tm[..k][k - 1] == tm[k - 1];
  }

  /** Before the last entry, the loop has written each definition so far followed by a comma. */
  lemma {:induction false} ColumnsBeforeLast(tm: Map, k: nat)
    requires k < |tm|
    ensures ColumnsUpTo(tm, k) == Closed(Defs(tm[..k]))
  {
    if k > 0 {
      ColumnsBeforeLast(tm, k - 1);
      DefsSnoc(tm, k);
      assert ColumnsUpTo(tm, k) == ColumnsUpTo(tm, k - 1) + Piece(tm[k - 1], false);
      var ds := Defs(tm[..k - 1]);
      if tm[k - 1].1.String? {
        var def := ColumnDef(tm[k - 1]);
        assert Piece(tm[k - 1], false) == def + ",";
        ClosedSnoc(ds, def);
        assert Closed(ds) + (def + ",") == Closed(ds) + def + ",";
      } else {
        assert Piece(tm[k - 1], false) == "";
        assert Defs(tm[..k]) == ds;
      }
    }
  }

  /**
    What the column loop produces: the definitions of the string-typed
    entries joined by commas, plus one trailing comma exactly when the last
    entry is not a string but some earlier entry is.
   */
  lemma {:induction false} ColumnsJoined(tm: Map)
    ensures Columns(tm) == Join(",", Defs(tm)) +
      (if tm != [] && !tm[|tm| - 1].1.String? && Defs(tm) != [] then "," else "")
  {
    if tm != [] {
      var n := |tm|;
      var ds := Defs(tm[..n - 1]);
      var last := tm[n - 1];
      assert Columns(tm) == ColumnsUpTo(tm, n - 1) + Piece(last, true);
      ColumnsBeforeLast(tm, n - 1);
      assert tm[..n] == tm;
      DefsSnoc(tm, n);
      if last.1.String? {
        var def := ColumnDef(last);
        assert Defs(tm) == ds + [def];
        if ds != [] {
          JoinSnoc(",", ds, def);
        }
      } else {
        assert Defs(tm) == ds;
      }
    }
  }

  /** When every entry is string-typed, there is one definition per entry, in order. */
  lemma {:induction false} DefsAllStrings(tm: Map)
    requires AllStrings(tm)
    ensures |Defs(tm)| == |tm|
    ensures forall i :: 0 <= i < |tm| ==> Defs(tm)[i] == ColumnDef(tm[i])
  {
    if tm != [] {
      var front := tm[..|tm| - 1];
      forall i | 0 <= i < |front| ensures front[i].1.String? {
        assert front[i] == tm[i];
      }
      DefsAllStrings(front);
      assert Defs(tm) == Defs(front) + [ColumnDef(tm[|tm| - 1])];
    }
  }

  /** For a mapping of string-typed columns only, every column appears, in order, comma separated. */
  lemma ColumnsWellFormed(tm: Map)
    requires AllStrings(tm)
    ensures Columns(tm) == Join(",", Defs(tm))
    ensures |Defs(tm)| == |tm|
    ensures forall i :: 0 <= i < |tm| ==> Defs(tm)[i] == tm[i].0 + " " + tm[i].1.s
  {
    ColumnsJoined(tm);
    DefsAllStrings(tm);
  }

  /** The type mapping of an event type, when it has one that is an object. */
  function TypeMapping(value: Value): Option<Map>
  {
    if value.Object? then
      match Lookup(value.members, TypeMappingKey)
      case Some(Object(tm)) => Some(tm)
      case _ => None
    else None
  }

  /** An event-type object without a `type_mapping` key: indexing it panics. */
  predicate Panics(value: Value)
  {
    value.Object? && Lookup(value.members, TypeMappingKey).None?
  }

  /** What `query_from_event_type` yields for the event type `name` described by `value`. */
  function CreateTableQuery(name: string, value: Value): Result<string>
  {
    if Panics(value) then Err(Panic(TypeMappingKey))
    else match TypeMapping(value)
      case Some(tm) => Ok(CreateTableSql(name, Columns(tm)))
      case None => Ok(CreateTableSql(name, ""))
  }

  /**
    `query_from_event_type` never reports an error: it returns the
    create-table statement, or panics on an object without `type_mapping`.
    A value that is not an object, or whose `type_mapping` is not an object,
    gives an empty column list.
   */
  lemma CreateTableQueryCases(name: string, value: Value)
    ensures CreateTableQuery(name, value).Err? <==> Panics(value)
    ensures CreateTableQuery(name, value).Err? ==> CreateTableQuery(name, value).error == Panic(TypeMappingKey)
    ensures TypeMapping(value).None? && !Panics(value) ==>
      CreateTableQuery(name, value) == Ok("CREATE TABLE IF NOT EXISTS " + name + " ()")
    ensures TypeMapping(value).Some? && AllStrings(TypeMapping(value).value) ==>
      CreateTableQuery(name, value) == Ok(CreateTableSql(name, Join(",", Defs(TypeMapping(value).value))))
  {
    assert CreateTableSql(name, "") == "CREATE TABLE IF NOT EXISTS " + name + " ()";
    if TypeMapping(value).Some? && AllStrings(TypeMapping(value).value) {
      ColumnsWellFormed(TypeMapping(value).value);
    }
  }

  /** The type mapping of `mint_coins` in the fixture `typemapping/type_mapping.json`. */
  const MintCoinsMapping: Map :=
    [("account_id", String("int")), ("amount", String("bigint")), ("time", String("timestamp"))]

  lemma MintCoinsColumns()
    ensures Columns(MintCoinsMapping) == "account_id int," + "amount bigint," + "time timestamp"
  {
    var tm := MintCoinsMapping;
    assert ColumnDef(tm[0]) == "account_id int";
    assert ColumnDef(tm[1]) == "amount bigint";
    assert ColumnDef(tm[2]) == "time timestamp";
    assert ColumnsUpTo(tm, 1) == "account_id int,";
    assert ColumnsUpTo(tm, 2) == "account_id int," + "amount bigint,";
  }

  /**
    The create-table statement `test_query_from_event_type` expects, "CREATE TABLE IF NOT EXISTS mint_coins (account_id int,amount
    bigint,time timestamp)", written here piece by piece.
   */
  lemma MintCoinsCreateTable()
    ensures CreateTableQuery("mint_coins", Object([(TypeMappingKey, Object(MintCoinsMapping))]))
         == Ok("CREATE TABLE IF NOT EXISTS mint_coins (" + "account_id int," + "amount bigint," + "time timestamp" + ")")
  {
    var value := Object([(TypeMappingKey, Object(MintCoinsMapping))]);
    assert TypeMapping(value) == Some(MintCoinsMapping) && !Panics(value);
    MintCoinsColumns();
    var head := "CREATE TABLE IF NOT EXISTS mint_coins (";
    assert "CREATE TABLE IF NOT EXISTS " + "mint_coins" + " (" == head;
    var a, b, c := "account_id int,", "amount bigint,", "time timestamp";
    assert head + (a + b + c) == head + a + b + c;
  }

  /** A mapping whose last entry is not a string leaves a comma before the closing parenthesis. */
  lemma TrailingComma()
    ensures CreateTableQuery("t", Object([(TypeMappingKey, Object([("a", String("int")), ("b", Number(5))]))]))
         == Ok("CREATE TABLE IF NOT EXISTS t (a int,)")
  {
    var tm := [("a", String("int")), ("b", Number(5))];
    assert ColumnsUpTo(tm, 1) == "a int,";
    assert ColumnsUpTo(tm, 2) == "a int,";
    var value := Object([(TypeMappingKey, Object(tm))]);
    assert TypeMapping(value) == Some(tm) && !Panics(value);
    assert "CREATE TABLE IF NOT EXISTS " + "t" + " (" == "CREATE TABLE IF NOT EXISTS t (";
    assert "CREATE TABLE IF NOT EXISTS t (" + "a int," + ")" == "CREATE TABLE IF NOT EXISTS t (a int,)";
  }

  /** `query_from_event_type`: builds the column list entry by entry. */
  method QueryFromEventType(name: string, value: Value) returns (r: Result<string>)
    ensures r == CreateTableQuery(name, value)
  {
    var columns := "";
    if value.Object? {
      var mapping := Lookup(value.members, TypeMappingKey);
      if mapping.None? {
        return Err(Panic(TypeMappingKey));
      }
      if mapping.value.Object? {
        var tm := mapping.value.members;
        var counter := 0;
        while counter < |tm|
          invariant 0 <= counter <= |tm|
          invariant columns == ColumnsUpTo(tm, counter)
        {
          var (colName, colValue) := tm[counter];
          if colValue.String? {
            columns := columns + colName + " " + colValue.s;
            if counter != |tm| - 1 {
              columns := columns + ",";
            }
          }
          counter := counter + 1;
        }
      }
    }
    r := Ok(CreateTableSql(name, columns));
  }

  // ---------------------------------------------------------------------
  // Synchronising one event type, then all of them
  // ---------------------------------------------------------------------

  /** The names of the string-typed columns of a type mapping. */
  function ColumnNames(tm: Map): set<string>
  {
    if tm == [] then {}
    else (if tm[0].1.String? then {tm[0].0} else {}) + ColumnNames(tm[1..])
  }

  /** The columns the create-table statement of an event type declares. */
  function ColumnSet(value: Value): set<string>
  {
    match TypeMapping(value)
    case Some(tm) => ColumnNames(tm)
    case None => {}
  }

  function IndexName(table: string): string
  {
    table + "_tsidx"
  }

  const CreateIndexPrefix := "CREATE INDEX CONCURRENTLY IF NOT EXISTS "

  /** The time index of a table, created outside any transaction. */
  function IndexStatement(table: string): (st: Statement)
    ensures st.CreateIndex? && st.table == table && CreateIndexPrefix <= st.sql
  {
    CreateIndex(IndexName(table), table, CreateIndexPrefix + IndexName(table) + " ON " + table + "(time)")
  }

  /** One add-column statement per string-typed column, in mapping order. */
  function AddColumnsFor(table: string, tm: Map): seq<Statement>
  {
    if tm == [] then []
    else
      (if tm[0].1.String?
       then [AddColumn(table, tm[0].0, QueryFromColumnDataType(table, tm[0].0, tm[0].1.s).value)]
       else [])
      + AddColumnsFor(table, tm[1..])
  }

  function AddColumnStatements(table: string, value: Value): seq<Statement>
  {
    match TypeMapping(value)
    case Some(tm) => AddColumnsFor(table, tm)
    case None => []
  }

  function CreateTableStatement(table: string, value: Value, create: string): Statement
  {
    CreateTable(table, ColumnSet(value), create)
  }

  /**
    Synchronising one event type: the create-table statement in a
    transaction, then the index on its own, then the add-column statements
    in a second transaction. The first failure ends the pass.
   */
  function SyncOne(db: State, rejects: set<string>, table: string, value: Value): Outcome
  {
    match CreateTableQuery(table, value)
    case Err(e) => Outcome(db, Err(e))
    case Ok(create) =>
      AfterCreate(Transact(db, rejects, [CreateTableStatement(table, value, create)]), rejects, table, value)
  }

  function AfterCreate(o: Outcome, rejects: set<string>, table: string, value: Value): Outcome
  {
    if o.result.Err? then o else AfterIndex(Exec(o.state, rejects, IndexStatement(table)), rejects, table, value)
  }

  function AfterIndex(o: Outcome, rejects: set<string>, table: string, value: Value): Outcome
  {
    if o.result.Err? then o else Transact(o.state, rejects, AddColumnStatements(table, value))
  }

  /** Synchronising the event types in iteration order, stopping at the first failure. */
  function SyncAll(db: State, rejects: set<string>, eventTypes: Map): Outcome
    decreases eventTypes
  {
    if eventTypes == [] then Outcome(db, Ok(()))
    else
      var o := SyncOne(db, rejects, eventTypes[0].0, eventTypes[0].1);
      if o.result.Err? then o else SyncAll(o.state, rejects, eventTypes[1..])
  }

  /** The statements of one event type, in the order they are issued. */
  function EntryPlan(table: string, value: Value): seq<Statement>
  {
    match CreateTableQuery(table, value)
    case Err(_) => []
    case Ok(create) =>
      [CreateTableStatement(table, value, create), IndexStatement(table)] + AddColumnStatements(table, value)
  }

  /** All statements of a full synchronisation, event type after event type. */
  function Plan(eventTypes: Map): seq<Statement>
  {
    if eventTypes == [] then []
    else EntryPlan(eventTypes[0].0, eventTypes[0].1) + Plan(eventTypes[1..])
  }

  predicate NoPanic(eventTypes: Map)
  {
    forall i :: 0 <= i < |eventTypes| ==> !Panics(eventTypes[i].1)
  }

  /** Table, index and every string-typed column of the event type are in the schema. */
  predicate Covered(s: Schema, table: string, value: Value)
  {
    table in s.tables && IndexName(table) in s.indexes && ColumnSet(value) <= s.tables[table]
  }

  /**
    Each statement is one of the three additive forms, and what it declares
    matches its text's target.
   */
  lemma EntryPlanAdditive(table: string, value: Value)
    ensures forall st :: st in EntryPlan(table, value) ==>
      && !st.Insert?
      && st.table == table
      && (st.CreateTable? ==> CreateTablePrefix <= st.sql)
      && (st.CreateIndex? ==> CreateIndexPrefix <= st.sql)
      && (st.AddColumn? ==> AlterPrefix + table + AddColumnInfix <= st.sql)
  {
    if !Panics(value) {
      EntryPlanParts(table, value);
      var create := CreateTableStatement(table, value, CreateTableQuery(table, value).value);
      var index := IndexStatement(table);
      var adds := AddColumnStatements(table, value);
      if TypeMapping(value).Some? {
        AddColumnsForShape(table, TypeMapping(value).value);
      }
      forall st | st in EntryPlan(table, value)
        ensures && !st.Insert? && st.table == table
                && (st.CreateTable? ==> CreateTablePrefix <= st.sql)
                && (st.CreateIndex? ==> CreateIndexPrefix <= st.sql)
                && (st.AddColumn? ==> AlterPrefix + table + AddColumnInfix <= st.sql)
      {
        if st != create && st != index {
          assert st in adds;
        }
      }
    }
  }

  lemma {:induction false} AddColumnsForShape(table: string, tm: Map)
    ensures forall st :: st in AddColumnsFor(table, tm) ==>
      st.AddColumn? && st.table == table && AlterPrefix + table + AddColumnInfix <= st.sql
  {
    if tm != [] {
      AddColumnsForShape(table, tm[1..]);
      if tm[0].1.String? {
        var head := AlterPrefix + table + AddColumnInfix;
        assert QueryFromColumnDataType(table, tm[0].0, tm[0].1.s).value == head + (tm[0].0 + " " + tm[0].1.s);
      }
    }
  }

  /** Running a table's add-column statements puts every string-typed column into that table. */
  lemma {:induction false} AddColumnsCover(db: State, rejects: set<string>, table: string, tm: Map)
    decreases tm
    requires table in db.schema.tables
    requires Run(db, rejects, AddColumnsFor(table, tm)).Ok?
    ensures table in Run(db, rejects, AddColumnsFor(table, tm)).value.schema.tables
    ensures ColumnNames(tm) <= Run(db, rejects, AddColumnsFor(table, tm)).value.schema.tables[table]
  {
    var sts := AddColumnsFor(table, tm);
    RunCommits(db, rejects, sts);
    if tm != [] {
      if tm[0].1.String? {
        var next := Step(db, sts[0]);
        assert sts[1..] == AddColumnsFor(table, tm[1..]);
        assert Run(db, rejects, sts) == Run(next, rejects, sts[1..]);
        AddColumnsCover(next, rejects, table, tm[1..]);
        RunCommits(next, rejects, sts[1..]);
      } else {
        assert sts == AddColumnsFor(table, tm[1..]);
        AddColumnsCover(db, rejects, table, tm[1..]);
      }
    }
  }

  /** The three stages of one event type, as a plan: create-table, index, add-columns. */
  lemma EntryPlanParts(table: string, value: Value)
    requires !Panics(value)
    ensures CreateTableQuery(table, value).Ok?
    ensures EntryPlan(table, value)
         == [CreateTableStatement(table, value, CreateTableQuery(table, value).value)]
          + ([IndexStatement(table)] + AddColumnStatements(table, value))
  {
    var create := CreateTableStatement(table, value, CreateTableQuery(table, value).value);
    var adds := AddColumnStatements(table, value);
    assert [create, IndexStatement(table)] + adds == [create] + ([IndexStatement(table)] + adds);
  }

  /** One event type succeeds exactly when it is not an object without a `type_mapping` key and no statement of its plan is refused. */
  lemma SyncOneSucceeds(db: State, rejects: set<string>, table: string, value: Value)
    ensures SyncOne(db, rejects, table, value).result.Ok? <==>
      !Panics(value) && !AnyRejected(rejects, EntryPlan(table, value))
  {
    CreateTableQueryCases(table, value);
    if !Panics(value) {
      EntryPlanParts(table, value);
      var create := CreateTableStatement(table, value, CreateTableQuery(table, value).value);
      var index := IndexStatement(table);
      var adds := AddColumnStatements(table, value);
      AnyRejectedAppend(rejects, [create], [index] + adds);
      AnyRejectedAppend(rejects, [index], adds);
      AnyRejectedOne(rejects, create);
      AnyRejectedOne(rejects, index);
      var o1 := Transact(db, rejects, [create]);
      TransactSpec(db, rejects, [create]);
      assert SyncOne(db, rejects, table, value) == AfterCreate(o1, rejects, table, value);
      if o1.result.Ok? {
        var o2 := Exec(o1.state, rejects, index);
        assert AfterCreate(o1, rejects, table, value) == AfterIndex(o2, rejects, table, value);
        if o2.result.Ok? {
          TransactSpec(o2.state, rejects, adds);
        }
      }
    }
  }

  /** A successful event type went through all three stages, each of them committed. */
  lemma SyncOneStages(db: State, rejects: set<string>, table: string, value: Value)
    requires SyncOne(db, rejects, table, value).result.Ok?
    ensures !Panics(value)
    ensures SyncOne(db, rejects, table, value) == Transact(Indexed(db, table, value), rejects, AddColumnStatements(table, value))
  {
    CreateTableQueryCases(table, value);
    var create := CreateTableStatement(table, value, CreateTableQuery(table, value).value);
    var o1 := Transact(db, rejects, [create]);
    assert SyncOne(db, rejects, table, value) == AfterCreate(o1, rejects, table, value);
    assert o1.result.Ok?;
    assert Run(db, rejects, [create]) == Run(Step(db, create), rejects, []);
    var o2 := Exec(o1.state, rejects, IndexStatement(table));
    assert AfterCreate(o1, rejects, table, value) == AfterIndex(o2, rejects, table, value);
  }

  /** The texts of an event type's plan: create-table, index, then the add-columns. */
  lemma EntryPlanTexts(table: string, value: Value)
    requires !Panics(value)
    ensures Texts(EntryPlan(table, value))
         == [CreateTableStatement(table, value, CreateTableQuery(table, value).value).sql, IndexStatement(table).sql]
          + Texts(AddColumnStatements(table, value))
  {
    EntryPlanParts(table, value);
    var create := CreateTableStatement(table, value, CreateTableQuery(table, value).value);
    var index := IndexStatement(table);
    var adds := AddColumnStatements(table, value);
    TextsAppend([create], [index] + adds);
    TextsAppend([index], adds);
    TextsOne(create);
    TextsOne(index);
  }

  /** The state between the index stage and the add-column stage of a successful event type. */
  function Indexed(db: State, table: string, value: Value): (mid: State)
    requires !Panics(value)
    ensures mid.log == db.log + [CreateTableStatement(table, value, CreateTableQuery(table, value).value).sql,
                                 IndexStatement(table).sql]
  {
    Step(Step(db, CreateTableStatement(table, value, CreateTableQuery(table, value).value)), IndexStatement(table))
  }

  /** A successful event type has committed its plan, in order. */
  lemma SyncOneCommits(db: State, rejects: set<string>, table: string, value: Value)
    requires SyncOne(db, rejects, table, value).result.Ok?
    ensures SyncOne(db, rejects, table, value).state.log == db.log + Texts(EntryPlan(table, value))
  {
    SyncOneStages(db, rejects, table, value);
    var mid := Indexed(db, table, value);
    var adds := AddColumnStatements(table, value);
    TransactSpec(mid, rejects, adds);
    EntryPlanTexts(table, value);
  }

  /** After a successful event type its table, columns and index are in the schema. */
  lemma SyncOneCovers(db: State, rejects: set<string>, table: string, value: Value)
    requires SyncOne(db, rejects, table, value).result.Ok?
    ensures Covered(SyncOne(db, rejects, table, value).state.schema, table, value)
  {
    SyncOneStages(db, rejects, table, value);
    CreateTableQueryCases(table, value);
    var mid := Indexed(db, table, value);
    var adds := AddColumnStatements(table, value);
    TransactSpec(mid, rejects, adds);
    RunCommits(mid, rejects, adds);
    match TypeMapping(value)
    case Some(tm) => AddColumnsCover(mid, rejects, table, tm);
    case None =>
  }

  /** After the create-table stage, the index and add-column stages only add, and commit a prefix of their plan. */
  lemma AfterCreateGrows(o: Outcome, rejects: set<string>, table: string, value: Value)
    requires o.result.Ok?
    ensures Grows(o.state, AfterCreate(o, rejects, table, value).state)
    ensures ExtendsWithin(o.state, AfterCreate(o, rejects, table, value).state,
                          [IndexStatement(table).sql] + Texts(AddColumnStatements(table, value)))
  {
    var index := IndexStatement(table);
    var adds := AddColumnStatements(table, value);
    var o2 := Exec(o.state, rejects, index);
    assert AfterCreate(o, rejects, table, value) == AfterIndex(o2, rejects, table, value);
    if o2.result.Ok? {
      TransactSpec(o2.state, rejects, adds);
      var o3 := Transact(o2.state, rejects, adds);
      assert o2.state.log == o.state.log + [index.sql];
      ExtendsWithinAppend(o.state, o2.state, o3.state, [index.sql], Texts(adds));
      SubSchemaTrans(o.state.schema, o2.state.schema, o3.state.schema);
    } else {
      assert o.state.log[|o.state.log|..] == [];
    }
  }

  /** Whatever its outcome, one event type only adds to the schema and commits a prefix of its plan. */
  lemma SyncOneGrows(db: State, rejects: set<string>, table: string, value: Value)
    ensures Grows(db, SyncOne(db, rejects, table, value).state)
    ensures ExtendsWithin(db, SyncOne(db, rejects, table, value).state, Texts(EntryPlan(table, value)))
  {
    if !Panics(value) {
      EntryPlanParts(table, value);
      var create := CreateTableStatement(table, value, CreateTableQuery(table, value).value);
      var rest := [IndexStatement(table)] + AddColumnStatements(table, value);
      TextsAppend([create], rest);
      TextsAppend([IndexStatement(table)], AddColumnStatements(table, value));
      var o1 := Transact(db, rejects, [create]);
      TransactSpec(db, rejects, [create]);
      assert SyncOne(db, rejects, table, value) == AfterCreate(o1, rejects, table, value);
      if o1.result.Ok? {
        AfterCreateGrows(o1, rejects, table, value);
        var last := AfterCreate(o1, rejects, table, value).state;
        ExtendsWithinAppend(db, o1.state, last, Texts([create]), Texts(rest));
        SubSchemaTrans(db.schema, o1.state.schema, last.schema);
      } else {
        assert db.log[|db.log|..] == [];
      }
    } else {
      assert db.log[|db.log|..] == [];
    }
  }

  /** One event type fails only by a panic on a missing `type_mapping` key or by refusing one of its planned statements. */
  lemma SyncOneErrors(db: State, rejects: set<string>, table: string, value: Value)
    ensures SyncOne(db, rejects, table, value).result.Err? ==>
      SyncOne(db, rejects, table, value).result.error in {Panic(TypeMappingKey)}
      || SyncOne(db, rejects, table, value).result.error.Refused?
    ensures SyncOne(db, rejects, table, value).result.Err? && !Panics(value) ==>
      exists st :: st in EntryPlan(table, value) && st.sql in rejects
                   && SyncOne(db, rejects, table, value).result.error == Error.Refused(st.sql)
  {
    if !Panics(value) {
      var create := CreateTableStatement(table, value, CreateTableQuery(table, value).value);
      var index := IndexStatement(table);
      var adds := AddColumnStatements(table, value);
      EntryPlanParts(table, value);
      var o1 := Transact(db, rejects, [create]);
      TransactSpec(db, rejects, [create]);
      assert SyncOne(db, rejects, table, value) == AfterCreate(o1, rejects, table, value);
      if o1.result.Ok? {
        var o2 := Exec(o1.state, rejects, index);
        assert AfterCreate(o1, rejects, table, value) == AfterIndex(o2, rejects, table, value);
        if o2.result.Ok? {
          var o3 := Transact(o2.state, rejects, adds);
          TransactSpec(o2.state, rejects, adds);
          if o3.result.Err? {
            RunRefused(o2.state, rejects, adds);
            var i :| 0 <= i < |adds| && o3.result.error == Error.Refused(adds[i].sql) && adds[i].sql in rejects
                     && forall j :: 0 <= j < i ==> adds[j].sql !in rejects;
            assert adds[i] in EntryPlan(table, value);
          }
        } else {
          assert index in EntryPlan(table, value);
        }
      } else {
        RunRefused(db, rejects, [create]);
        assert create in EntryPlan(table, value);
      }
    }
  }

  /** A pass fails only by a panic on a missing `type_mapping` key or by refusing a statement of the plan. */
  lemma {:induction false} SyncAllErrors(db: State, rejects: set<string>, eventTypes: Map)
    decreases eventTypes
    ensures SyncAll(db, rejects, eventTypes).result.Err? ==>
      SyncAll(db, rejects, eventTypes).result.error in {Panic(TypeMappingKey)}
      || SyncAll(db, rejects, eventTypes).result.error.Refused?
    ensures SyncAll(db, rejects, eventTypes).result.Err? && NoPanic(eventTypes) ==>
      exists st :: st in Plan(eventTypes) && st.sql in rejects
                   && SyncAll(db, rejects, eventTypes).result.error == Error.Refused(st.sql)
  {
    if eventTypes != [] {
      SyncOneErrors(db, rejects, eventTypes[0].0, eventTypes[0].1);
      var o := SyncOne(db, rejects, eventTypes[0].0, eventTypes[0].1);
      NoPanicTail(eventTypes);
      if o.result.Ok? {
        SyncAllErrors(o.state, rejects, eventTypes[1..]);
        if SyncAll(db, rejects, eventTypes).result.Err? && NoPanic(eventTypes) {
          var st :| st in Plan(eventTypes[1..]) && st.sql in rejects
                    && SyncAll(o.state, rejects, eventTypes[1..]).result.error == Error.Refused(st.sql);
          assert st in Plan(eventTypes);
        }
      } else if NoPanic(eventTypes) {
        var st :| st in EntryPlan(eventTypes[0].0, eventTypes[0].1) && st.sql in rejects
                  && o.result.error == Error.Refused(st.sql);
        assert st in Plan(eventTypes);
      }
    }
  }

  lemma NoPanicTail(eventTypes: Map)
    requires eventTypes != []
    ensures NoPanic(eventTypes) <==> !Panics(eventTypes[0].1) && NoPanic(eventTypes[1..])
  {
    var rest := eventTypes[1..];
    if !Panics(eventTypes[0].1) && NoPanic(rest) {
      forall i | 0 <= i < |eventTypes| ensures !Panics(eventTypes[i].1) {
        if i > 0 { assert eventTypes[i] == rest[i - 1]; }
      }
    }
    if NoPanic(eventTypes) {
      forall i | 0 <= i < |rest| ensures !Panics(rest[i].1) {
        assert rest[i] == eventTypes[i + 1];
      }
    }
  }

  /**
    A full pass succeeds exactly when no event type is an object without a `type_mapping` key
    and the server refuses none of the planned statements.
   */
  lemma {:induction false} SyncAllSucceeds(db: State, rejects: set<string>, eventTypes: Map)
    decreases eventTypes
    ensures SyncAll(db, rejects, eventTypes).result.Ok? <==>
      NoPanic(eventTypes) && !AnyRejected(rejects, Plan(eventTypes))
  {
    if eventTypes != [] {
      var table, value := eventTypes[0].0, eventTypes[0].1;
      var rest := eventTypes[1..];
      SyncOneSucceeds(db, rejects, table, value);
      AnyRejectedAppend(rejects, EntryPlan(table, value), Plan(rest));
      NoPanicTail(eventTypes);
      var o := SyncOne(db, rejects, table, value);
      if o.result.Ok? {
        SyncAllSucceeds(o.state, rejects, rest);
      }
    }
  }

  /** A successful pass has committed the whole plan, in order. */
  lemma {:induction false} SyncAllCommits(db: State, rejects: set<string>, eventTypes: Map)
    decreases eventTypes
    requires SyncAll(db, rejects, eventTypes).result.Ok?
    ensures SyncAll(db, rejects, eventTypes).state.log == db.log + Texts(Plan(eventTypes))
  {
    if eventTypes != [] {
      var table, value := eventTypes[0].0, eventTypes[0].1;
      var rest := eventTypes[1..];
      var o := SyncOne(db, rejects, table, value);
      assert SyncAll(db, rejects, eventTypes) == SyncAll(o.state, rejects, rest);
      SyncOneCommits(db, rejects, table, value);
      TextsAppend(EntryPlan(table, value), Plan(rest));
      SyncAllCommits(o.state, rejects, rest);
    }
  }

  /**
    Whatever its outcome, a pass only adds to the schema, and what it
    committed is a prefix of the plan: the ratchet holds even for a pass that
    stops half way.
   */
  lemma {:induction false} SyncAllGrows(db: State, rejects: set<string>, eventTypes: Map)
    decreases eventTypes
    ensures Grows(db, SyncAll(db, rejects, eventTypes).state)
    ensures ExtendsWithin(db, SyncAll(db, rejects, eventTypes).state, Texts(Plan(eventTypes)))
  {
    if eventTypes != [] {
      var table, value := eventTypes[0].0, eventTypes[0].1;
      var rest := eventTypes[1..];
      SyncOneGrows(db, rejects, table, value);
      var entry := Texts(EntryPlan(table, value));
      TextsAppend(EntryPlan(table, value), Plan(rest));
      var o := SyncOne(db, rejects, table, value);
      if o.result.Ok? {
        SyncOneCommits(db, rejects, table, value);
        SyncAllGrows(o.state, rejects, rest);
        ExtendsWithinAppend(db, o.state, SyncAll(o.state, rejects, rest).state, entry, Texts(Plan(rest)));
      }
    }
  }

  /** After a successful pass every event type has its table, its columns and its index. */
  lemma {:induction false} SyncAllCovers(db: State, rejects: set<string>, eventTypes: Map, i: nat)
    decreases eventTypes
    requires i < |eventTypes|
    requires SyncAll(db, rejects, eventTypes).result.Ok?
    ensures Covered(SyncAll(db, rejects, eventTypes).state.schema, eventTypes[i].0, eventTypes[i].1)
  {
    var table, value := eventTypes[0].0, eventTypes[0].1;
    var rest := eventTypes[1..];
    var o := SyncOne(db, rejects, table, value);
    SyncOneCovers(db, rejects, table, value);
    SyncAllGrows(o.state, rejects, rest);
    if i > 0 {
      SyncAllCovers(o.state, rejects, rest, i - 1);
    }
  }

  lemma AddColumnsForFrom(table: string, tm: Map, i: nat)
    requires i < |tm|
    ensures AddColumnsFor(table, tm[i..])
         == (if tm[i].1.String?
             then [AddColumn(table, tm[i].0, QueryFromColumnDataType(table, tm[i].0, tm[i].1.s).value)]
             else [])
          + AddColumnsFor(table, tm[i + 1..])
  {
    assert tm[i..][1..] == tm[i + 1..];
  }

  /** The add-column statements of an event type, built entry by entry over its type mapping. */
  method AddColumnQueries(table: string, value: Value) returns (adds: seq<Statement>)
    ensures adds == AddColumnStatements(table, value)
  {
    adds := [];
    if value.Object? {
      var mapping := Lookup(value.members, TypeMappingKey);
      if mapping.Some? && mapping.value.Object? {
        adds := AddColumnLoop(table, mapping.value.members);
      }
    }
  }

  /** The loop over the columns of a type mapping, one add-column statement per string-typed column. */
  method AddColumnLoop(table: string, tm: Map) returns (adds: seq<Statement>)
    ensures adds == AddColumnsFor(table, tm)
  {
    adds := [];
    var i := 0;
    while i < |tm|
      invariant 0 <= i <= |tm|
      invariant adds + AddColumnsFor(table, tm[i..]) == AddColumnsFor(table, tm)
    {
      AddColumnsForFrom(table, tm, i);
      ghost var rest := AddColumnsFor(table, tm[i + 1..]);
      if tm[i].1.String? {
        var q := QueryFromColumnDataType(table, tm[i].0, tm[i].1.s);
        ghost var before := adds;
        adds := adds + [AddColumn(table, tm[i].0, q.value)];
        assert before + ([AddColumn(table, tm[i].0, q.value)] + rest) == adds + rest;
      }
      i := i + 1;
    }
    assert tm[i..] == [];
  }

  lemma SyncAllFrom(db: State, rejects: set<string>, eventTypes: Map, i: nat)
    requires i < |eventTypes|
    ensures SyncAll(db, rejects, eventTypes[i..])
         == var o := SyncOne(db, rejects, eventTypes[i].0, eventTypes[i].1);
            if o.result.Err? then o else SyncAll(o.state, rejects, eventTypes[i + 1..])
  {
    assert eventTypes[i..][1..] == eventTypes[i + 1..];
  }

  /** Synchronising one event type against the database, stage by stage. */
  method SyncEventType(db: Connection, table: string, value: Value) returns (r: Result<()>)
    modifies db
    ensures Outcome(db.Current(), r) == SyncOne(old(db.Current()), db.rejects, table, value)
  {
    var create := QueryFromEventType(table, value);
    if create.Err? {
      return Err(create.error);
    }
    ghost var start := db.Current();
    r := db.Transaction([CreateTableStatement(table, value, create.value)]);
    ghost var created := Outcome(db.Current(), r);
    assert SyncOne(start, db.rejects, table, value) == AfterCreate(created, db.rejects, table, value);
    if r.Err? {
      return;
    }
    r := db.Execute(IndexStatement(table));
    ghost var indexed := Outcome(db.Current(), r);
    assert AfterCreate(created, db.rejects, table, value) == AfterIndex(indexed, db.rejects, table, value);
    if r.Err? {
      return;
    }
    var adds := AddColumnQueries(table, value);
    r := db.Transaction(adds);
  }

  // ---------------------------------------------------------------------
  // Updating the schema from the event-type file
  // ---------------------------------------------------------------------

  /**
    `update_schema`: load the file, synchronise every event type, and on
    success report whether the new snapshot holds any event type.
   */
  function Update(db: State, rejects: set<string>, file: string, parsed: Result<Map>): Outcome
  {
    match LoadEventTypes(file, parsed)
    case Err(e) => Outcome(db, Err(e))
    case Ok(updated) =>
      var o := SyncAll(db, rejects, updated);
      if o.result.Err? then o
      else Outcome(o.state, if updated != [] then Ok(()) else Err(SchemaNotValid))
  }

  /**
    An update succeeds exactly when the file gives a non-empty map in
    which no event type is an object without a `type_mapping` key and none of whose statements the
    server refuses; once the file loaded, the schema-not-valid error can
    never be reported, since loading already refuses an empty map.
   */
  lemma UpdateSucceeds(db: State, rejects: set<string>, file: string, parsed: Result<Map>)
    ensures Update(db, rejects, file, parsed).result.Ok? <==>
      parsed.Ok? && parsed.value != [] && NoPanic(parsed.value) && !AnyRejected(rejects, Plan(parsed.value))
    ensures LoadEventTypes(file, parsed).Ok? ==> Update(db, rejects, file, parsed).result != Err(SchemaNotValid)
    ensures LoadEventTypes(file, parsed).Err? ==> Update(db, rejects, file, parsed).state == db
  {
    if parsed.Ok? && parsed.value != [] {
      SyncAllSucceeds(db, rejects, parsed.value);
      SyncAllErrors(db, rejects, parsed.value);
      var o := SyncAll(db, rejects, parsed.value);
      if o.result.Ok? {
        assert Update(db, rejects, file, parsed) == Outcome(o.state, Ok(()));
      }
    }
  }

  /**
    After a successful update the whole plan is committed in order and every
    event type has its table, columns and index. Whatever the outcome, the
    schema only grows and what was committed is a prefix of the plan.
   */
  lemma UpdateCommits(db: State, rejects: set<string>, file: string, parsed: Result<Map>)
    requires parsed.Ok?
    ensures Grows(db, Update(db, rejects, file, parsed).state)
    ensures ExtendsWithin(db, Update(db, rejects, file, parsed).state, Texts(Plan(parsed.value)))
    ensures Update(db, rejects, file, parsed).result.Ok? ==>
      Update(db, rejects, file, parsed).state.log == db.log + Texts(Plan(parsed.value))
    ensures Update(db, rejects, file, parsed).result.Ok? ==>
      forall i :: 0 <= i < |parsed.value| ==>
        Covered(Update(db, rejects, file, parsed).state.schema, parsed.value[i].0, parsed.value[i].1)
  {
    var m := parsed.value;
    if m != [] {
      SyncAllGrows(db, rejects, m);
      if SyncAll(db, rejects, m).result.Ok? {
        SyncAllCommits(db, rejects, m);
        forall i | 0 <= i < |m|
          ensures Covered(SyncAll(db, rejects, m).state.schema, m[i].0, m[i].1)
        {
          SyncAllCovers(db, rejects, m, i);
        }
      }
    } else {
      assert Update(db, rejects, file, parsed).state == db;
    }
  }

  /**
    The schema manager: the event-type file it follows, the receiving end of
    the file watcher's channel, and the event types of the last successful
    update.
   */
  class SchemaManager {
    var eventTypes: Map
    const eventTypesFile: string
    const receiver: Channel.Receiver

    /**
      The snapshot has been loaded successfully: a non-empty parsed object.
      This is not a class invariant. The constructor starts with an empty
      snapshot, as the struct literal does, and `New` establishes it.
     */
    predicate Valid()
      reads this
    {
      |eventTypes| > 0 && UniqueKeys(eventTypes)
    }

    constructor(file: string, receiver: Channel.Receiver)
      ensures eventTypes == [] && eventTypesFile == file && this.receiver == receiver
    {
      eventTypes := [];
      eventTypesFile := file;
      this.receiver := receiver;
    }

    /**
      `SchemaManager::new`: `watch` is the outcome of creating the watcher
      and registering the file, `parsed` what reading and parsing the file
      gives. Construction fails when the watch fails, when loading fails or
      when the first update fails.
     */
    static method New(file: string, watch: Result<()>, parsed: Result<Map>, db: Connection)
      returns (r: Result<SchemaManager>)
      requires parsed.Ok? ==> UniqueKeys(parsed.value)
      modifies db
      ensures watch.Err? ==> r == Err(watch.error) && db.Current() == old(db.Current())
      ensures watch.Ok? && LoadEventTypes(file, parsed).Err? ==>
        r == Err(LoadEventTypes(file, parsed).error) && db.Current() == old(db.Current())
      ensures watch.Ok? && LoadEventTypes(file, parsed).Ok? ==>
        db.Current() == Update(old(db.Current()), db.rejects, file, parsed).state
        && (r.Ok? <==> Update(old(db.Current()), db.rejects, file, parsed).result.Ok?)
        && (r.Err? ==> r.error == Update(old(db.Current()), db.rejects, file, parsed).result.error)
      ensures r.Ok? ==>
        && fresh(r.value) && fresh(r.value.receiver)
        && r.value.Valid() && r.value.eventTypes == parsed.value && r.value.eventTypesFile == file
        && r.value.receiver.queue == [] && r.value.receiver.connected
    {
      var rx := new Channel.Receiver();
      var manager := new SchemaManager(file, rx);
      if watch.Err? {
        return Err(watch.error);
      }
      var loaded := LoadEventTypes(file, parsed);
      if loaded.Err? {
        return Err(loaded.error);
      }
      manager.eventTypes := loaded.value;
      var u := manager.UpdateSchema(db, parsed);
      if u.Err? {
        return Err(u.error);
      }
      r := Ok(manager);
    }

    /**
      `check_update_schema`: looks at the channel without blocking. Nothing
      queued: fine while connected, an error once the sender is gone. A
      queued write event triggers an update; any other event is consumed
      and ignored.
     */
    method CheckUpdateSchema(db: Connection, parsed: Result<Map>) returns (r: Result<()>)
      requires parsed.Ok? ==> UniqueKeys(parsed.value)
      modifies this, receiver, db
      ensures receiver.connected == old(receiver.connected)
      ensures old(receiver.queue) == [] ==>
        && r == (if old(receiver.connected) then Ok(()) else Err(WatcherBroken))
        && receiver.queue == [] && eventTypes == old(eventTypes) && db.Current() == old(db.Current())
      ensures old(receiver.queue) != [] ==> receiver.queue == old(receiver.queue)[1..]
      ensures old(receiver.queue) != [] && !old(receiver.queue)[0].Write? ==>
        r == Ok(()) && eventTypes == old(eventTypes) && db.Current() == old(db.Current())
      ensures old(receiver.queue) != [] && old(receiver.queue)[0].Write? ==>
        && Outcome(db.Current(), r) == Update(old(db.Current()), db.rejects, eventTypesFile, parsed)
        && (r.Ok? ==> eventTypes == parsed.value)
        && (r.Err? ==> eventTypes == old(eventTypes))
      ensures old(Valid()) ==> Valid()
    {
      var received := receiver.TryReceive();
      match received
      case Received(event) =>
        if event.Write? {
          r := UpdateSchema(db, parsed);
        } else {
          r := Ok(());
        }
      case Empty =>
        r := Ok(());
      case Disconnected =>
        r := Err(WatcherBroken);
    }

    /**
      `update_schema`: synchronises the event types of the file one after
      the other; the snapshot is replaced only when all of them went through.
     */
    method UpdateSchema(db: Connection, parsed: Result<Map>) returns (r: Result<()>)
      requires parsed.Ok? ==> UniqueKeys(parsed.value)
      modifies this, db
      ensures Outcome(db.Current(), r) == Update(old(db.Current()), db.rejects, eventTypesFile, parsed)
      ensures r.Ok? ==> eventTypes == parsed.value && Valid()
      ensures r.Err? ==> eventTypes == old(eventTypes)
    {
      var loaded := LoadEventTypes(eventTypesFile, parsed);
      if loaded.Err? {
        return Err(loaded.error);
      }
      var updated := loaded.value;
      var i := 0;
      while i < |updated|
        invariant 0 <= i <= |updated|
        invariant SyncAll(old(db.Current()), db.rejects, updated) == SyncAll(db.Current(), db.rejects, updated[i..])
        invariant eventTypes == old(eventTypes)
      {
        ghost var before := db.Current();
        SyncAllFrom(before, db.rejects, updated, i);
        var step := SyncEventType(db, updated[i].0, updated[i].1);
        if step.Err? {
          return step;
        }
        i := i + 1;
      }
      assert updated[i..] == [];
      eventTypes := updated;
      r := if IsEventTypesValid() then Ok(()) else Err(SchemaNotValid);
    }

    /** `get_event_types`: the snapshot, which is never empty once construction succeeded. */
    function GetEventTypes(): (r: Map)
      reads this
      requires Valid()
      ensures |r| > 0 && UniqueKeys(r)
    {
      eventTypes
    }

    /** `is_event_types_valid`: the snapshot holds at least one event type. */
    predicate IsEventTypesValid(): (b: bool)
      reads this
      ensures b <==> |eventTypes| > 0
      ensures Valid() ==> b
    {
      eventTypes != []
    }
  }
}
