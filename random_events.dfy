/**
  Random writes: pick one event type of the snapshot, build an INSERT with
  a random literal for each column of its type mapping, and commit it in a
  transaction of its own.

  Randomness is a parameter. `word` is the raw draw behind the choice of
  event type and `draw(k)` the raw draw behind the literal of column `k`;
  `GenRange` turns a raw draw into a value of the half-open range the
  program asks for. `stamp(ms)` is the clock reading `ms` milliseconds ago,
  formatted as the program formats it.
 */
module RandomEvents {
  import opened Json
  import opened Errors
  import opened Strings
  import opened Database
  import SchemaManagement

  /** `gen_range(lo..hi)` on the raw draw `word`. */
  function GenRange(word: nat, lo: int, hi: int): (r: int)
    requires lo < hi
    ensures lo <= r < hi
  {
    lo + word % (hi - lo)
  }

  /** Every value of the range is the outcome of some draw. */
  lemma GenRangeCovers(lo: int, hi: int, v: int)
    requires lo <= v < hi
    ensures GenRange(v - lo, lo, hi) == v
  {
    assert (v - lo) % (hi - lo) == v - lo;
  }

  // ---------------------------------------------------------------------
  // Column values
  // ---------------------------------------------------------------------

  /** The random literal drawn for one column: a number, a past instant, or nothing. */
  datatype Literal =
    | Int(n: nat)
    /** The instant `ms` milliseconds before now. */
    | Ago(ms: nat)
    | Blank

  /**
    The literal for a column of type `dataType`: timestamps lie up to a
    million milliseconds in the past, `bigint` below a billion, `int` below a
    thousand, all starting at one; any other type, and a type that is not a
    string, gets no literal at all.
   */
  function Slot(dataType: Value, word: nat): (lit: Literal)
    ensures dataType == String("timestamp") ==> lit.Ago? && 1 <= lit.ms < 1000000
    ensures dataType == String("bigint") ==> lit.Int? && 1 <= lit.n < 1000000000
    ensures dataType == String("int") ==> lit.Int? && 1 <= lit.n < 1000
    ensures dataType !in {String("timestamp"), String("bigint"), String("int")} ==> lit == Blank
  {
    match dataType
    case String(t) =>
      if t == "timestamp" then Ago(GenRange(word, 1, 1000000))
      else if t == "bigint" then Int(GenRange(word, 1, 1000000000))
      else if t == "int" then Int(GenRange(word, 1, 1000))
      else Blank
    case _ => Blank
  }

  /** The SQL text of a literal. */
  function Render(lit: Literal, stamp: nat -> string): string
  {
    match lit
    case Int(n) => NatToString(n)
    case Ago(ms) => stamp(ms)
    case Blank => ""
  }

  /** The literal texts of a type mapping, column by column. */
  function ValueTexts(tm: Map, draw: nat -> nat, stamp: nat -> string): (vs: seq<string>)
    ensures |vs| == |tm|
  {
    seq(|tm|, k requires 0 <= k < |tm| => Render(Slot(tm[k].1, draw(k)), stamp))
  }

  /** The INSERT statement for table `table` with the columns and literals of `tm`. */
  function InsertSql(table: string, tm: Map, draw: nat -> nat, stamp: nat -> string): string
  {
    "INSERT INTO " + table + "(" + Join(", ", Keys(tm)) + ") VALUES ("
      + Join(", ", ValueTexts(tm, draw, stamp)) + ")"
  }

  /**
    A numeric column's text is a plain decimal numeral that reads back as
    the number drawn, inside the column type's range.
   */
  lemma NumberTextReadsBack(tm: Map, draw: nat -> nat, stamp: nat -> string, k: nat)
    requires k < |tm|
    requires tm[k].1 == String("int") || tm[k].1 == String("bigint")
    ensures var text := ValueTexts(tm, draw, stamp)[k];
      && (forall j :: 0 <= j < |text| ==> IsDigit(text[j]))
      && 1 <= ParseDecimal(text) < (if tm[k].1 == String("int") then 1000 else 1000000000)
  {
    var lit := Slot(tm[k].1, draw(k));
    ParseNatToString(lit.n);
  }

  /**
    Column and value lists line up: one value slot per column, in the same
    order. A timestamp column gets an instant within the last million
    milliseconds, and a column of any other type than the three known ones
    gets an empty slot.
   */
  lemma ValuesAligned(tm: Map, draw: nat -> nat, stamp: nat -> string, k: nat)
    requires k < |tm|
    ensures |ValueTexts(tm, draw, stamp)| == |Keys(tm)| == |tm|
    ensures Keys(tm)[k] == tm[k].0
    ensures tm[k].1 == String("timestamp") ==>
      exists ms: nat :: 1 <= ms < 1000000 && ValueTexts(tm, draw, stamp)[k] == stamp(ms)
    ensures tm[k].1 !in {String("timestamp"), String("bigint"), String("int")} ==>
      ValueTexts(tm, draw, stamp)[k] == ""
  {
    var lit := Slot(tm[k].1, draw(k));
    if tm[k].1 == String("timestamp") {
      assert ValueTexts(tm, draw, stamp)[k] == stamp(lit.ms);
    }
  }

  /** The list built after the loop has seen `k` of the elements of `xs`. */
  function Listed(xs: seq<string>, k: nat): string
    requires k <= |xs|
  {
    if k == 0 then "" else Join(", ", xs[..k]) + (if k < |xs| then ", " else "")
  }

  lemma ListedStep(xs: seq<string>, k: nat)
    requires k < |xs|
    ensures Listed(xs, k + 1) == Listed(xs, k) + xs[k] + (if k != |xs| - 1 then ", " else "")
  {
    assert xs[..k + 1] == xs[..k] + [xs[k]];
    if k > 0 {
      JoinSnoc(", ", xs[..k], xs[k]);
    }
  }

  lemma ListedAll(xs: seq<string>)
    ensures Listed(xs, |xs|) == Join(", ", xs)
  {
    assert xs[..|xs|] == xs;
  }

  /**
    `sql_from_type_mapping`: walks the mapping once, appending each column
    name and its literal, and a separator to both lists after every column
    but the last.
   */
  method SqlFromTypeMapping(table: string, tm: Map, draw: nat -> nat, stamp: nat -> string)
    returns (r: Result<string>)
    ensures r == Ok(InsertSql(table, tm, draw, stamp))
  {
    ghost var names := Keys(tm);
    ghost var texts := ValueTexts(tm, draw, stamp);
    var columnsList := "";
    var values := "";
    var counter := 0;
    while counter < |tm|
      invariant 0 <= counter <= |tm|
      invariant columnsList == Listed(names, counter)
      invariant values == Listed(texts, counter)
    {
      ListedStep(names, counter);
      ListedStep(texts, counter);
      columnsList := columnsList + tm[counter].0;
      var literal := Slot(tm[counter].1, draw(counter));
      values := values + Render(literal, stamp);
      if counter != |tm| - 1 {
        columnsList := columnsList + ", ";
        values := values + ", ";
      }
      counter := counter + 1;
    }
    ListedAll(names);
    ListedAll(texts);
    r := Ok("INSERT INTO " + table + "(" + columnsList + ") VALUES (" + values + ")");
  }

  /** An empty type mapping gives empty column and value lists; the loop never runs. */
  lemma EmptyMappingInsert(table: string, draw: nat -> nat, stamp: nat -> string)
    ensures InsertSql(table, [], draw, stamp) == "INSERT INTO " + table + "() VALUES ()"
  {
    assert Keys([]) == [] && ValueTexts([], draw, stamp) == [];
  }

  /** A column of a type the generator does not know gets an empty value. */
  lemma UnknownTypeInsert(table: string, draw: nat -> nat, stamp: nat -> string)
    ensures InsertSql(table, [("a", String("text"))], draw, stamp) == "INSERT INTO " + table + "(a) VALUES ()"
  {
    var tm := [("a", String("text"))];
    assert Keys(tm) == ["a"];
    assert ValueTexts(tm, draw, stamp) == [""];
  }

  // ---------------------------------------------------------------------
  // Committing one random event
  // ---------------------------------------------------------------------

  /** The position of the event type the draw `word` picks. */
  function Pick(eventTypes: Map, word: nat): (k: nat)
    requires eventTypes != []
    ensures k < |eventTypes|
  {
    GenRange(word, 0, |eventTypes|)
  }

  /** Every event type of the snapshot can be picked. */
  lemma EveryEventTypeReachable(eventTypes: Map, k: nat)
    requires k < |eventTypes|
    ensures Pick(eventTypes, k) == k
  {
    GenRangeCovers(0, |eventTypes|, k);
  }

  /** The event type looked up by the picked name: the first entry with that name. */
  function Chosen(eventTypes: Map, word: nat): (v: Value)
    requires eventTypes != []
    ensures exists j :: 0 <= j < |eventTypes| && eventTypes[j] == (eventTypes[Pick(eventTypes, word)].0, v)
  {
    var name := Keys(eventTypes)[Pick(eventTypes, word)];
    assert eventTypes[Pick(eventTypes, word)].0 == name;
    Lookup(eventTypes, name).value
  }

  /** In a parsed object, whose names are distinct, the looked-up event type is the picked entry. */
  lemma ChosenIsPicked(eventTypes: Map, word: nat)
    requires eventTypes != [] && UniqueKeys(eventTypes)
    ensures Chosen(eventTypes, word) == eventTypes[Pick(eventTypes, word)].1
  {
    LookupAt(eventTypes, Pick(eventTypes, word));
  }

  /** `commit_random_event` as a function of the database state and the draws. */
  function Commit(db: State, rejects: set<string>, eventTypes: Map, word: nat,
                  draw: nat -> nat, stamp: nat -> string): Outcome
  {
    if eventTypes == [] then Outcome(db, Err(EmptyRange))
    else
      var name := eventTypes[Pick(eventTypes, word)].0;
      var eventType := Chosen(eventTypes, word);
      if !eventType.Object? then Outcome(db, Err(InvalidEventType(eventType)))
      else match Lookup(eventType.members, SchemaManagement.TypeMappingKey)
        case None => Outcome(db, Err(Panic(SchemaManagement.TypeMappingKey)))
        case Some(Object(tm)) => Transact(db, rejects, [Insert(name, InsertSql(name, tm, draw, stamp))])
        case Some(_) => Outcome(db, Err(InvalidEventType(eventType)))
  }

  /**
    A random write either commits exactly one INSERT into the picked event
    type's table and leaves the schema alone, or changes nothing. It
    succeeds exactly when the picked event type is an object whose
    `type_mapping` is an object and the server accepts the statement.
    A failure reports why: an empty snapshot, a picked value or a
    `type_mapping` that is not an object, a missing `type_mapping`, or the
    refused INSERT.
   */
  lemma CommitSpec(db: State, rejects: set<string>, eventTypes: Map, word: nat,
                   draw: nat -> nat, stamp: nat -> string)
    ensures eventTypes == [] ==> Commit(db, rejects, eventTypes, word, draw, stamp).result == Err(EmptyRange)
    ensures Commit(db, rejects, eventTypes, word, draw, stamp).result.Ok? <==>
      && eventTypes != []
      && SchemaManagement.TypeMapping(Chosen(eventTypes, word)).Some?
      && InsertSql(eventTypes[Pick(eventTypes, word)].0, SchemaManagement.TypeMapping(Chosen(eventTypes, word)).value,
                   draw, stamp) !in rejects
    ensures Commit(db, rejects, eventTypes, word, draw, stamp).result.Ok? ==>
      && Commit(db, rejects, eventTypes, word, draw, stamp).state.schema == db.schema
      && Commit(db, rejects, eventTypes, word, draw, stamp).state.log
         == db.log + [InsertSql(eventTypes[Pick(eventTypes, word)].0,
                                SchemaManagement.TypeMapping(Chosen(eventTypes, word)).value, draw, stamp)]
    ensures Commit(db, rejects, eventTypes, word, draw, stamp).result.Err? ==>
      Commit(db, rejects, eventTypes, word, draw, stamp).state == db
    ensures eventTypes != [] && !Chosen(eventTypes, word).Object? ==>
      Commit(db, rejects, eventTypes, word, draw, stamp).result == Err(InvalidEventType(Chosen(eventTypes, word)))
    ensures eventTypes != [] && SchemaManagement.Panics(Chosen(eventTypes, word)) ==>
      Commit(db, rejects, eventTypes, word, draw, stamp).result == Err(Panic(SchemaManagement.TypeMappingKey))
    ensures eventTypes != [] && Chosen(eventTypes, word).Object? && !SchemaManagement.Panics(Chosen(eventTypes, word))
            && SchemaManagement.TypeMapping(Chosen(eventTypes, word)).None? ==>
      Commit(db, rejects, eventTypes, word, draw, stamp).result == Err(InvalidEventType(Chosen(eventTypes, word)))
    ensures eventTypes != [] && SchemaManagement.TypeMapping(Chosen(eventTypes, word)).Some?
            && InsertSql(eventTypes[Pick(eventTypes, word)].0, SchemaManagement.TypeMapping(Chosen(eventTypes, word)).value,
                         draw, stamp) in rejects ==>
      Commit(db, rejects, eventTypes, word, draw, stamp).result
      == Err(Refused(InsertSql(eventTypes[Pick(eventTypes, word)].0,
                               SchemaManagement.TypeMapping(Chosen(eventTypes, word)).value, draw, stamp)))
  {
    if eventTypes != [] {
      var name := eventTypes[Pick(eventTypes, word)].0;
      var eventType := Chosen(eventTypes, word);
      match SchemaManagement.TypeMapping(eventType)
      case Some(tm) =>
        var insert := Insert(name, InsertSql(name, tm, draw, stamp));
        TransactSpec(db, rejects, [insert]);
        AnyRejectedOne(rejects, insert);
        assert Texts([insert]) == [insert.sql];
        if insert.sql !in rejects {
          assert Run(db, rejects, [insert]) == Run(Step(db, insert), rejects, []);
        }
      case None =>
    }
  }

  /** `commit_random_event`: picks an event type, builds its INSERT and commits it. */
  method CommitRandomEvent(db: Connection, eventTypes: Map, word: nat, draw: nat -> nat, stamp: nat -> string)
    returns (r: Result<()>)
    modifies db
    ensures Outcome(db.Current(), r) == Commit(old(db.Current()), db.rejects, eventTypes, word, draw, stamp)
  {
    if |eventTypes| == 0 {
      return Err(EmptyRange);
    }
    var names := Keys(eventTypes);
    var index := GenRange(word, 0, |eventTypes|);
    var name := names[index];
    assert eventTypes[index].0 == name;
    var eventType := Lookup(eventTypes, name).value;
    if eventType.Object? {
      var mapping := Lookup(eventType.members, SchemaManagement.TypeMappingKey);
      if mapping.None? {
        return Err(Panic(SchemaManagement.TypeMappingKey));
      }
      if mapping.value.Object? {
        var sql := SqlFromTypeMapping(name, mapping.value.members, draw, stamp);
        r := db.Transaction([Insert(name, sql.value)]);
        return;
      }
    }
    r := Err(InvalidEventType(eventType));
  }
}
