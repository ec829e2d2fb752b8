# dbreadwrite core in Dafny

dbreadwrite writes random events into a PostgreSQL database and
keeps the database schema in step with a JSON file of event types. Each event
type names a table and carries a `type_mapping` object from column names to SQL
type names. This project models the two parts of the program that turn event
types into SQL, and proves properties about them.

- **The schema manager** (`schema_management.dfy`). `SchemaManager` keeps the
  last successfully synchronised event types and the receiving end of the
  file watcher's channel. An update runs, for each event type in the map's iteration order:
  a `CREATE TABLE IF NOT EXISTS` in one transaction, then the time index
  `CREATE INDEX CONCURRENTLY IF NOT EXISTS t_tsidx ON t(time)` on its own,
  then one `ALTER TABLE ... ADD COLUMN IF NOT EXISTS` per string-typed column
  in a second transaction. `check_update_schema` polls the channel without
  blocking. A write event triggers an update. Any other event is dropped. A
  disconnected channel is an error.
- **Random writes** (`random_events.dfy`). One event type is picked at random.
  An `INSERT INTO t(c1, c2, ...) VALUES (v1, v2, ...)` is built with one
  random literal per column: `int` in [1, 1000), `bigint` in [1, 10^9), and
  `timestamp` up to 10^6 ms in the past. The insert is committed in a
  transaction of its own.

Supporting modules:

- `json.dfy`: parsed JSON values. An object is a sequence of `(key, value)`
  pairs in iteration order.
- `errors.dfy`: the errors and the `Result` type.
- `database.dfy`: an abstract database. It holds tables with their column
  sets, indexes, and a log of committed statement texts. A set `rejects`
  stands for every statement text the server refuses.
- `channel.dfy`: the receiving end of an mpsc channel, as a queue plus a
  connected flag.
- `strings.dfy`: joining, decimal numerals, and blank-free words.

The database, the file and the random number generator are parameters.
`parsed` is what reading and parsing the event-type file yields. `watch` is
the outcome of registering the file watcher. `word` and `draw(k)` are raw
random draws, and `GenRange` maps them into the half-open range requested.
`stamp(ms)` is the formatted clock reading `ms` milliseconds ago.

## Model

| member | source | states |
|---|---|---|
| Json.Lookup | src/schema_management.rs:148 | Looking up a key in an object finds a value exactly when some entry has that key, and the value found is stored under that key |
| Json.LookupAt | src/random_events.rs:19-23 | In an object with distinct keys, looking up the key of entry i gives the value of entry i |
| Database.Apply | src/schema_management.rs:162 | Each statement only adds to the schema (IF NOT EXISTS): create-table adds its table, create-index adds its index, add-column adds its column to an existing table |
| Database.ApplyIdempotent | src/schema_management.rs:173 | Running any statement twice leaves the schema as running it once does |
| Database.RunFails | src/schema_management.rs:75-83 | A transaction fails exactly when one of its statements is refused |
| Database.RunCommits | src/schema_management.rs:89-108 | A successful transaction appends all of its statement texts, in order, and the schema only grows |
| Database.RunRefused | src/schema_management.rs:79 | A failed transaction reports as its error the text of its first refused statement, one the server refuses, with every earlier statement accepted |
| Database.TransactSpec | src/schema_management.rs:75-83 | Transactions are all-or-nothing: success iff no statement is refused, success appends all texts, failure leaves the state unchanged, and the schema never shrinks |
| Database.AnyRejectedAppend | src/schema_management.rs:71-109 | A statement list is refused somewhere exactly when one of its two parts is |
| Database.ExtendsWithinAppend | src/schema_management.rs:71-109 | Committing a full plan p and then a prefix of plan q commits a prefix of p + q |
| Database.Connection.Execute | src/schema_management.rs:86 | Executing outside a transaction changes the connection's state exactly as `Exec` says: committed unless refused |
| Database.Connection.Transaction | src/schema_management.rs:75-83 | Running statements in a transaction leaves the connection's state and the result exactly as `Transact` says; the loop stops at the first refused statement and then rolls back |
| Channel.Receiver.TryReceive | src/schema_management.rs:44-60 | try_recv delivers and removes the oldest queued event; with nothing queued it reports Empty while connected and Disconnected otherwise; the connection flag never changes |
| Strings.JoinSnoc | src/random_events.rs:70-72 | Appending one element to a non-empty joined list appends the separator and the element |
| Strings.NatToString | src/random_events.rs:61-64 | The decimal text of a number is non-empty, all digits, and has no leading zero |
| Strings.ParseNatToString | src/random_events.rs:61-64 | The decimal text of a number reads back as that number |
| Strings.Word | src/schema_management.rs:173 | The leading word of a text is a blank-free prefix, followed by a blank when it is shorter than the text |
| Strings.WordOf | src/schema_management.rs:173 | A blank-free word followed by a blank is read back as the leading word |
| SchemaManagement.LoadEventTypes | src/schema_management.rs:128-142 | Loading fails exactly when parsing failed or the map is empty; an empty map gives the "could not parse a single event_type" error naming the file; otherwise the parsed map is returned unchanged |
| SchemaManagement.QueryFromColumnDataType | src/schema_management.rs:167-178 | Building the add-column statement never fails, and the text starts with "ALTER TABLE " |
| SchemaManagement.AddColumnRoundTrip | src/schema_management.rs:172-175 | Table, column and data type read back exactly out of the add-column statement when the two names hold no blank |
| SchemaManagement.MintCoinsAddColumn | src/schema_management.rs:180-188 | The add-column statement for mint_coins/time/timestamp is the text the unit test expects |
| SchemaManagement.CreateTableSql | src/schema_management.rs:162 | The create-table statement starts with "CREATE TABLE IF NOT EXISTS " |
| SchemaManagement.ColumnsBeforeLast | src/schema_management.rs:150-158 | Before the last entry, the column loop has written each string-typed definition so far, each followed by a comma |
| SchemaManagement.ColumnsJoined | src/schema_management.rs:149-159 | The column list is the string-typed definitions joined by ",", with one trailing comma exactly when the last entry is not a string and an earlier entry is |
| SchemaManagement.DefsAllStrings | src/schema_management.rs:152-153 | When every entry is string-typed there is one definition per entry, in mapping order |
| SchemaManagement.ColumnsWellFormed | src/schema_management.rs:149-159 | For a mapping of string types only, the column list is "name type" for every entry, in order, joined by "," with no blank |
| SchemaManagement.CreateTableQueryCases | src/schema_management.rs:144-165 | query_from_event_type panics exactly on an object without "type_mapping"; a non-object value or a non-object type_mapping gives "()"; an all-string mapping gives the comma-joined definitions |
| SchemaManagement.MintCoinsColumns | src/schema_management.rs:196-205 | The column list of the mint_coins fixture is "account_id int,amount bigint,time timestamp" |
| SchemaManagement.MintCoinsCreateTable | src/schema_management.rs:196-205 | The create-table statement for mint_coins is the text the unit test expects |
| SchemaManagement.TrailingComma | src/schema_management.rs:152-156 | A mapping whose last entry is not a string leaves a comma before the closing parenthesis: "CREATE TABLE IF NOT EXISTS t (a int,)" |
| SchemaManagement.QueryFromEventType | src/schema_management.rs:144-165 | The counter loop builds exactly the statement `CreateTableQuery` describes, including the panic on a missing type_mapping |
| SchemaManagement.IndexStatement | src/schema_management.rs:86 | The index statement creates an index on the event type's own table and starts with "CREATE INDEX CONCURRENTLY IF NOT EXISTS " |
| SchemaManagement.EntryPlanAdditive | src/schema_management.rs:71-109 | Every statement an update issues for an event type is a create-table, create-index or add-column on that event type's table, with the matching IF NOT EXISTS text; none is an insert |
| SchemaManagement.AddColumnsForShape | src/schema_management.rs:94-103 | Every add-column statement targets the event type's table and starts with "ALTER TABLE <table> ADD COLUMN IF NOT EXISTS " |
| SchemaManagement.AddColumnsCover | src/schema_management.rs:92-106 | Committing an event type's add-column statements puts every string-typed column into its table |
| SchemaManagement.EntryPlanParts | src/schema_management.rs:71-109 | An event type that is not an object without a `type_mapping` key is planned as its create-table, then its index, then its add-columns |
| SchemaManagement.EntryPlanTexts | src/schema_management.rs:71-109 | The texts of that plan are the create-table text, the index text, then the add-column texts |
| SchemaManagement.Indexed | src/schema_management.rs:75-86 | After the first two stages the log has grown by the create-table text and then the index text |
| SchemaManagement.SyncOneSucceeds | src/schema_management.rs:71-109 | One event type goes through exactly when it is not an object without a `type_mapping` key and the server refuses none of its planned statements; a non-object value or a non-object `type_mapping` still goes through with an empty column list |
| SchemaManagement.SyncOneStages | src/schema_management.rs:75-108 | A successful event type committed its create-table and its index, then ran its add-column transaction |
| SchemaManagement.SyncOneCommits | src/schema_management.rs:71-109 | A successful event type committed its whole plan, in order |
| SchemaManagement.SyncOneCovers | src/schema_management.rs:71-109 | After a successful event type, its table, its index and every string-typed column exist |
| SchemaManagement.AfterCreateGrows | src/schema_management.rs:85-108 | After the create-table stage, the index and add-column stages only add to the schema and commit a prefix of their part of the plan |
| SchemaManagement.SyncOneGrows | src/schema_management.rs:71-109 | Whatever its outcome, one event type only adds to the schema and commits a prefix of its plan |
| SchemaManagement.SyncOneErrors | src/schema_management.rs:71-109 | One event type fails only through the type_mapping panic or a refused statement; when it does not panic, the refused text is that of one of its planned statements |
| SchemaManagement.SyncAllErrors | src/schema_management.rs:71-109 | A pass fails only through the type_mapping panic or a refused statement; when no event type panics, the refused text is that of a statement of the plan |
| SchemaManagement.NoPanicTail | src/schema_management.rs:71 | No event type is an object without a `type_mapping` key exactly when this holds for the first one and for all the rest |
| SchemaManagement.SyncAllSucceeds | src/schema_management.rs:71-109 | A pass goes through exactly when no event type is an object without a `type_mapping` key and the server refuses none of the planned statements |
| SchemaManagement.SyncAllCommits | src/schema_management.rs:71-109 | A successful pass committed the statements of all event types, event type after event type, each in create-table, index, add-column order |
| SchemaManagement.SyncAllGrows | src/schema_management.rs:71-109 | Whatever its outcome, a pass only adds to the schema and what it committed is a prefix of the plan, even when it stops half way |
| SchemaManagement.SyncAllCovers | src/schema_management.rs:71-109 | After a successful pass every event type has its table, its index and all its string-typed columns |
| SchemaManagement.AddColumnsForFrom | src/schema_management.rs:94-103 | The add-column statements from entry i on are entry i's statement, if it is string-typed, followed by those from i+1 on |
| SchemaManagement.AddColumnQueries | src/schema_management.rs:92-106 | The add-column statements built for an event type are exactly those of its type mapping, or none when it has no object mapping |
| SchemaManagement.AddColumnLoop | src/schema_management.rs:94-104 | The loop over the type mapping builds one add-column statement per string-typed column, in mapping order |
| SchemaManagement.SyncAllFrom | src/schema_management.rs:71 | A pass from event type i on runs event type i and, if it succeeds, the pass from i+1 on |
| SchemaManagement.SyncEventType | src/schema_management.rs:72-108 | Synchronising one event type against the connection changes its state and reports its result exactly as `SyncOne` says |
| SchemaManagement.UpdateSucceeds | src/schema_management.rs:65-117 | An update succeeds exactly when the file gives a non-empty map, no event type is an object without a `type_mapping` key and no statement is refused; once the file loaded, "schema not valid" is never reported; a failed load touches nothing |
| SchemaManagement.UpdateCommits | src/schema_management.rs:65-117 | Whatever its outcome, an update only adds to the schema and commits a prefix of the plan; a successful one commits the whole plan and covers every event type |
| SchemaManagement.SchemaManager.constructor | src/schema_management.rs:24-29 | A manager starts with no event types, its file name and its channel |
| SchemaManagement.SchemaManager.New | src/schema_management.rs:22-40 | Construction fails with the watch error, the load error or the first update's error; on success the manager holds the parsed non-empty event types, a fresh connected empty channel, and the database was updated as `Update` says |
| SchemaManagement.SchemaManager.CheckUpdateSchema | src/schema_management.rs:42-63 | Nothing queued: Ok while connected, "watcher is broken" otherwise, nothing changes; a non-write event is consumed and ignored; a write event is consumed and runs an update; the snapshot invariant is kept |
| SchemaManagement.SchemaManager.UpdateSchema | src/schema_management.rs:65-117 | The database and result follow `Update`; on success the snapshot becomes the loaded map, which is non-empty; on any failure the snapshot is untouched |
| SchemaManagement.SchemaManager.GetEventTypes | src/schema_management.rs:119-121 | The snapshot handed out is non-empty and has distinct names once construction succeeded |
| SchemaManagement.SchemaManager.IsEventTypesValid | src/schema_management.rs:123-125 | The snapshot counts as valid exactly when it is non-empty, which always holds for a constructed manager |
| RandomEvents.GenRange | src/random_events.rs:21 | A draw mapped into lo..hi lies in the half-open range |
| RandomEvents.GenRangeCovers | src/random_events.rs:21 | Every value of the range is the outcome of some draw |
| RandomEvents.Slot | src/random_events.rs:56-67 | A timestamp column gets an offset in [1, 10^6) ms, bigint a number in [1, 10^9), int a number in [1, 1000), any other type no literal |
| RandomEvents.ValueTexts | src/random_events.rs:53-75 | There is one value text per column |
| RandomEvents.NumberTextReadsBack | src/random_events.rs:60-65 | The text of an int or bigint column is a decimal numeral whose value lies in the type's range |
| RandomEvents.ValuesAligned | src/random_events.rs:53-75 | Column and value lists line up slot for slot; a timestamp column gets the instant of an offset in [1, 10^6) ms, and an unknown type gets an empty slot |
| RandomEvents.ListedStep | src/random_events.rs:70-73 | Each loop step appends the next element and, except after the last element, the ", " separator |
| RandomEvents.ListedAll | src/random_events.rs:77 | After the last element the built list is the elements joined by ", " |
| RandomEvents.SqlFromTypeMapping | src/random_events.rs:48-79 | The loop never fails and builds "INSERT INTO t(" + keys joined by ", " + ") VALUES (" + value texts joined by ", " + ")" |
| RandomEvents.EmptyMappingInsert | src/random_events.rs:53-77 | An empty type mapping gives "INSERT INTO t() VALUES ()" without evaluating the separator test |
| RandomEvents.UnknownTypeInsert | src/random_events.rs:66 | A column of an unknown type gets an empty value: "INSERT INTO t(a) VALUES ()" |
| RandomEvents.Pick | src/random_events.rs:21-22 | The picked index lies within the key list |
| RandomEvents.EveryEventTypeReachable | src/random_events.rs:21 | Every event type can be picked |
| RandomEvents.Chosen | src/random_events.rs:22-23 | The looked-up event type is stored under the picked name |
| RandomEvents.ChosenIsPicked | src/random_events.rs:19-23 | With distinct names, the looked-up event type is the picked entry |
| RandomEvents.CommitSpec | src/random_events.rs:16-45 | An empty map gives the empty-range panic; success exactly when the picked event type has an object type_mapping and the insert is accepted; success appends exactly that INSERT and leaves the schema alone; failure changes nothing and names its cause: InvalidEventType for a non-object value or type_mapping, the type_mapping panic for a missing one, Refused with the INSERT text for a refused insert |
| RandomEvents.CommitRandomEvent | src/random_events.rs:16-45 | The method changes the connection and reports its result exactly as `Commit` says |

## Left out

- Reading and parsing the event-type file (src/schema_management.rs:129-132) is I/O plus a foreign JSON parser. The parsed result is a parameter, and JSON numbers are integers only.
- The `notify` watcher (creation, registration, its thread and the 5-second debounce, src/schema_management.rs:23-34) is outside the model. Its setup outcome is the `watch` parameter. The channel is modelled by its receiving end; `Send` and `Hangup` stand for the watcher thread.
- `SchemaManager::new` reads the file twice, once itself and once in `update_schema`. The model gives both reads the same `parsed` value.
- `establish_connection` opens a new connection per event type and panics when it cannot connect. The model uses one `Connection` for the database and does not model the connection panic. `src/pgconn.rs` is not part of this model.
- The serializable and repeatable-read isolation levels and all concurrency are out. Only one client is modelled.
- The PostgreSQL server itself is abstract. Tables, columns, indexes and the log of committed texts are modelled. The server refuses exactly the texts in `rejects`, which stands for every failure it can report.
- `rand`'s distribution is out. `GenRange` maps a raw draw into the requested range. Column k always uses draw k, whatever its type.
- `chrono` is out: the clock reading and its `'%Y-%m-%d %H:%M:%S'` formatting are the `stamp` parameter. One `stamp` serves a whole INSERT, so every timestamp column of it reads the same clock, while the program reads the clock once per column.
- Panics are modelled as error results that leave the state unchanged: `Panic("type_mapping")` for indexing a missing key and `EmptyRange` for drawing from an empty range. In the program a panic ends the thread.
- Error message texts are not modelled. Each error is a constructor of `Errors.Error` that carries its data, and its doc comment gives the text.
- SchemaManagement.UpdateSucceeds: the "schema not valid" error is excluded only when the file loaded, since a parse error is passed through as given.
- The `{:?}` renderings, `trace!`/`info!` logging, `src/schema.rs`, and the binaries in `src/bin/` are out; they hold no logic of the modelled core.
- `execute_random_read_query` is not part of this model: its body is not in `src/random_events.rs`.
- A failure to create the time index ends the update with an error (src/schema_management.rs:86). Loading accepts any non-empty map without checking the type names.
