/**
  The database the SQL is sent to, kept abstract: which tables exist with
  which columns, which indexes exist, and the text of every committed
  statement in order. The server refuses exactly the statement texts in
  `rejects`, which stands for every failure it can report (connection loss,
  syntax error, constraint violation). A transaction commits all of its
  statements or, at its first refused statement, none of them.
 */
module Database {
  import opened Errors

  datatype Schema = Schema(tables: map<string, set<string>>, indexes: set<string>)

  /** A statement: the text sent to the server and what the server makes of it. */
  datatype Statement =
    | CreateTable(table: string, columns: set<string>, sql: string)
    | CreateIndex(index: string, table: string, sql: string)
    | AddColumn(table: string, column: string, sql: string)
    | Insert(table: string, sql: string)

  /** `b` keeps every table, column and index of `a`. */
  predicate SubSchema(a: Schema, b: Schema)
  {
    && a.indexes <= b.indexes
    && (forall t :: t in a.tables ==> t in b.tables && a.tables[t] <= b.tables[t])
  }

  /**
    The schema after a statement succeeds. Every DDL statement used is
    guarded by IF NOT EXISTS, so none of them removes or replaces anything.
   */
  function Apply(s: Schema, st: Statement): (s': Schema)
    ensures SubSchema(s, s')
    ensures st.CreateTable? ==> st.table in s'.tables
    ensures st.CreateIndex? ==> st.index in s'.indexes
    ensures st.AddColumn? && st.table in s.tables ==> st.column in s'.tables[st.table]
  {
    match st
    case CreateTable(t, cols, _) =>
      if t in s.tables then s else s.(tables := s.tables[t := cols])
    case CreateIndex(i, _, _) => s.(indexes := s.indexes + {i})
    case AddColumn(t, c, _) =>
      if t in s.tables then s.(tables := s.tables[t := s.tables[t] + {c}]) else s
    case Insert(_, _) => s
  }

  /** Every statement is idempotent: running it twice is running it once. */
  lemma ApplyIdempotent(s: Schema, st: Statement)
    ensures Apply(Apply(s, st), st) == Apply(s, st)
  {
    match st
    case CreateTable(t, cols, _) =>
    case CreateIndex(i, _, _) =>
    case AddColumn(t, c, _) =>
      if t in s.tables {
        assert s.tables[t] + {c} + {c} == s.tables[t] + {c};
      }
    case Insert(_, _) =>
  }

  datatype State = State(schema: Schema, log: seq<string>)

  /** The state a step leaves behind and whether it succeeded. */
  datatype Outcome = Outcome(state: State, result: Result<()>)

  predicate Grows(a: State, b: State)
  {
    SubSchema(a.schema, b.schema) && a.log <= b.log
  }

  /** The state after one accepted statement. */
  function Step(db: State, st: Statement): State
  {
    State(Apply(db.schema, st), db.log + [st.sql])
  }

  /** The texts of a list of statements. */
  function Texts(sts: seq<Statement>): (ts: seq<string>)
    ensures |ts| == |sts|
    ensures forall i :: 0 <= i < |sts| ==> ts[i] == sts[i].sql
  {
    seq(|sts|, i requires 0 <= i < |sts| => sts[i].sql)
  }

  lemma TextsOne(st: Statement)
    ensures Texts([st]) == [st.sql]
  {
  }

  lemma TextsAppend(a: seq<Statement>, b: seq<Statement>)
    ensures Texts(a + b) == Texts(a) + Texts(b)
  {
  }

  /** Some statement of the list is refused. */
  predicate AnyRejected(rejects: set<string>, sts: seq<Statement>)
  {
    exists i :: 0 <= i < |sts| && sts[i].sql in rejects
  }

  /** Runs the statements in order inside a transaction, up to the first refused one. */
  function Run(db: State, rejects: set<string>, sts: seq<Statement>): Result<State>
    decreases sts
  {
    if sts == [] then Ok(db)
    else if sts[0].sql in rejects then Err(Error.Refused(sts[0].sql))
    else Run(Step(db, sts[0]), rejects, sts[1..])
  }

  /** A transaction fails exactly when one of its statements is refused. */
  lemma {:induction false} RunFails(db: State, rejects: set<string>, sts: seq<Statement>)
    decreases sts
    ensures Run(db, rejects, sts).Ok? <==> !AnyRejected(rejects, sts)
  {
    if sts != [] && sts[0].sql !in rejects {
      RunFails(Step(db, sts[0]), rejects, sts[1..]);
      if AnyRejected(rejects, sts) {
        var i :| 0 <= i < |sts| && sts[i].sql in rejects;
        assert sts[1..][i - 1] == sts[i];
      }
      if AnyRejected(rejects, sts[1..]) {
        var i :| 0 <= i < |sts[1..]| && sts[1..][i].sql in rejects;
        assert sts[i + 1] == sts[1..][i];
      }
    }
  }

  /** A transaction that succeeds commits all of its statements in order, and the schema only grows. */
  lemma RunCommits(db: State, rejects: set<string>, sts: seq<Statement>)
    requires Run(db, rejects, sts).Ok?
    ensures Run(db, rejects, sts).value.log == db.log + Texts(sts)
    ensures Grows(db, Run(db, rejects, sts).value)
  {
    RunLog(db, rejects, sts);
    RunGrows(db, rejects, sts);
  }

  lemma {:induction false} RunLog(db: State, rejects: set<string>, sts: seq<Statement>)
    decreases sts
    requires Run(db, rejects, sts).Ok?
    ensures Run(db, rejects, sts).value.log == db.log + Texts(sts)
  {
    if sts != [] {
      var next := Step(db, sts[0]);
      assert Run(db, rejects, sts) == Run(next, rejects, sts[1..]);
      RunLog(next, rejects, sts[1..]);
      assert Texts(sts) == [sts[0].sql] + Texts(sts[1..]);
    }
  }

  lemma {:induction false} RunGrows(db: State, rejects: set<string>, sts: seq<Statement>)
    decreases sts
    requires Run(db, rejects, sts).Ok?
    ensures SubSchema(db.schema, Run(db, rejects, sts).value.schema)
  {
    if sts != [] {
      var next := Step(db, sts[0]);
      assert Run(db, rejects, sts) == Run(next, rejects, sts[1..]);
      RunGrows(next, rejects, sts[1..]);
      SubSchemaTrans(db.schema, next.schema, Run(next, rejects, sts[1..]).value.schema);
    }
  }

  /** A refused transaction reports the text of its first refused statement. */
  lemma {:induction false} RunRefused(db: State, rejects: set<string>, sts: seq<Statement>)
    decreases sts
    requires Run(db, rejects, sts).Err?
    ensures Run(db, rejects, sts).error.Refused?
    ensures Run(db, rejects, sts).error.sql in rejects
    ensures exists i :: 0 <= i < |sts| && Run(db, rejects, sts).error == Error.Refused(sts[i].sql)
                        && sts[i].sql in rejects && forall j :: 0 <= j < i ==> sts[j].sql !in rejects
  {
    if sts[0].sql !in rejects {
      RunRefused(Step(db, sts[0]), rejects, sts[1..]);
      var i :| 0 <= i < |sts[1..]| && Run(Step(db, sts[0]), rejects, sts[1..]).error == Error.Refused(sts[1..][i].sql)
               && sts[1..][i].sql in rejects && forall j :: 0 <= j < i ==> sts[1..][j].sql !in rejects;
      assert forall j :: 0 <= j < i + 1 ==> sts[j].sql !in rejects by {
        forall j | 0 <= j < i + 1 ensures sts[j].sql !in rejects {
          if j > 0 { assert sts[j] == sts[1..][j - 1]; }
        }
      }
      assert sts[i + 1] == sts[1..][i];
    } else {
      assert Run(db, rejects, sts).error == Error.Refused(sts[0].sql);
    }
  }

  lemma SubSchemaTrans(a: Schema, b: Schema, c: Schema)
    requires SubSchema(a, b) && SubSchema(b, c)
    ensures SubSchema(a, c)
  {
  }

  lemma AnyRejectedOne(rejects: set<string>, st: Statement)
    ensures AnyRejected(rejects, [st]) <==> st.sql in rejects
  {
    if st.sql in rejects { assert [st][0].sql in rejects; }
  }

  /** A list refuses a statement exactly when one of its two parts does. */
  lemma AnyRejectedAppend(rejects: set<string>, a: seq<Statement>, b: seq<Statement>)
    ensures AnyRejected(rejects, a + b) <==> AnyRejected(rejects, a) || AnyRejected(rejects, b)
  {
    if AnyRejected(rejects, a + b) {
      var i :| 0 <= i < |a + b| && (a + b)[i].sql in rejects;
      if i >= |a| { assert b[i - |a|] == (a + b)[i]; }
    }
    if AnyRejected(rejects, b) {
      var i :| 0 <= i < |b| && b[i].sql in rejects;
      assert (a + b)[|a| + i] == b[i];
    }
    if AnyRejected(rejects, a) {
      var i :| 0 <= i < |a| && a[i].sql in rejects;
      assert (a + b)[i] == a[i];
    }
  }

  /** `b`'s log is `a`'s followed by a prefix of `plan`. */
  predicate ExtendsWithin(a: State, b: State, plan: seq<string>)
  {
    a.log <= b.log && b.log[|a.log|..] <= plan
  }

  /** Running all of one plan and then part of the next runs part of the two together. */
  lemma ExtendsWithinAppend(a: State, b: State, c: State, p: seq<string>, q: seq<string>)
    requires b.log == a.log + p
    requires ExtendsWithin(b, c, q)
    ensures ExtendsWithin(a, c, p + q)
  {
    assert c.log[|a.log|..] == p + c.log[|b.log|..];
  }

  /** A transaction: all of the statements take effect, or none of them. */
  function Transact(db: State, rejects: set<string>, sts: seq<Statement>): Outcome
  {
    match Run(db, rejects, sts)
    case Ok(db') => Outcome(db', Ok(()))
    case Err(e) => Outcome(db, Err(e))
  }

  /** A statement run on its own, outside any transaction. */
  function Exec(db: State, rejects: set<string>, st: Statement): Outcome
  {
    if st.sql in rejects then Outcome(db, Err(Error.Refused(st.sql))) else Outcome(Step(db, st), Ok(()))
  }

  /**
    A transaction leaves the state as it was when it fails and appends all of
    its statements when it succeeds; either way the schema only grows.
   */
  lemma TransactSpec(db: State, rejects: set<string>, sts: seq<Statement>)
    ensures Transact(db, rejects, sts).result.Ok? <==> !AnyRejected(rejects, sts)
    ensures Transact(db, rejects, sts).result.Ok? ==> Transact(db, rejects, sts).state.log == db.log + Texts(sts)
    ensures Transact(db, rejects, sts).result.Err? ==> Transact(db, rejects, sts).state == db
    ensures Grows(db, Transact(db, rejects, sts).state)
    ensures Transact(db, rejects, sts).result.Err? ==> Transact(db, rejects, sts).result.error.Refused?
  {
    RunFails(db, rejects, sts);
    if Run(db, rejects, sts).Ok? {
      RunCommits(db, rejects, sts);
    } else {
      RunRefused(db, rejects, sts);
    }
  }

  /** A connection to the server; the statements it commits are appended to `log`. */
  class Connection {
    var schema: Schema
    var log: seq<string>
    const rejects: set<string>

    function Current(): State
      reads this
    {
      State(schema, log)
    }

    constructor (schema: Schema, rejects: set<string>)
      ensures this.schema == schema && this.log == [] && this.rejects == rejects
    {
      this.schema := schema;
      this.log := [];
      this.rejects := rejects;
    }

    /** `sql_query(sql).execute(&conn)` outside a transaction. */
    method Execute(st: Statement) returns (r: Result<()>)
      modifies this
      ensures Outcome(Current(), r) == Exec(old(Current()), rejects, st)
    {
      if st.sql in rejects {
        r := Err(Error.Refused(st.sql));
      } else {
        schema, log := Apply(schema, st), log + [st.sql];
        r := Ok(());
      }
    }

    /** `conn.build_transaction().run(..)` over the given statements, rolled back on the first refusal. */
    method Transaction(sts: seq<Statement>) returns (r: Result<()>)
      modifies this
      ensures Outcome(Current(), r) == Transact(old(Current()), rejects, sts)
    {
      var work := Current();
      var i := 0;
      while i < |sts|
        invariant 0 <= i <= |sts|
        invariant Run(Current(), rejects, sts) == Run(work, rejects, sts[i..])
        invariant Current() == old(Current())
      {
        assert sts[i..][1..] == sts[i + 1..];
        if sts[i].sql in rejects {
          return Err(Error.Refused(sts[i].sql));
        }
        work := Step(work, sts[i]);
        i := i + 1;
      }
      schema, log := work.schema, work.log;
      r := Ok(());
    }
  }
}
