/** The transaction object the services use: it is open, aborted by a failed statement, or closed. */
module Transactions {
  import opened Base
  import opened Reachability
  import opened Entities
  import opened Schema
  import opened CascadeSteps
  import opened Statements

  /** The committed tables. open counts the transactions begun and not yet closed. In a steady
      environment no statement fails for a reason outside the tables. */
  class Database {
    const steady: bool
    var tables: Tables
    var open: nat

    /** Freshly migrated. */
    constructor (steady: bool)
      ensures tables == EMPTY && open == 0 && this.steady == steady
    {
      this.steady, tables, open := steady, EMPTY, 0;
    }
  }

  datatype Status = Open | Aborted | Closed

  class Transaction {
    const db: Database
    var work: Tables
    var status: Status

    constructor Begin(db: Database)
      modifies db`open
      ensures this.db == db && work == db.tables && status == Open
      ensures db.open == old(db.open) + 1
    {
      this.db, work, status := db, db.tables, Open;
      new;
      db.open := db.open + 1;
    }

    /** Whether the environment lets the next statement through. */
    method Lose() returns (lost: bool)
      ensures db.steady ==> !lost
    {
      lost := *;
      lost := lost && !db.steady;
    }

    /** A SELECT. */
    method Query() returns (r: Result<Unit, SqlError>)
      modifies this
      ensures work == old(work)
      ensures r.Success? ==> status == old(status) == Open
      ensures r.Failure? ==> status != Open && (status == Closed <==> old(status) == Closed)
      ensures r.Failure? ==> r.error in {Lost, TxAborted, TxClosed}
      ensures old(status) == Open && db.steady ==> r.Success?
    {
      r := Execute(Success(work));
    }

    /** A statement whose effect on the tables this transaction sees is outcome. A failed statement
        aborts the transaction, and every later statement fails. */
    method Execute(outcome: Result<Tables, SqlError>) returns (r: Result<Unit, SqlError>)
      modifies this
      ensures r.Success? ==> status == old(status) == Open && outcome == Success(work)
      ensures r.Failure? ==> work == old(work) && status != Open && (status == Closed <==> old(status) == Closed)
      ensures r.Failure? ==> r.error in {Lost, TxAborted, TxClosed} || outcome == Failure(r.error)
      ensures r.Failure? && old(status) == Open ==> r.error == Lost || outcome == Failure(r.error)
      ensures old(status) == Open && db.steady ==>
                (if outcome.Success? then r.Success? else r == Failure(outcome.error))
    {
      if status == Closed { return Failure(TxClosed); }
      if status == Aborted { return Failure(TxAborted); }
      var lost := Lose();
      if lost {
        status := Aborted;
        return Failure(Lost);
      }
      match outcome
      case Success(t) => work := t; r := Success(Unit);
      case Failure(e) => status := Aborted; r := Failure(e);
    }

    /** AFTER DELETE triggers of the rows already named: one trigger run for each deleted row and each
        cascading foreign key on its table deletes the rows that refer to it by that key, and the count
        trigger of a deleted reply subtracts one from its root. Pending triggers are run in any order;
        the result does not depend on it. */
    method RunCascade(seeds: set<Row>) returns (violated: bool)
      requires CountsOk(work.messages)
      requires forall r | r in seeds :: Present(work, r)
      modifies this`work
      ensures !violated
      ensures work == Prune(old(work), Cascaded(old(work), seeds)) && OnlyRowsGone(old(work), work)
    {
      hide Cascading, Prune, Strip, Cascaded, CountsOk, Decrements, Rows, Referenced, OnlyRowsGone;
      ghost var start, gone := work, seeds;
      var pend, decs := Triggers(seeds), Decrements(work, seeds);
      work := Strip(work, seeds);
      violated := false;
      CascadeStart(start, seeds);
      while pend != {} || decs != map[]
        invariant !violated
        invariant Cascading(start, work, seeds, gone, pend, decs)
        decreases Rows(start) - gone, pend, decs.Keys
      {
        if
        case pend != {} =>
          var g :| g in pend;
          var kids := Found(work, g);
          CascadeStep(start, work, seeds, gone, pend, decs, g, kids);
          KidsAreNew(start, work, seeds, gone, pend, decs, kids);
          decs := decs + Decrements(work, kids);
          work := Strip(work, kids);
          gone, pend := gone + kids, pend - {g} + Triggers(kids);
        case decs != map[] =>
          var d :| d in decs;
          var m := decs[d];
          CascadeSubtract(start, work, seeds, gone, pend, decs, d);
          if m in work.messages {
            if work.messages[m].count - 1 < 0 { violated := true; }
            work := work.(messages := work.messages[m := work.messages[m].(count := work.messages[m].count - 1)]);
          }
          decs := decs - {d};
      }
      CascadeDone(start, work, seeds, gone);
      PruneTakesOnlyRows(start, Cascaded(start, seeds));
    }

    /** DELETE of the named rows, as far as they exist, with its triggers and RESTRICT checks. */
    method DeleteRows(rows: set<Row>) returns (r: Result<nat, SqlError>)
      requires CountsOk(work.messages)
      modifies this
      ensures r.Success? ==>
                && status == old(status) == Open
                && !UserInUse(old(work), Existing(old(work), rows))
                && r.value == |Existing(old(work), rows)|
                && work == Prune(old(work), Cascaded(old(work), Existing(old(work), rows)))
      ensures OnlyRowsGone(old(work), work)
      ensures r.Failure? ==> work == old(work) && status != Open && (status == Closed <==> old(status) == Closed)
      ensures r.Failure? ==> r.error in {Lost, TxAborted, TxClosed}
                             || (r.error.ForeignKey? && UserInUse(old(work), Existing(old(work), rows)))
      ensures old(status) == Open && db.steady ==>
                (r.Success? <==> !UserInUse(old(work), Existing(old(work), rows)))
    {
      var present := Existing(work, rows);
      var outcome := if UserInUse(work, present) then Failure(ForeignKey("restrict")) else Success(work);
      var e := Execute(outcome);
      if e.Failure? { return Failure(e.error); }
      var violated := RunCascade(present);
      return Success(|present|);
    }

    /** Closes the transaction. A commit after a failed statement is a rollback that reports an error;
        a reported error means the writes were not published. */
    method Commit() returns (r: Result<Unit, SqlError>)
      requires status != Closed ==> db.open > 0
      modifies this, db
      ensures status == Closed
      ensures db.open == old(db.open) - (if old(status) == Closed then 0 else 1)
      ensures db.tables == (if r.Success? then old(work) else old(db.tables))
      ensures r.Success? ==> old(status) == Open
      ensures r == Failure(TxClosed) <==> old(status) == Closed
      ensures r.Failure? ==> r.error in {Lost, TxAborted, TxClosed}
      ensures old(status) == Open && db.steady ==> r.Success?
    {
      if status == Closed { return Failure(TxClosed); }
      var aborted := status == Aborted;
      status := Closed;
      db.open := db.open - 1;
      if aborted { return Failure(TxAborted); }
      var lost := Lose();
      if lost { return Failure(Lost); }
      db.tables := work;
      r := Success(Unit);
    }

    method Rollback() returns (r: Result<Unit, SqlError>)
      requires status != Closed ==> db.open > 0
      modifies this, db`open
      ensures status == Closed
      ensures db.open == old(db.open) - (if old(status) == Closed then 0 else 1)
      ensures r == Failure(TxClosed) <==> old(status) == Closed
      ensures old(status) != Closed && db.steady ==> r.Success?
    {
      if status == Closed { return Failure(TxClosed); }
      status := Closed;
      db.open := db.open - 1;
      var lost := Lose();
      if lost { return Failure(Lost); }
      r := Success(Unit);
    }

    /** Whatever happened before, the transaction is closed after this; on a closed one it is no error. */
    method RollbackUnlessClosed() returns (r: Result<Unit, SqlError>)
      requires status != Closed ==> db.open > 0
      modifies this, db`open
      ensures status == Closed
      ensures db.open == old(db.open) - (if old(status) == Closed then 0 else 1)
      ensures old(status) == Closed || db.steady ==> r.Success?
    {
      r := Rollback();
      if r == Failure(TxClosed) { r := Success(Unit); }
    }
  }

  /** pool.Begin. */
  method BeginTx(db: Database) returns (r: Result<Transaction, SqlError>)
    modifies db`open
    ensures r.Success? ==>
              && fresh(r.value)
              && r.value.db == db && r.value.work == db.tables && r.value.status == Open
              && db.open == old(db.open) + 1
    ensures r.Failure? ==> db.open == old(db.open) && !db.steady
  {
    var lost: bool := *;
    if lost && !db.steady { return Failure(Lost); }
    var tx := new Transaction.Begin(db);
    r := Success(tx);
  }

  /** A single SELECT outside an explicit transaction. */
  method Ask(db: Database) returns (r: Result<Unit, SqlError>)
    ensures db.steady ==> r.Success?
    ensures r.Failure? ==> r.error == Lost
  {
    var lost: bool := *;
    r := if lost && !db.steady then Failure(Lost) else Success(Unit);
  }

  /** A single INSERT or UPDATE outside an explicit transaction. */
  method Autocommit(db: Database, outcome: Result<Tables, SqlError>) returns (r: Result<Unit, SqlError>)
    modifies db
    ensures db.open == old(db.open)
    ensures r.Success? ==> outcome == Success(db.tables)
    ensures r.Failure? ==> db.tables == old(db.tables) && (outcome == Failure(r.error) || r.error in {Lost, TxAborted})
    ensures db.steady ==> (r.Success? <==> outcome.Success?)
    ensures db.steady && r.Failure? ==> outcome == Failure(r.error)
  {
    var began := BeginTx(db);
    if began.Failure? { return Failure(Lost); }
    var tx := began.value;
    var done := tx.Execute(outcome);
    var committed := tx.Commit();
    r := if done.Failure? then done else committed;
  }

  /** A single DELETE by primary key outside an explicit transaction; returns the number of rows named. */
  method AutocommitDelete(db: Database, row: Row) returns (r: Result<nat, SqlError>)
    requires CountsOk(db.tables.messages) && !row.UserRow?
    modifies db
    ensures db.open == old(db.open)
    ensures r.Success? ==> r.value == if Present(old(db.tables), row) then 1 else 0
    ensures r.Success? && r.value == 1 ==> db.tables == Prune(old(db.tables), Cascaded(old(db.tables), {row}))
    ensures r.Failure? || r.value == 0 ==> db.tables == old(db.tables)
    ensures OnlyRowsGone(old(db.tables), db.tables)
    ensures db.steady ==> r.Success?
  {
    ghost var t := db.tables;
    var began := BeginTx(db);
    if began.Failure? { return Failure(Lost); }
    var tx := began.value;
    assert Existing(t, {row}) == if Present(t, row) then {row} else {};
    if !Present(t, row) { NothingCascades(t); }
    hide Prune, Cascaded, CountsOk;
    var done := tx.DeleteRows({row});
    var committed := tx.Commit();
    r := if committed.Failure? then Failure(committed.error) else done;
  }

  lemma NothingCascades(t: Tables)
    ensures Prune(t, Cascaded(t, {})) == t
  {
    hide Edges, Strip, Without, Reach;
    ReachLeast(Edges(t), {}, {});
    assert Cascaded(t, {}) == {} && MessagesIn({}) == {};
    NothingStripped(t);
    WithoutNothing(t.messages);
  }

  lemma NothingStripped(t: Tables)
    ensures Strip(t, {}) == t
  {
    var s := Strip(t, {});
    assert s.users == t.users && s.identities == t.identities && s.workspaces == t.workspaces;
    assert s.members == t.members && s.channels == t.channels && s.seats == t.seats;
  }

  function Existing(t: Tables, rows: set<Row>): set<Row> {
    set r | r in rows && Present(t, r)
  }

  /** A RESTRICT foreign key refers to one of these users. */
  predicate UserInUse(t: Tables, rows: set<Row>) {
    exists r :: r in rows && r.UserRow? && Restricted(t, r.user)
  }
}
