/** Properties of every run of the concurrent membership model. */
module OwnershipRuns {
  import opened Base
  import opened RowLocks
  import opened Entities
  import opened OwnershipModel
  import opened OwnershipInvariant

  // ---------------------------------------------------------------- one statement

  /** A statement that goes on leaves the transaction in order. */
  lemma AdvanceKeepsTxOk(db: Db, born: set<Id>, tx: Tx, c: Choice)
    requires DbOk(db) && db.users + db.workspaces <= born && TxOk(db, born, tx)
    requires Advance(db, tx, c).Continue?
    ensures TxOk(db, born, Advance(db, tx, c).tx)
  {
    match tx.phase
    case InsertMember => InsertKeeps(db, born, tx, c);
    case LockOwned(todo) => LockOwnedKeeps(db, born, tx, c);
    case Cascade(pend, rows) => CascadeKeeps(db, born, tx, c);
    case DropUser => DropUserKeeps(db, born, tx, c);
    case CheckUserFk => SingleRowKeeps(db, born, tx, c);
    case DeleteMember => SingleRowKeeps(db, born, tx, c);
    case DropWorkspace => SingleRowKeeps(db, born, tx, c);
    case Begun => BegunKeeps(db, born, tx, c);
    case ListMembers => ListMembersKeeps(db, born, tx, c);
    case CheckActor => CheckActorKeeps(db, born, tx, c);
    case FindOwned => FindOwnedKeeps(db, born, tx, c);
    case _ =>
  }

  lemma BegunKeeps(db: Db, born: set<Id>, tx: Tx, c: Choice)
    requires DbOk(db) && db.users + db.workspaces <= born && TxOk(db, born, tx) && tx.phase == Begun
    requires Advance(db, tx, c).Continue?
    ensures TxOk(db, born, Advance(db, tx, c).tx)
  {
  }

  lemma ListMembersKeeps(db: Db, born: set<Id>, tx: Tx, c: Choice)
    requires DbOk(db) && db.users + db.workspaces <= born && TxOk(db, born, tx) && tx.phase == ListMembers
    requires Advance(db, tx, c).Continue?
    ensures TxOk(db, born, Advance(db, tx, c).tx)
  {
    assert Apply(db, tx.delta) == db;
    MembersOfContents(db, tx.op.ws);
  }

  lemma CheckActorKeeps(db: Db, born: set<Id>, tx: Tx, c: Choice)
    requires DbOk(db) && db.users + db.workspaces <= born && TxOk(db, born, tx) && tx.phase == CheckActor
    requires Advance(db, tx, c).Continue?
    ensures TxOk(db, born, Advance(db, tx, c).tx)
  {
    assert Apply(db, tx.delta) == db;
  }

  lemma FindOwnedKeeps(db: Db, born: set<Id>, tx: Tx, c: Choice)
    requires DbOk(db) && db.users + db.workspaces <= born && TxOk(db, born, tx) && tx.phase == FindOwned
    requires Advance(db, tx, c).Continue?
    ensures TxOk(db, born, Advance(db, tx, c).tx)
  {
    assert Apply(db, tx.delta) == db;
    OwnedByContents(db, tx.op.user);
  }

  lemma SingleRowKeeps(db: Db, born: set<Id>, tx: Tx, c: Choice)
    requires DbOk(db) && TxOk(db, born, tx)
    requires tx.phase.CheckUserFk? || tx.phase.DeleteMember? || tx.phase.DropWorkspace?
    requires Advance(db, tx, c).Continue?
    ensures TxOk(db, born, Advance(db, tx, c).tx)
  {
  }

  lemma InsertKeeps(db: Db, born: set<Id>, tx: Tx, c: Choice)
    requires DbOk(db) && db.users + db.workspaces <= born && TxOk(db, born, tx) && tx.phase.InsertMember?
    requires Advance(db, tx, c).Continue?
    ensures TxOk(db, born, Advance(db, tx, c).tx)
  {
    if tx.op.Create? {
      assert tx.op.ws in Reserved(tx.op);
      assert NewKey(tx.op) !in db.members;
    }
  }

  lemma LockOwnedKeeps(db: Db, born: set<Id>, tx: Tx, c: Choice)
    requires DbOk(db) && TxOk(db, born, tx) && tx.phase.LockOwned?
    requires Advance(db, tx, c).Continue?
    ensures TxOk(db, born, Advance(db, tx, c).tx)
  {
    OwnedByContents(db, tx.op.user);
    var tx' := Advance(db, tx, c).tx;
    if tx.phase.todo == {} {
      assert tx'.phase.Cascade?;
      forall k | k in db.members ensures !Due(tx'.delta, tx'.phase.pend, k) {}
      assert CascadeOk(db, tx', tx'.phase.pend, {});
    }
  }

  lemma CascadeKeeps(db: Db, born: set<Id>, tx: Tx, c: Choice)
    requires DbOk(db) && TxOk(db, born, tx) && tx.phase.Cascade?
    requires Advance(db, tx, c).Continue?
    ensures TxOk(db, born, Advance(db, tx, c).tx)
  {
    var Cascade(pend, rows) := tx.phase;
    var tx' := Advance(db, tx, c).tx;
    assert Advance(db, tx, c) == RunCascade(Apply(db, tx.delta), tx, c);
    if rows != {} {
      VisitKeeps(db, tx, c);
    } else if pend != {} {
      CascadeStarts(db, tx, pend, c.row);
      assert CascadeOk(db, tx', tx'.phase.pend, tx'.phase.rows);
    }
  }

  lemma VisitKeeps(db: Db, tx: Tx, c: Choice)
    requires tx.phase.Cascade? && CascadeOk(db, tx, tx.phase.pend, tx.phase.rows)
    requires tx.phase.rows != {} && RunCascade(Apply(db, tx.delta), tx, c).Continue?
    ensures var tx' := RunCascade(Apply(db, tx.delta), tx, c).tx;
            tx'.op == tx.op && tx'.phase.Cascade? && CascadeOk(db, tx', tx'.phase.pend, tx'.phase.rows)
  {
    var Cascade(pend, rows) := tx.phase;
    var k := c.key;
    assert OnlyDeletes(tx.delta);
    if k !in Apply(db, tx.delta).members {
      assert CascadeOk(db, tx.(phase := Cascade(pend, rows - {k})), pend, rows - {k});
    } else {
      var d' := tx.delta.(goneMembers := tx.delta.goneMembers + {k});
      var tx' := tx.(phase := Cascade(pend, rows - {k}), held := tx.held + {ForUpdate(MemberRow(k))}, delta := d');
      assert ParentsOk(db, tx');
      assert forall x | x in db.members && Due(d', pend, x) :: Due(tx.delta, pend, x);
    }
  }

  /** The snapshot of a cascade query covers every membership row that refers to its parent. */
  lemma CascadeStarts(db: Db, tx: Tx, pend: set<Row>, p: Row)
    requires CascadeOk(db, tx, pend, {}) && p in pend
    ensures CascadeOk(db, tx, pend - {p}, set k | k in Apply(db, tx.delta).members && RefersTo(k, p))
  {
    var rows := set k | k in Apply(db, tx.delta).members && RefersTo(k, p);
    forall k | k in db.members && Due(tx.delta, pend - {p}, k) ensures k in tx.delta.goneMembers || k in rows {
      if !Due(tx.delta, pend, k) {
        assert RefersTo(k, p);
      }
    }
  }

  lemma DropUserKeeps(db: Db, born: set<Id>, tx: Tx, c: Choice)
    requires DbOk(db) && TxOk(db, born, tx) && tx.phase.DropUser?
    requires Advance(db, tx, c).Continue?
    ensures TxOk(db, born, Advance(db, tx, c).tx)
  {
    var tx' := Advance(db, tx, c).tx;
    forall k | k in db.members && Due(tx'.delta, tx'.phase.pend, k) ensures k in tx'.delta.goneMembers {
      assert Due(tx.delta, {}, k);
    }
  }

  /** An error answer is the one the call would give if it ran alone on the current tables. */
  lemma ReturnIsVerdict(db: Db, born: set<Id>, tx: Tx, c: Choice)
    requires DbOk(db) && db.users + db.workspaces <= born && TxOk(db, born, tx)
    requires Advance(db, tx, c).Return?
    ensures Advance(db, tx, c).outcome == Verdict(tx.op, db) && Verdict(tx.op, db) != Done
    ensures !Verdict(tx.op, db).Listed?
  {
    MembersOfContents(db, if tx.op.Read? then tx.op.ws else 0);
    match tx.phase
    case ListMembers => assert Apply(db, tx.delta) == db;
    case CheckActor => assert Apply(db, tx.delta) == db;
    case InsertMember => InsertReturns(db, born, tx, c);
    case DeleteMember => assert Apply(db, tx.delta) == db;
    case _ =>
  }

  lemma NewWsHasNoMembers(db: Db, born: set<Id>, op: Op)
    requires KeysHold(db) && db.workspaces <= born && Reserved(op) !! born
    ensures op.Create? ==> forall o | o in db.members :: o.ws != op.ws
  {
    assert op.Create? ==> op.ws in Reserved(op);
  }

  lemma InsertReturns(db: Db, born: set<Id>, tx: Tx, c: Choice)
    requires DbOk(db) && db.users + db.workspaces <= born && TxOk(db, born, tx) && tx.phase.InsertMember?
    requires Advance(db, tx, c).Return?
    ensures tx.op.Add? && Advance(db, tx, c).outcome == AlreadyMember == Verdict(tx.op, db)
  {
    var v := Apply(db, tx.delta);
    assert v.members == db.members;
    NewWsHasNoMembers(db, born, tx.op);
  }

  // ---------------------------------------------------------------- all transactions

  /** The listed members whose accounts still exist. */
  function CurrentPart(db: Db, list: map<Id, Role>): map<Id, Role> {
    map u | u in list && u in db.users :: list[u]
  }

  /** An answer agrees with the tables of the moment the call finished. A listing, which is that of an
      earlier moment of the call, may still show accounts deleted since, and nothing else that is out
      of date. */
  ghost predicate Agrees(op: Op, outcome: Outcome, db: Db) {
    if outcome.Listed? then
      && op.Read?
      && op.ws in db.workspaces
      && op.actor in outcome.list
      && CurrentPart(db, outcome.list) == MembersOf(db, op.ws)
    else
      outcome == Verdict(op, db)
  }

  ghost predicate Faithful(log: seq<Event>) {
    forall i | 0 <= i < |log| :: Agrees(log[i].op, log[i].outcome, Replay(log[..i]))
  }

  predicate Apart(a: Tx, b: Tx) {
    Compatible(a.held, b.held) && Reserved(a.op) !! Reserved(b.op)
  }

  ghost predicate Inv(s: State) {
    && DbOk(s.db)
    && s.db.users + s.db.workspaces <= s.born
    && (forall t | t in s.txs :: TxOk(s.db, s.born, s.txs[t]))
    && (forall t, o | t in s.txs && o in s.txs && t != o :: Apart(s.txs[t], s.txs[o]))
    && s.db == Replay(s.log)
    && Faithful(s.log)
  }

  lemma LogGrows(log: seq<Event>, e: Event)
    requires Faithful(log) && Agrees(e.op, e.outcome, Replay(log))
    ensures Faithful(log + [e])
    ensures Replay(log + [e]) == Effect(e.op, Replay(log))
  {
    var log' := log + [e];
    assert log'[..|log|] == log;
    forall i | 0 <= i < |log'| ensures Agrees(log'[i].op, log'[i].outcome, Replay(log'[..i])) {
      if i < |log| { assert log'[..i] == log[..i]; }
    }
  }

  /** A lock is added only after it was granted. */
  lemma GrantedKeepsApart(s: State, t: Tid, c: Choice, o: Tid)
    requires t in s.txs && o in s.txs && o != t && Apart(s.txs[t], s.txs[o])
    requires Granted(s, t, c) && Advance(s.db, s.txs[t], c).Continue?
    ensures Apart(Advance(s.db, s.txs[t], c).tx, s.txs[o])
    ensures Apart(s.txs[o], Advance(s.db, s.txs[t], c).tx)
  {
    var tx, tx' := s.txs[t], Advance(s.db, s.txs[t], c).tx;
    assert tx'.op == tx.op;
    HeldGrows(s.db, tx, c);
    assert !WaitsFor(s, t, c, o);
    forall x, y | x in tx'.held && y in s.txs[o].held ensures !Clash(x, y) && !Clash(y, x) {
      if x !in tx.held { assert x == Request(s.db, tx, c).value; }
    }
  }

  lemma HeldGrows(db: Db, tx: Tx, c: Choice)
    requires Advance(db, tx, c).Continue?
    ensures var tx' := Advance(db, tx, c).tx;
            tx'.op == tx.op
            && (tx'.held == tx.held || (Request(db, tx, c).Some? && tx'.held == tx.held + {Request(db, tx, c).value}))
  {
  }

  lemma ContinueKeepsInv(s: State, t: Tid, c: Choice, s': State)
    requires Inv(s) && Next(s, Act(t, c), s') && Advance(s.db, s.txs[t], c).Continue?
    ensures Inv(s')
  {
    AdvanceKeepsTxOk(s.db, s.born, s.txs[t], c);
    forall a, b | a in s'.txs && b in s'.txs && a != b ensures Apart(s'.txs[a], s'.txs[b]) {
      if a == t { GrantedKeepsApart(s, t, c, b); }
      else if b == t { GrantedKeepsApart(s, t, c, a); }
    }
  }

  /** The answer of a committing transaction agrees with the tables it commits on. */
  lemma CommitAgrees(db: Db, born: set<Id>, tx: Tx)
    requires DbOk(db) && TxOk(db, born, tx) && Committing(tx)
    ensures Agrees(tx.op, Answer(tx), db)
    ensures Apply(db, tx.delta) == Effect(tx.op, db)
  {
    if tx.phase.Answered? {
      ListingAgrees(db, born, tx);
    } else {
      CommitIsEffect(db, born, tx);
    }
  }

  lemma ListingAgrees(db: Db, born: set<Id>, tx: Tx)
    requires DbOk(db) && TxOk(db, born, tx) && tx.phase.Answered?
    ensures Agrees(tx.op, Listed(tx.phase.list), db)
    ensures Apply(db, tx.delta) == Effect(tx.op, db)
  {
    MembersOfContents(db, tx.op.ws);
    assert CurrentPart(db, tx.phase.list) == MembersOf(db, tx.op.ws);
    assert Apply(db, tx.delta) == db;
  }

  lemma OthersSurviveCommit(s: State, t: Tid, o: Tid)
    requires Inv(s) && t in s.txs && o in s.txs && o != t
    requires Committing(s.txs[t])
    requires KeysHold(Apply(s.db, s.txs[t].delta))
    ensures TxOk(Apply(s.db, s.txs[t].delta), s.born + Reserved(s.txs[t].op), s.txs[o])
  {
    var tx := s.txs[t];
    assert TxOk(s.db, s.born, tx) && TxOk(s.db, s.born, s.txs[o]) && Apart(tx, s.txs[o]);
    CommitGuarantee(s.db, s.born, tx);
    Stable(s.db, Apply(s.db, tx.delta), tx.held, Reserved(tx.op), s.txs[o], s.born);
  }

  lemma BornGrows(db: Db, born: set<Id>, op: Op)
    requires db.users + db.workspaces <= born
    ensures Effect(op, db).users + Effect(op, db).workspaces <= born + Reserved(op)
  {
  }

  predicate Committing(tx: Tx) { tx.phase == Ready || tx.phase.Answered? }

  function Answer(tx: Tx): Outcome
    requires Committing(tx)
  {
    if tx.phase == Ready then Done else Listed(tx.phase.list)
  }

  lemma OnlyCommittingPublish(db: Db, tx: Tx, c: Choice)
    ensures Advance(db, tx, c).Publish? <==> Committing(tx)
    ensures Committing(tx) ==> Advance(db, tx, c) == Publish(Answer(tx))
  {
  }

  lemma CommitKeepsTables(s: State, t: Tid)
    requires Inv(s) && t in s.txs && Committing(s.txs[t])
    ensures var tx, db' := s.txs[t], Apply(s.db, s.txs[t].delta);
            var log' := s.log + [Event(tx.op, Answer(tx))];
            && DbOk(db')
            && db'.users + db'.workspaces <= s.born + Reserved(tx.op)
            && db' == Replay(log') && Faithful(log')
  {
    var tx := s.txs[t];
    assert TxOk(s.db, s.born, tx);
    CommitAgrees(s.db, s.born, tx);
    assert tx.op.Create? ==> tx.op.ws in Reserved(tx.op);
    EffectKeepsDbOk(tx.op, s.db);
    BornGrows(s.db, s.born, tx.op);
    LogGrows(s.log, Event(tx.op, Answer(tx)));
  }

  lemma OthersKeepInv(s: State, t: Tid, s': State)
    requires Inv(s) && t in s.txs && s'.txs == s.txs - {t}
    requires Committing(s.txs[t])
    requires s'.db == Apply(s.db, s.txs[t].delta) && s'.born == s.born + Reserved(s.txs[t].op)
    requires DbOk(s'.db)
    ensures forall o | o in s'.txs :: TxOk(s'.db, s'.born, s'.txs[o])
    ensures forall a, b | a in s'.txs && b in s'.txs && a != b :: Apart(s'.txs[a], s'.txs[b])
  {
    forall o | o in s'.txs ensures TxOk(s'.db, s'.born, s'.txs[o]) {
      OthersSurviveCommit(s, t, o);
    }
    forall a, b | a in s'.txs && b in s'.txs && a != b ensures Apart(s'.txs[a], s'.txs[b]) {
      assert Apart(s.txs[a], s.txs[b]);
    }
  }

  lemma PublishKeepsInv(s: State, t: Tid, s': State)
    requires Inv(s) && t in s.txs && Committing(s.txs[t]) && Moves(s, t, Publish(Answer(s.txs[t])), s')
    ensures Inv(s')
  {
    CommitKeepsTables(s, t);
    OthersKeepInv(s, t, s');
  }

  lemma ReturnKeepsInv(s: State, t: Tid, c: Choice, s': State)
    requires Inv(s) && Next(s, Act(t, c), s') && Advance(s.db, s.txs[t], c).Return?
    ensures Inv(s')
  {
    ReturnIsVerdict(s.db, s.born, s.txs[t], c);
    LogGrows(s.log, Event(s.txs[t].op, Advance(s.db, s.txs[t], c).outcome));
  }

  lemma BeginKeepsInv(s: State, t: Tid, op: Op, s': State)
    requires Inv(s) && t !in s.txs && Fresh(s, op) && s' == s.(txs := s.txs[t := Tx(op, Begun, {}, NODELTA)])
    ensures Inv(s')
  {
    forall o | o in s'.txs ensures TxOk(s'.db, s'.born, s'.txs[o]) {
      assert o != t ==> s'.txs[o] == s.txs[o];
    }
    forall a, b | a in s'.txs && b in s'.txs && a != b ensures Apart(s'.txs[a], s'.txs[b]) {
      assert a != t && b != t ==> Apart(s.txs[a], s.txs[b]);
    }
  }

  lemma AbortKeepsInv(s: State, t: Tid, s': State)
    requires Inv(s) && Next(s, Abort(t), s')
    ensures Inv(s')
  {
  }

  lemma ActKeepsInv(s: State, t: Tid, c: Choice, s': State)
    requires Inv(s) && Next(s, Act(t, c), s')
    ensures Inv(s')
  {
    OnlyCommittingPublish(s.db, s.txs[t], c);
    if Committing(s.txs[t]) {
      PublishKeepsInv(s, t, s');
    } else if Advance(s.db, s.txs[t], c).Continue? {
      ContinueKeepsInv(s, t, c, s');
    } else {
      ReturnKeepsInv(s, t, c, s');
    }
  }

  lemma NextKeepsInv(s: State, l: Label, s': State)
    requires Inv(s) && Next(s, l, s')
    ensures Inv(s')
  {
    match l
    case Begin(t, op) => BeginKeepsInv(s, t, op, s');
    case Abort(t) => AbortKeepsInv(s, t, s');
    case Act(t, c) => ActKeepsInv(s, t, c, s');
  }

  lemma {:induction false} RunKeepsInv(ss: seq<State>, ls: seq<Label>)
    requires IsRun(ss, ls)
    ensures Inv(ss[|ls|])
  {
    if ls != [] {
      var n := |ls| - 1;
      assert IsRun(ss[..|ls|], ls[..n]) by {
        forall i | 0 <= i < n ensures Next(ss[..|ls|][i], ls[..n][i], ss[..|ls|][i + 1]) {
          assert Next(ss[i], ls[i], ss[i + 1]);
        }
      }
      RunKeepsInv(ss[..|ls|], ls[..n]);
      NextKeepsInv(ss[n], ls[n], ss[n + 1]);
    }
  }

  // ---------------------------------------------------------------- main results

  /** Every interleaving is equivalent to running the finished calls one after the other in the
      order they finished: the committed tables are the replay of that order, and each call
      answered what it answers in the replay, a listing up to accounts deleted since it was read.
      OwnershipOrder has an order in which listings are exact as well. */
  lemma EveryRunIsSequential(ss: seq<State>, ls: seq<Label>)
    requires IsRun(ss, ls)
    ensures ss[|ls|].db == Replay(ss[|ls|].log)
    ensures Faithful(ss[|ls|].log)
  {
    RunKeepsInv(ss, ls);
  }

  /** In every committed state each workspace has exactly one owner, and that owner exists. */
  lemma ExactlyOneOwner(ss: seq<State>, ls: seq<Label>, w: Id)
    requires IsRun(ss, ls) && w in ss[|ls|].db.workspaces
    ensures exists u :: u in ss[|ls|].db.users && Owns(ss[|ls|].db, w, u)
                        && forall x :: Owns(ss[|ls|].db, w, x) ==> x == u
  {
    RunKeepsInv(ss, ls);
    var db := ss[|ls|].db;
    assert HasOwner(db, w);
    var u :| Owns(db, w, u);
    assert u in db.users && forall x :: Owns(db, w, x) ==> x == u;
  }
}
