/** Whole-run results for concurrent threads: no lost counter update, no orphaned message. */
module ThreadTheorems {
  import opened Base
  import opened RowLocks
  import opened Entities
  import opened ThreadModel
  import opened ThreadInvariant
  import opened ThreadRuns

  ghost predicate Faithful(log: seq<Event>) {
    forall i | 0 <= i < |log| :: log[i].outcome == Verdict(log[i].op, Replay(log[..i]))
  }

  predicate Apart(a: Tx, b: Tx) {
    Compatible(a.held, b.held) && Reserved(a.op) !! Reserved(b.op)
  }

  ghost predicate Inv(s: State) {
    && DbOk(s.db)
    && Stored(s.db) <= s.born
    && (forall t | t in s.txs :: TxOk(s.db, s.born, s.txs[t]))
    && (forall t, o | t in s.txs && o in s.txs && t != o :: Apart(s.txs[t], s.txs[o]))
    && s.db == Replay(s.log)
    && Faithful(s.log)
  }

  lemma LogGrows(log: seq<Event>, e: Event)
    requires Faithful(log) && e.outcome == Verdict(e.op, Replay(log))
    ensures Faithful(log + [e])
    ensures Replay(log + [e]) == Effect(e.op, Replay(log))
  {
    var log' := log + [e];
    assert log'[..|log|] == log;
    forall i | 0 <= i < |log'| ensures log'[i].outcome == Verdict(log'[i].op, Replay(log'[..i])) {
      if i < |log| { assert log'[..i] == log[..i]; }
    }
  }

  lemma HeldGrows(db: Db, tx: Tx, c: Choice)
    requires Advance(db, tx, c).Continue?
    ensures var tx' := Advance(db, tx, c).tx;
            tx'.op == tx.op
            && (tx'.held == tx.held || (Request(db, tx, c).Some? && tx'.held == tx.held + {Request(db, tx, c).value}))
  {
    hide Apply, OwnedBy, WrittenBy, Referring, Visible, Pending;
  }

  lemma GrantedKeepsApart(s: State, t: Tid, c: Choice, o: Tid)
    requires t in s.txs && o in s.txs && o != t && Apart(s.txs[t], s.txs[o])
    requires Granted(s, t, c) && Advance(s.db, s.txs[t], c).Continue?
    ensures Apart(Advance(s.db, s.txs[t], c).tx, s.txs[o])
    ensures Apart(s.txs[o], Advance(s.db, s.txs[t], c).tx)
  {
    var tx, tx' := s.txs[t], Advance(s.db, s.txs[t], c).tx;
    HeldGrows(s.db, tx, c);
    assert !Blocks(s, t, c, o);
    forall x, y | x in tx'.held && y in s.txs[o].held ensures !Clash(x, y) && !Clash(y, x) {
      if x !in tx.held { assert x == Request(s.db, tx, c).value; }
    }
  }

  lemma ContinueKeepsInv(s: State, t: Tid, c: Choice, s': State)
    requires Inv(s) && Next(s, Act(t, c), s') && Advance(s.db, s.txs[t], c).Continue?
    ensures Inv(s')
  {
    hide Advance, Request, TxOk, DbOk, Faithful, Replay, Stored;
    AdvanceKeepsTxOk(s.db, s.born, s.txs[t], c);
    forall a, b | a in s'.txs && b in s'.txs && a != b ensures Apart(s'.txs[a], s'.txs[b]) {
      if a == t { GrantedKeepsApart(s, t, c, b); }
      else if b == t { GrantedKeepsApart(s, t, c, a); }
    }
  }

  lemma ReturnKeepsInv(s: State, t: Tid, c: Choice, s': State)
    requires Inv(s) && Next(s, Act(t, c), s') && Advance(s.db, s.txs[t], c).Return?
    ensures Inv(s')
  {
    ReturnIsVerdict(s.db, s.born, s.txs[t], c);
    LogGrows(s.log, Event(s.txs[t].op, Advance(s.db, s.txs[t], c).outcome));
  }

  lemma BornGrows(db: Db, born: set<Id>, op: Op)
    requires Stored(db) <= born
    ensures Stored(Effect(op, db)) <= born + Reserved(op)
  {
    hide WithoutThreads, PostedIn, WrittenBy;
    forall seeds ensures WithoutThreads(db.msgs, seeds).Keys <= db.msgs.Keys { FewerMessages(db.msgs, seeds); }
  }

  lemma FewerMessages(msgs: map<Id, Message>, seeds: set<Id>)
    ensures WithoutThreads(msgs, seeds).Keys <= msgs.Keys
  {
  }

  lemma CommitKeepsTables(s: State, t: Tid)
    requires Inv(s) && t in s.txs && s.txs[t].phase == Ready
    ensures var tx, db' := s.txs[t], Apply(s.db, s.txs[t].delta);
            var log' := s.log + [Event(tx.op, Done)];
            && DbOk(db')
            && Stored(db') <= s.born + Reserved(tx.op)
            && db' == Replay(log') && Faithful(log')
  {
    var tx := s.txs[t];
    assert TxOk(s.db, s.born, tx);
    CommitIsEffect(s.db, s.born, tx);
    assert tx.op.Post? ==> PostReady(s.db, tx);
    EffectKeepsDbOk(tx.op, s.db);
    BornGrows(s.db, s.born, tx.op);
    LogGrows(s.log, Event(tx.op, Done));
  }

  lemma OthersKeepInv(s: State, t: Tid, s': State)
    requires Inv(s) && t in s.txs && s'.txs == s.txs - {t} && s.txs[t].phase == Ready
    requires s'.db == Apply(s.db, s.txs[t].delta) && s'.born == s.born + Reserved(s.txs[t].op)
    ensures forall o | o in s'.txs :: TxOk(s'.db, s'.born, s'.txs[o])
    ensures forall a, b | a in s'.txs && b in s'.txs && a != b :: Apart(s'.txs[a], s'.txs[b])
  {
    var tx := s.txs[t];
    forall o | o in s'.txs ensures TxOk(s'.db, s'.born, s'.txs[o]) {
      OtherSurvives(s, t, o);
    }
    forall a, b | a in s'.txs && b in s'.txs && a != b ensures Apart(s'.txs[a], s'.txs[b]) {
      assert Apart(s.txs[a], s.txs[b]);
    }
  }

  lemma OtherSurvives(s: State, t: Tid, o: Tid)
    requires Inv(s) && t in s.txs && o in s.txs && o != t && s.txs[t].phase == Ready
    ensures TxOk(Apply(s.db, s.txs[t].delta), s.born + Reserved(s.txs[t].op), s.txs[o])
  {
    var tx := s.txs[t];
    assert TxOk(s.db, s.born, tx) && TxOk(s.db, s.born, s.txs[o]) && Apart(tx, s.txs[o]);
    CommitGuarantee(s.db, s.born, tx);
    Stable(s.db, Apply(s.db, tx.delta), tx.held, Reserved(tx.op), s.txs[o], s.born);
  }

  lemma PublishKeepsInv(s: State, t: Tid, s': State)
    requires Inv(s) && t in s.txs && s.txs[t].phase == Ready && Moves(s, t, Publish, s')
    ensures Inv(s')
  {
    CommitKeepsTables(s, t);
    OthersKeepInv(s, t, s');
  }

  lemma BegunTxOk(s: State, op: Op)
    requires Stored(s.db) <= s.born && Fresh(s, op)
    ensures TxOk(s.db, s.born, Tx(op, Begun, {}, NODELTA))
  {
    assert op.Post? ==> op.id in Reserved(op);
  }

  lemma BeginKeepsInv(s: State, t: Tid, op: Op, s': State)
    requires Inv(s) && t !in s.txs && Fresh(s, op) && s' == s.(txs := s.txs[t := Tx(op, Begun, {}, NODELTA)])
    ensures Inv(s')
  {
    BegunTxOk(s, op);
    forall o | o in s'.txs ensures TxOk(s'.db, s'.born, s'.txs[o]) {
      assert o != t ==> s'.txs[o] == s.txs[o];
    }
    forall a, b | a in s'.txs && b in s'.txs && a != b ensures Apart(s'.txs[a], s'.txs[b]) {
      assert a != t && b != t ==> Apart(s.txs[a], s.txs[b]);
    }
  }

  lemma OnlyReadyPublishes(db: Db, tx: Tx, c: Choice)
    ensures Advance(db, tx, c).Publish? <==> tx.phase == Ready
  {
  }

  lemma ActKeepsInv(s: State, t: Tid, c: Choice, s': State)
    requires Inv(s) && Next(s, Act(t, c), s')
    ensures Inv(s')
  {
    hide Inv, Advance;
    OnlyReadyPublishes(s.db, s.txs[t], c);
    if s.txs[t].phase == Ready {
      PublishKeepsInv(s, t, s');
    } else if Advance(s.db, s.txs[t], c).Continue? {
      ContinueKeepsInv(s, t, c, s');
    } else {
      ReturnKeepsInv(s, t, c, s');
    }
  }

  lemma AbortKeepsInv(s: State, t: Tid, s': State)
    requires Inv(s) && Next(s, Abort(t), s')
    ensures Inv(s')
  {
    hide TxOk, Apart, DbOk, Faithful, Stored;
  }

  lemma NextKeepsInv(s: State, l: Label, s': State)
    requires Inv(s) && Next(s, l, s')
    ensures Inv(s')
  {
    hide Inv;
    match l
    case Begin(t, op) => BeginKeepsInv(s, t, op, s');
    case Abort(t) => AbortKeepsInv(s, t, s');
    case Act(t, c) => ActKeepsInv(s, t, c, s');
  }

  lemma EmptyIsInv()
    ensures Inv(INIT)
  {
    assert Replies(EMPTY.msgs, 0) == {};
  }

  lemma {:induction false} InvAt(ss: seq<State>, ls: seq<Label>, n: nat)
    requires IsRun(ss, ls) && n <= |ls|
    ensures Inv(ss[n])
  {
    hide Inv, Next;
    if n > 0 {
      InvAt(ss, ls, n - 1);
      NextKeepsInv(ss[n - 1], ls[n - 1], ss[n]);
    } else {
      EmptyIsInv();
    }
  }

  // ---------------------------------------------------------------- main results

  /** Every interleaving of posts, edits, message deletes, channel deletes, workspace deletes and account
      deletions is equivalent to running the finished calls one after the other in the order they
      finished, and each call answered what it answers there. */
  lemma EveryRunIsSequential(ss: seq<State>, ls: seq<Label>, n: nat)
    requires IsRun(ss, ls) && n <= |ls|
    ensures ss[n].db == Replay(ss[n].log)
    ensures Faithful(ss[n].log)
  {
    hide Next, TxOk, Apart;
    InvAt(ss, ls, n);
  }

  /** In every committed state reply_count is the number of replies, and every message has its author,
      its channel and its root. */
  lemma CountsNeverDrift(ss: seq<State>, ls: seq<Label>, n: nat, m: Id)
    requires IsRun(ss, ls) && n <= |ls| && m in ss[n].db.msgs
    ensures var db, row := ss[n].db, ss[n].db.msgs[m];
            && row.count == |Replies(db.msgs, m)|
            && row.author in db.users
            && row.channel in db.channels && db.channels[row.channel] in db.workspaces
            && (row.root.Some? ==> row.root.value in db.msgs)
  {
    hide Next, TxOk, Apart;
    InvAt(ss, ls, n);
  }

  /** No interleaving ever makes a trigger fail the CHECK on reply_count. */
  lemma CheckNeverFails(ss: seq<State>, ls: seq<Label>, n: nat, i: nat)
    requires IsRun(ss, ls) && n <= |ls| && i < |ss[n].log|
    ensures ss[n].log[i].outcome != CheckViolation
  {
    hide Next, TxOk, DbOk, Apart;
    InvAt(ss, ls, n);
  }

  lemma TxOkAt(ss: seq<State>, ls: seq<Label>, n: nat, t: Tid)
    requires IsRun(ss, ls) && n <= |ls| && t in ss[n].txs
    ensures TxOk(ss[n].db, ss[n].born, ss[n].txs[t])
  {
    InvAt(ss, ls, n);
  }

  /** From the moment a message passed its foreign-key checks until its transaction ends, its author,
      its channel and its root stay, whatever other transactions commit. */
  lemma ParentsStayWhilePosting(ss: seq<State>, ls: seq<Label>, n: nat, t: Tid)
    requires IsRun(ss, ls) && n <= |ls| && t in ss[n].txs
    requires var tx := ss[n].txs[t]; tx.op.Post? && (tx.phase.Bump? || tx.phase.Ready?)
    ensures var tx := ss[n].txs[t];
            && tx.op.author in ss[n].db.users
            && tx.op.channel in ss[n].db.channels
            && (tx.op.root.Some? ==> tx.op.root.value in ss[n].db.msgs)
  {
    hide Next, DropOk;
    TxOkAt(ss, ls, n, t);
  }

  /** When an account deletion is about to commit, every message its user wrote, posted by whatever
      other transaction has committed meanwhile, goes with it. */
  lemma NoMessageOutlivesItsAuthor(ss: seq<State>, ls: seq<Label>, n: nat, t: Tid, m: Id)
    requires IsRun(ss, ls) && n <= |ls| && t in ss[n].txs
    requires ss[n].txs[t].op.DropUser? && ss[n].txs[t].phase.Ready?
    requires m in ss[n].db.msgs && ss[n].db.msgs[m].author == ss[n].txs[t].op.user
    ensures m in ss[n].txs[t].delta.gone
  {
    hide Next, DropDone;
    TxOkAt(ss, ls, n, t);
    assert m in WrittenBy(ss[n].db.msgs, ss[n].txs[t].op.user);
  }
}
