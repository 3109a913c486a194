/** Concurrent changes of users, workspaces, memberships, channels and channel members: in every
    interleaving the foreign keys between the five tables hold in every committed state.

    A call is a READ COMMITTED transaction of row locks, inserts and deletes. An insert takes its key
    and then KEY SHARE on every row it refers to; a delete takes its row and then, query by query, every
    row that refers to a deleted one. A transaction may be any sequence of such statements, on any rows:
    the calls of the services are among them, and what is proved does not rest on their order, nor on the
    owner checks. */
module ChannelMembers {
  import opened Base
  import opened RowLocks
  import opened Entities

  /** A primary key. */
  datatype Row =
    | UserRow(user: Id)
    | WorkspaceRow(ws: Id)
    | MemberRow(key: Key)
    | ChannelRow(channel: Id)
    | SeatRow(channel: Id, user: Id)

  /** The stored rows, each with its workspace_id (a user row has none: NIL). */
  type Db = map<Row, Id>

  /** What a foreign key refers to: a row, and the workspace that row has to be in. */
  datatype Reference = Reference(row: Row, ws: Id)

  function References(r: Row, w: Id): set<Reference> {
    match r
    case UserRow(_) => {}
    case WorkspaceRow(_) => {}
    case MemberRow(k) => {Reference(WorkspaceRow(k.ws), k.ws), Reference(UserRow(k.user), NIL)}
    case ChannelRow(_) => {Reference(WorkspaceRow(w), w)}
    case SeatRow(c, u) => {Reference(UserRow(u), NIL), Reference(ChannelRow(c), w), Reference(MemberRow(Key(w, u)), w)}
  }

  predicate Meets(db: Db, p: Reference) { p.row in db && db[p.row] == p.ws }

  ghost predicate KeysHold(db: Db) {
    forall r, p | r in db && p in References(r, db[r]) :: Meets(db, p)
  }

  // ---------------------------------------------------------------- statements

  datatype Statement =
    | LockRow(row: Row)
    | Insert(row: Row, ws: Id)
    | Delete(rows: set<Row>)  // the rows its query found

  // ---------------------------------------------------------------- transactions

  /** What the running statement still has to do. */
  datatype Work =
    | Idle
    | Checking(row: Row, checks: set<Reference>)    // foreign keys of the inserted row
    | Cascading(pend: set<Row>, rows: set<Row>)     // deleted rows whose queries have not run; rows a query found

  datatype Tx = Tx(todo: seq<Statement>, work: Work, held: set<Lock<Row>>, puts: Db, gone: set<Row>)

  /** What the transaction sees, and leaves when it commits. */
  function View(db: Db, tx: Tx): Db { (db - tx.gone) + tx.puts }

  datatype Choice = Only | Check(ref: Reference) | Parent(row: Row) | Child(row: Row)

  function Request(db: Db, tx: Tx, c: Choice): Option<Lock<Row>> {
    match tx.work
    case Idle => if tx.todo == [] || tx.todo[0].Delete? then None else Some(ForUpdate(tx.todo[0].row))
    case Checking(_, checks) => if c.Check? && c.ref in checks then Some(ForKeyShare(c.ref.row)) else None
    case Cascading(_, rows) =>
      if c.Child? && c.row in rows && c.row in View(db, tx) then Some(ForUpdate(c.row)) else None
  }

  datatype Move = Continue(tx: Tx) | Fail | Publish | Stuck

  function Referring(v: Db, p: Row): set<Row> {
    set r | r in v && exists q :: q in References(r, v[r]) && q.row == p
  }

  function Advance(db: Db, tx: Tx, c: Choice): Move {
    var v := View(db, tx);
    match tx.work
    case Idle => if tx.todo == [] then Publish else Begin(v, tx.(todo := tx.todo[1..]), tx.todo[0])
    case Checking(r, checks) =>
      (match c
       case Only => if checks == {} then Continue(tx.(work := Idle)) else Stuck
       case Check(p) =>
         if p !in checks then Stuck
         else if !Meets(v, p) then Fail
         else Continue(tx.(work := Checking(r, checks - {p}), held := tx.held + {ForKeyShare(p.row)}))
       case _ => Stuck)
    case Cascading(pend, rows) =>
      match c
      case Only => if pend == {} && rows == {} then Continue(tx.(work := Idle)) else Stuck
      case Parent(p) =>
        if rows == {} && p in pend then Continue(tx.(work := Cascading(pend - {p}, Referring(v, p)))) else Stuck
      case Child(r) =>
        if r !in rows then Stuck
        else if r !in v then Continue(tx.(work := Cascading(pend, rows - {r})))
        else Continue(Removed(tx, r, Cascading(pend + {r}, rows - {r})))
      case _ => Stuck
  }

  function Removed(tx: Tx, r: Row, work: Work): Tx {
    tx.(work := work, held := tx.held + {ForUpdate(r)}, puts := tx.puts - {r}, gone := tx.gone + {r})
  }

  function Inserted(tx: Tx, r: Row, w: Id): Tx {
    tx.(work := Checking(r, References(r, w)), held := tx.held + {ForUpdate(r)}, puts := tx.puts[r := w])
  }

  /** The next statement, once it has its row. A channel member who is there already is no error. */
  function Begin(v: Db, tx: Tx, s: Statement): Move {
    match s
    case LockRow(r) => if r in v then Continue(tx.(held := tx.held + {ForUpdate(r)})) else Fail
    case Insert(r, w) =>
      if r in v then if r.SeatRow? then Continue(tx) else Fail
      else Continue(Inserted(tx, r, w))
    case Delete(rows) => Continue(tx.(work := Cascading({}, rows)))
  }

  // ---------------------------------------------------------------- the system

  type Tid = nat

  datatype State = State(db: Db, txs: map<Tid, Tx>)

  const INIT := State(map[], map[])

  predicate Blocks(s: State, t: Tid, c: Choice, other: Tid)
    requires t in s.txs && other in s.txs
  {
    && other != t
    && Request(s.db, s.txs[t], c).Some?
    && exists l :: l in s.txs[other].held && Clash(Request(s.db, s.txs[t], c).value, l)
  }

  datatype Label = Start(t: Tid, todo: seq<Statement>) | Act(t: Tid, choice: Choice) | Abort(t: Tid)

  predicate Next(s: State, l: Label, s': State) {
    match l
    case Start(t, todo) => t !in s.txs && s' == s.(txs := s.txs[t := Tx(todo, Idle, {}, map[], {})])
    case Abort(t) => t in s.txs && s' == s.(txs := s.txs - {t})
    case Act(t, c) =>
      && t in s.txs
      && (forall o | o in s.txs :: !Blocks(s, t, c, o))
      && match Advance(s.db, s.txs[t], c)
         case Continue(tx) => s' == s.(txs := s.txs[t := tx])
         case Fail => s' == s.(txs := s.txs - {t})
         case Publish => s' == State(View(s.db, s.txs[t]), s.txs - {t})
         case Stuck => false
  }

  predicate IsRun(ss: seq<State>, ls: seq<Label>) {
    && |ss| == |ls| + 1
    && ss[0] == INIT
    && forall i | 0 <= i < |ls| :: Next(ss[i], ls[i], ss[i + 1])
  }

  // ---------------------------------------------------------------- what a transaction counts on

  /** The inserted row waits for this check. */
  predicate Unchecked(tx: Tx, r: Row, p: Reference) {
    tx.work.Checking? && tx.work.row == r && p in tx.work.checks
  }

  /** The cascade will take the row. */
  predicate Due(tx: Tx, r: Row, p: Reference) {
    tx.work.Cascading? && (p.row in tx.work.pend || r in tx.work.rows)
  }

  /** Rows written are locked, and so is what an inserted row refers to. */
  predicate LocksOk(tx: Tx) {
    && (forall r | r in tx.gone :: ForUpdate(r) in tx.held)
    && (forall r | r in tx.puts :: ForUpdate(r) in tx.held)
    && (forall r, p | r in tx.puts && p in References(r, tx.puts[r]) ::
          Unchecked(tx, r, p) || ForKeyShare(p.row) in tx.held)
    && (tx.work.Checking? ==> tx.work.row in tx.puts)
  }

  /** Every reference in sight is met, or about to be checked, or its row about to be deleted. */
  ghost predicate SightOk(v: Db, tx: Tx) {
    forall r, p | r in v && p in References(r, v[r]) :: Meets(v, p) || Unchecked(tx, r, p) || Due(tx, r, p)
  }

  ghost predicate TxOk(db: Db, tx: Tx) { LocksOk(tx) && SightOk(View(db, tx), tx) }

  ghost predicate Inv(s: State) {
    && KeysHold(s.db)
    && (forall t | t in s.txs :: TxOk(s.db, s.txs[t]))
    && (forall t, o | t in s.txs && o in s.txs && t != o :: Compatible(s.txs[t].held, s.txs[o].held))
  }

  // ---------------------------------------------------------------- what statements keep

  lemma InsertKeeps(v: Db, tx: Tx, r: Row, w: Id)
    requires LocksOk(tx) && SightOk(v, tx) && tx.work.Idle? && r !in v
    ensures LocksOk(Inserted(tx, r, w)) && SightOk(v[r := w], Inserted(tx, r, w))
  {
    hide References;
    var tx' := Inserted(tx, r, w);
    forall x, p | x in v[r := w] && p in References(x, v[r := w][x])
      ensures Meets(v[r := w], p) || Unchecked(tx', x, p)
    {
      assert x != r ==> p in References(x, v[x]) && Meets(v, p);
    }
  }

  lemma CheckKeeps(v: Db, tx: Tx, p: Reference)
    requires LocksOk(tx) && SightOk(v, tx) && tx.work.Checking? && Meets(v, p)
    ensures var tx' := tx.(work := tx.work.(checks := tx.work.checks - {p}), held := tx.held + {ForKeyShare(p.row)});
            LocksOk(tx') && SightOk(v, tx')
  {
    hide References;
  }

  lemma RemoveKeeps(v: Db, tx: Tx, r: Row, work: Work)
    requires LocksOk(tx) && SightOk(v, tx) && tx.work.Cascading? && work.Cascading? && r in work.pend
    requires tx.work.pend <= work.pend && tx.work.rows - {r} <= work.rows
    ensures LocksOk(Removed(tx, r, work)) && SightOk(v - {r}, Removed(tx, r, work))
  {
    hide References;
    var tx', v' := Removed(tx, r, work), v - {r};
    forall x, p | x in v' && p in References(x, v'[x]) ensures Meets(v', p) || Due(tx', x, p) {
      assert p in References(x, v[x]) && (Meets(v, p) || Unchecked(tx, x, p) || Due(tx, x, p));
    }
  }

  /** The query of a deleted row finds every row that refers to it. */
  lemma QueryKeeps(v: Db, tx: Tx, p: Row)
    requires LocksOk(tx) && SightOk(v, tx) && tx.work.Cascading? && tx.work.rows == {}
    ensures var tx' := tx.(work := Cascading(tx.work.pend - {p}, Referring(v, p))); LocksOk(tx') && SightOk(v, tx')
  {
    hide References;
  }

  lemma SkipKeeps(v: Db, tx: Tx, r: Row)
    requires LocksOk(tx) && SightOk(v, tx) && tx.work.Cascading? && r !in v
    ensures var tx' := tx.(work := tx.work.(rows := tx.work.rows - {r})); LocksOk(tx') && SightOk(v, tx')
  {
    hide References;
  }

  /** Ending one statement and beginning the next. */
  lemma QuietKeeps(v: Db, tx: Tx, tx': Tx)
    requires LocksOk(tx) && SightOk(v, tx) && tx'.puts == tx.puts && tx'.gone == tx.gone && tx.held <= tx'.held
    requires tx'.work.Idle? || tx'.work.Cascading?
    requires tx.work.Idle? || (tx.work.Checking? && tx.work.checks == {}) || tx.work == Cascading({}, {})
    ensures LocksOk(tx') && SightOk(v, tx')
  {
    hide References;
  }

  lemma RemovedView(db: Db, tx: Tx, r: Row, work: Work)
    ensures View(db, Removed(tx, r, work)) == View(db, tx) - {r}
  {
  }

  lemma InsertedView(db: Db, tx: Tx, r: Row, w: Id)
    ensures View(db, Inserted(tx, r, w)) == View(db, tx)[r := w]
  {
    hide References;
  }

  lemma BeginKeeps(db: Db, tx: Tx, todo: seq<Statement>, s: Statement)
    requires TxOk(db, tx) && tx.work.Idle? && Begin(View(db, tx), tx.(todo := todo), s).Continue?
    ensures TxOk(db, Begin(View(db, tx), tx.(todo := todo), s).tx)
  {
    hide LocksOk, SightOk, View, Inserted;
    var v, tx0, tx' := View(db, tx), tx.(todo := todo), Begin(View(db, tx), tx.(todo := todo), s).tx;
    QuietKeeps(v, tx, tx0);
    SameView(db, tx, tx0);
    if s.Insert? && s.row !in v {
      InsertKeeps(v, tx0, s.row, s.ws);
      InsertedView(db, tx0, s.row, s.ws);
    } else {
      QuietKeeps(v, tx, tx');
      SameView(db, tx, tx');
    }
  }

  lemma SameView(db: Db, tx: Tx, tx': Tx)
    requires tx'.puts == tx.puts && tx'.gone == tx.gone
    ensures View(db, tx') == View(db, tx)
  {
  }

  lemma CascadeKeeps(db: Db, tx: Tx, c: Choice)
    requires TxOk(db, tx) && tx.work.Cascading? && Advance(db, tx, c).Continue?
    ensures TxOk(db, Advance(db, tx, c).tx)
  {
    hide References, LocksOk, SightOk, View, Referring;
    var v, tx' := View(db, tx), Advance(db, tx, c).tx;
    match c
    case Only => QuietKeeps(v, tx, tx'); SameView(db, tx, tx');
    case Parent(p) => QueryKeeps(v, tx, p); SameView(db, tx, tx');
    case Child(r) =>
      if r in v {
        RemoveKeeps(v, tx, r, tx'.work);
        RemovedView(db, tx, r, tx'.work);
      } else {
        SkipKeeps(v, tx, r);
        SameView(db, tx, tx');
      }
    case _ =>
  }

  lemma CheckingKeeps(db: Db, tx: Tx, c: Choice)
    requires TxOk(db, tx) && tx.work.Checking? && Advance(db, tx, c).Continue?
    ensures TxOk(db, Advance(db, tx, c).tx)
  {
    hide References, LocksOk, SightOk, View, Meets;
    var v, tx' := View(db, tx), Advance(db, tx, c).tx;
    SameView(db, tx, tx');
    if c.Check? { CheckKeeps(v, tx, c.ref); } else { QuietKeeps(v, tx, tx'); }
  }

  /** Every statement establishes what the rest of its transaction counts on. */
  lemma AdvanceKeepsTxOk(db: Db, tx: Tx, c: Choice)
    requires TxOk(db, tx) && Advance(db, tx, c).Continue?
    ensures TxOk(db, Advance(db, tx, c).tx)
  {
    hide TxOk;
    match tx.work
    case Idle => BeginKeeps(db, tx, tx.todo[1..], tx.todo[0]); BeginSame(db, tx);
    case Checking(_, _) => CheckingKeeps(db, tx, c);
    case Cascading(_, _) => CascadeKeeps(db, tx, c);
  }

  lemma BeginSame(db: Db, tx: Tx)
    requires tx.work.Idle? && tx.todo != []
    ensures forall c :: Advance(db, tx, c) == Begin(View(db, tx), tx.(todo := tx.todo[1..]), tx.todo[0])
  {
  }

  // ---------------------------------------------------------------- commits

  /** What a commit changes is covered by its locks: KEY SHARE on all that a new row refers to. */
  predicate Guarantee(db: Db, db': Db, held: set<Lock<Row>>) {
    && (forall r | r in db && r !in db' :: ForUpdate(r) in held)
    && (forall r | r in db' && (r !in db || db'[r] != db[r]) :: ForUpdate(r) in held)
    && (forall r, p | r in db' && (r !in db || db'[r] != db[r]) && p in References(r, db'[r]) ::
          ForKeyShare(p.row) in held)
  }

  lemma CommitIsCovered(db: Db, tx: Tx)
    requires TxOk(db, tx) && tx.work.Idle?
    ensures KeysHold(View(db, tx)) && Guarantee(db, View(db, tx), tx.held)
  {
    hide References;
  }

  /** What transaction b counts on survives the commit of any transaction whose locks are compatible. */
  lemma Stable(db: Db, db': Db, held: set<Lock<Row>>, b: Tx)
    requires KeysHold(db') && Guarantee(db, db', held) && Compatible(held, b.held) && TxOk(db, b)
    ensures TxOk(db', b)
  {
    hide References;
    var v, v' := View(db, b), View(db', b);
    forall r, p | r in v' && p in References(r, v'[r]) ensures Meets(v', p) || Unchecked(b, r, p) || Due(b, r, p) {
      if r in b.puts {
        assert r in v && v[r] == v'[r];
        if Meets(v, p) && !Unchecked(b, r, p) { PutStaysMet(db, db', held, b, r, p); }
      } else {
        SeenIsMet(db, db', held, b, r, p);
      }
    }
  }

  lemma PutStaysMet(db: Db, db': Db, held: set<Lock<Row>>, b: Tx, r: Row, p: Reference)
    requires Guarantee(db, db', held) && Compatible(held, b.held) && LocksOk(b)
    requires r in b.puts && p in References(r, b.puts[r]) && Meets(View(db, b), p) && !Unchecked(b, r, p)
    ensures Meets(View(db', b), p)
  {
    hide References;
    assert ForKeyShare(p.row) in b.held;
    assert Clash(ForUpdate(p.row), ForKeyShare(p.row));
  }

  lemma SeenIsMet(db: Db, db': Db, held: set<Lock<Row>>, b: Tx, r: Row, p: Reference)
    requires KeysHold(db') && Guarantee(db, db', held) && Compatible(held, b.held) && TxOk(db, b)
    requires r !in b.puts && r in View(db', b) && p in References(r, View(db', b)[r])
    ensures Meets(View(db', b), p) || Due(b, r, p)
  {
    hide References;
    assert Meets(db', p);
    if p.row in b.gone || p.row in b.puts {
      assert ForUpdate(p.row) in b.held && Clash(ForKeyShare(p.row), ForUpdate(p.row));
      assert r in View(db, b) && View(db, b)[r] == db'[r];
    }
  }

  // ---------------------------------------------------------------- runs

  lemma HeldGrows(db: Db, tx: Tx, c: Choice)
    requires Advance(db, tx, c).Continue?
    ensures var tx' := Advance(db, tx, c).tx;
            tx'.held == tx.held || (Request(db, tx, c).Some? && tx'.held == tx.held + {Request(db, tx, c).value})
  {
    hide References, Referring, View;
  }

  lemma GrantedKeepsApart(s: State, t: Tid, c: Choice, o: Tid)
    requires t in s.txs && o in s.txs && o != t && Compatible(s.txs[t].held, s.txs[o].held)
    requires Compatible(s.txs[o].held, s.txs[t].held)
    requires !Blocks(s, t, c, o) && Advance(s.db, s.txs[t], c).Continue?
    ensures Compatible(Advance(s.db, s.txs[t], c).tx.held, s.txs[o].held)
    ensures Compatible(s.txs[o].held, Advance(s.db, s.txs[t], c).tx.held)
  {
    HeldGrows(s.db, s.txs[t], c);
    hide Advance, Request;
  }

  lemma CommitKeepsInv(s: State, t: Tid, s': State)
    requires Inv(s) && t in s.txs && s.txs[t].work.Idle? && s' == State(View(s.db, s.txs[t]), s.txs - {t})
    ensures Inv(s')
  {
    hide LocksOk, SightOk, View, Guarantee, KeysHold;
    var tx := s.txs[t];
    CommitIsCovered(s.db, tx);
    forall o | o in s'.txs ensures TxOk(s'.db, s'.txs[o]) {
      Stable(s.db, s'.db, tx.held, s.txs[o]);
    }
  }

  lemma ActKeepsInv(s: State, t: Tid, c: Choice, s': State)
    requires Inv(s) && Next(s, Act(t, c), s')
    ensures Inv(s')
  {
    hide TxOk, KeysHold, Compatible, Blocks, Advance, View;
    match Advance(s.db, s.txs[t], c)
    case Continue(tx) =>
      AdvanceKeepsTxOk(s.db, s.txs[t], c);
      forall o | o in s.txs && o != t
        ensures Compatible(tx.held, s.txs[o].held) && Compatible(s.txs[o].held, tx.held)
      {
        GrantedKeepsApart(s, t, c, o);
      }
    case Publish =>
      OnlyIdlePublishes(s.db, s.txs[t], c);
      CommitKeepsInv(s, t, s');
    case _ =>
  }

  lemma OnlyIdlePublishes(db: Db, tx: Tx, c: Choice)
    requires Advance(db, tx, c).Publish?
    ensures tx.work.Idle?
  {
  }

  lemma NextKeepsInv(s: State, l: Label, s': State)
    requires Inv(s) && Next(s, l, s')
    ensures Inv(s')
  {
    match l
    case Start(t, todo) => StartIsOk(s.db, todo);
    case Abort(_) =>
    case Act(t, c) => ActKeepsInv(s, t, c, s');
    hide Advance, TxOk, KeysHold, Request;
  }

  lemma StartIsOk(db: Db, todo: seq<Statement>)
    requires KeysHold(db)
    ensures TxOk(db, Tx(todo, Idle, {}, map[], {}))
  {
    assert View(db, Tx(todo, Idle, {}, map[], {})) == db;
    hide References;
  }

  lemma {:induction false} InvAt(ss: seq<State>, ls: seq<Label>, n: nat)
    requires IsRun(ss, ls) && n <= |ls|
    ensures Inv(ss[n])
  {
    hide Inv, Next;
    if n > 0 {
      InvAt(ss, ls, n - 1);
      NextKeepsInv(ss[n - 1], ls[n - 1], ss[n]);
    } else {
      NothingYet();
    }
  }

  lemma NothingYet()
    ensures Inv(INIT)
  {
  }

  // ---------------------------------------------------------------- main results

  /** In every committed state of every run all foreign keys hold. */
  lemma EveryReferenceHolds(ss: seq<State>, ls: seq<Label>, n: nat)
    requires IsRun(ss, ls) && n <= |ls|
    ensures KeysHold(ss[n].db)
  {
    hide Next, TxOk;
    InvAt(ss, ls, n);
  }

  /** Whoever is in a workspace is a registered user, and every member and channel has its workspace. */
  lemma RowsBelong(ss: seq<State>, ls: seq<Label>, n: nat)
    requires IsRun(ss, ls) && n <= |ls|
    ensures var db := ss[n].db;
            && (forall k | MemberRow(k) in db :: UserRow(k.user) in db && WorkspaceRow(k.ws) in db)
            && (forall c | ChannelRow(c) in db :: WorkspaceRow(db[ChannelRow(c)]) in db)
  {
    hide Next;
    EveryReferenceHolds(ss, ls, n);
    var db := ss[n].db;
    forall k | MemberRow(k) in db ensures UserRow(k.user) in db && WorkspaceRow(k.ws) in db {
      assert Meets(db, Reference(UserRow(k.user), NIL)) && Meets(db, Reference(WorkspaceRow(k.ws), k.ws));
    }
    forall c | ChannelRow(c) in db ensures WorkspaceRow(db[ChannelRow(c)]) in db {
      assert Meets(db, Reference(WorkspaceRow(db[ChannelRow(c)]), db[ChannelRow(c)]));
    }
  }

  /** Whoever is in a channel is a registered user, and a member of the workspace the channel is in. */
  lemma MembersOfChannelsBelong(ss: seq<State>, ls: seq<Label>, n: nat, c: Id, u: Id)
    requires IsRun(ss, ls) && n <= |ls| && SeatRow(c, u) in ss[n].db
    ensures var db := ss[n].db;
            && UserRow(u) in db
            && ChannelRow(c) in db
            && WorkspaceRow(db[ChannelRow(c)]) in db
            && MemberRow(Key(db[ChannelRow(c)], u)) in db
  {
    hide Next;
    EveryReferenceHolds(ss, ls, n);
    var db := ss[n].db;
    var w := db[SeatRow(c, u)];
    assert Meets(db, Reference(UserRow(u), NIL)) && Meets(db, Reference(MemberRow(Key(w, u)), w));
    assert Meets(db, Reference(ChannelRow(c), w));
    assert Meets(db, Reference(WorkspaceRow(w), w));
  }

  /** Once a channel member is inserted and its keys are checked, user, channel and membership stay until
      the transaction ends, whatever removals and deletions are under way. */
  lemma CheckedRowsStay(ss: seq<State>, ls: seq<Label>, n: nat, t: Tid, w: Id, c: Id, u: Id)
    requires IsRun(ss, ls) && n <= |ls| && t in ss[n].txs
    requires var tx := ss[n].txs[t]; SeatRow(c, u) in tx.puts && tx.puts[SeatRow(c, u)] == w && tx.work.Idle?
    ensures var v := View(ss[n].db, ss[n].txs[t]);
            && UserRow(u) in v
            && Meets(v, Reference(ChannelRow(c), w))
            && Meets(v, Reference(MemberRow(Key(w, u)), w))
  {
    hide Next, TxOk, View, Meets;
    InvAt(ss, ls, n);
    SeatIsMet(ss[n].db, ss[n].txs[t], w, c, u);
  }

  lemma SeatIsMet(db: Db, tx: Tx, w: Id, c: Id, u: Id)
    requires TxOk(db, tx) && tx.work.Idle? && SeatRow(c, u) in tx.puts && tx.puts[SeatRow(c, u)] == w
    ensures var v := View(db, tx);
            && UserRow(u) in v
            && Meets(v, Reference(ChannelRow(c), w))
            && Meets(v, Reference(MemberRow(Key(w, u)), w))
  {
    var v := View(db, tx);
    assert SeatRow(c, u) in v && v[SeatRow(c, u)] == w;
    assert Meets(v, Reference(UserRow(u), NIL));
    hide View, LocksOk;
  }
}
