/** Concurrent account and membership operations as a transition system.

    Each service call is a READ COMMITTED transaction of several statements. A transaction keeps
    its writes private until it commits, holds row locks until it ends, and may be aborted at any
    point. Next lists every step any transaction may take; nothing orders the transactions. */
module OwnershipModel {
  import opened Base
  import opened RowLocks
  import opened Entities

  /** The committed users, workspaces and workspace_members tables. */
  datatype Db = Db(users: set<Id>, workspaces: set<Id>, members: map<Key, Role>)

  const EMPTY := Db({}, {}, map[])

  datatype Op =
    | Register(user: Id)
    | Create(actor: Id, ws: Id)
    | Read(actor: Id, ws: Id)
    | Add(actor: Id, ws: Id, user: Id)
    | Remove(actor: Id, ws: Id, user: Id)
    | DeleteWs(actor: Id, ws: Id)
    | DeleteUser(user: Id)

  datatype Outcome =
    | Done
    | Listed(list: map<Id, Role>)
    | NoWorkspace
    | Forbidden
    | AlreadyMember
    | SecondOwner
    | OwnerRemoval
    | NoMember
    | NoUser

  // ---------------------------------------------------------------- sequential meaning

  predicate Owns(db: Db, w: Id, u: Id) {
    Key(w, u) in db.members && db.members[Key(w, u)] == Owner
  }

  function OwnedBy(db: Db, u: Id): set<Id> {
    set k | k in db.members && k.user == u && db.members[k] == Owner :: k.ws
  }

  function MembersOf(db: Db, w: Id): map<Id, Role> {
    var users := set k | k in db.members && k.ws == w :: k.user;
    map u | u in users && Key(w, u) in db.members :: db.members[Key(w, u)]
  }

  /** What the call answers when it runs alone on db. */
  function Verdict(op: Op, db: Db): Outcome {
    match op
    case Register(_) => Done
    case Create(actor, _) => if actor !in db.users then NoUser else Done
    case Read(actor, w) =>
      if w !in db.workspaces then NoWorkspace
      else if Key(w, actor) !in db.members then Forbidden
      else Listed(MembersOf(db, w))
    case Add(actor, w, u) =>
      if w !in db.workspaces then NoWorkspace
      else if !Owns(db, w, actor) then Forbidden
      else if Key(w, u) in db.members then AlreadyMember
      else if u !in db.users then NoUser
      else Done
    case Remove(actor, w, u) =>
      if w !in db.workspaces then NoWorkspace
      else if !Owns(db, w, actor) then Forbidden
      else if u == actor then OwnerRemoval
      else if Key(w, u) !in db.members then NoMember
      else Done
    case DeleteWs(actor, w) =>
      if w !in db.workspaces then NoWorkspace
      else if !Owns(db, w, actor) then Forbidden
      else Done
    case DeleteUser(u) => if u !in db.users then NoUser else Done
  }

  /** What the call leaves behind when it runs alone on db. */
  function Effect(op: Op, db: Db): Db {
    if Verdict(op, db) != Done then db else
    match op
    case Register(u) => db.(users := db.users + {u})
    case Create(actor, w) => db.(workspaces := db.workspaces + {w}, members := db.members[Key(w, actor) := Owner])
    case Read(_, _) => db
    case Add(_, w, u) => db.(members := db.members[Key(w, u) := Member])
    case Remove(_, w, u) => db.(members := db.members - {Key(w, u)})
    case DeleteWs(_, w) =>
      db.(workspaces := db.workspaces - {w},
      members := map k | k in db.members && k.ws != w :: db.members[k])
    case DeleteUser(u) =>
      Db(db.users - {u},
         db.workspaces - OwnedBy(db, u),
         map k | k in db.members && k.ws !in OwnedBy(db, u) && k.user != u :: db.members[k])
  }

  // ---------------------------------------------------------------- transactions

  datatype Row = UserRow(user: Id) | WsRow(ws: Id) | MemberRow(key: Key)

  /** Uncommitted writes. */
  datatype Delta = Delta(
    newUsers: set<Id>, newWs: set<Id>, newMembers: map<Key, Role>,
    goneUsers: set<Id>, goneWs: set<Id>, goneMembers: set<Key>)

  const NODELTA := Delta({}, {}, map[], {}, {}, {})

  /** The tables a transaction with these writes sees, and those left when it commits. */
  function Apply(db: Db, d: Delta): Db {
    Db(db.users - d.goneUsers + d.newUsers,
       db.workspaces - d.goneWs + d.newWs,
       (db.members - d.goneMembers) + d.newMembers)
  }

  /** The next statement of the service method. */
  datatype Phase =
    | Begun
    | ListMembers
    | Answered(list: map<Id, Role>)
    | CheckActor
    | InsertMember                                 // unique indexes of the new membership row
    | CheckUserFk                                  // its foreign key to users
    | DeleteMember
    | DropWorkspace
    | FindOwned                                    // snapshot of the owned-workspaces DELETE
    | LockOwned(todo: set<Id>)                     // its matching rows not yet visited
    | Cascade(pend: set<Row>, rows: set<Key>)      // deleted parents whose trigger has not run; rows of the running one
    | DropUser
    | Ready

  datatype Tx = Tx(op: Op, phase: Phase, held: set<Lock<Row>>, delta: Delta)

  /** The membership row the call inserts, and its role. */
  function NewKey(op: Op): Key
    requires op.Create? || op.Add?
  {
    if op.Create? then Key(op.ws, op.actor) else Key(op.ws, op.user)
  }

  function NewRole(op: Op): Role
    requires op.Create? || op.Add?
  {
    if op.Create? then Owner else Member
  }

  predicate RefersTo(k: Key, p: Row) { p == WsRow(k.ws) || p == UserRow(k.user) }

  /** Which row a statement that may visit several rows visits next. */
  datatype Choice = Only | Ws(ws: Id) | Parent(row: Row) | Child(key: Key)

  /** The row lock the next statement has to obtain before it goes on. A row that a query found but
      that is gone by now is passed over without a lock, even while its key is being inserted anew. */
  function Request(db: Db, tx: Tx, c: Choice): Option<Lock<Row>> {
    match tx.phase
    case Begun =>
      (match tx.op
       case Register(_) => None
       case Create(_, _) => None
       case DeleteUser(u) => Some(ForUpdate(UserRow(u)))
       case _ => Some(ForUpdate(WsRow(tx.op.ws))))
    case InsertMember => if tx.op.Create? || tx.op.Add? then Some(ForUpdate(MemberRow(NewKey(tx.op)))) else None
    case CheckUserFk => if tx.op.Create? || tx.op.Add? then Some(ForKeyShare(UserRow(NewKey(tx.op).user))) else None
    case DeleteMember => if tx.op.Remove? then Some(ForUpdate(MemberRow(Key(tx.op.ws, tx.op.user)))) else None
    case LockOwned(todo) =>
      if c.Ws? && c.ws in todo && c.ws in db.workspaces then Some(ForUpdate(WsRow(c.ws))) else None
    case Cascade(_, rows) =>
      if c.Child? && c.key in rows && c.key in Apply(db, tx.delta).members
      then Some(ForUpdate(MemberRow(c.key)))
      else None
    case _ => None
  }

  datatype Move =
    | Continue(tx: Tx)
    | Return(outcome: Outcome)   // error: the deferred rollback discards the writes
    | Publish(outcome: Outcome)  // commit
    | Stuck                      // the choice names no row to visit

  /** The next statement of tx, once the lock it requests is granted. */
  function Advance(db: Db, tx: Tx, c: Choice): Move {
    var v := Apply(db, tx.delta);
    match tx.phase
    case Begun => Start(db, tx)
    case ListMembers =>
      if !tx.op.Read? then Stuck
      else if tx.op.actor in MembersOf(v, tx.op.ws) then Continue(tx.(phase := Answered(MembersOf(v, tx.op.ws))))
      else Return(Forbidden)
    case Answered(list) => Publish(Listed(list))
    case CheckActor => Authorize(v, tx)
    case InsertMember =>
      if !(tx.op.Create? || tx.op.Add?) then Stuck else
      var k := NewKey(tx.op);
      if k in v.members then Return(AlreadyMember)
      else if NewRole(tx.op) == Owner && exists o :: o in v.members && o.ws == k.ws && v.members[o] == Owner
      then Return(SecondOwner)
      else Continue(tx.(phase := CheckUserFk, held := tx.held + {ForUpdate(MemberRow(k))},
                    delta := tx.delta.(newMembers := map[k := NewRole(tx.op)])))
    case CheckUserFk =>
      if !(tx.op.Create? || tx.op.Add?) then Stuck else
      var u := NewKey(tx.op).user;
      if u !in v.users then Return(NoUser)
      else Continue(tx.(phase := Ready, held := tx.held + {ForKeyShare(UserRow(u))}))
    case DeleteMember =>
      if !tx.op.Remove? then Stuck else
      var k := Key(tx.op.ws, tx.op.user);
      if k !in v.members then Return(NoMember)
      else Continue(tx.(phase := Ready, held := tx.held + {ForUpdate(MemberRow(k))},
                    delta := tx.delta.(goneMembers := {k})))
    case DropWorkspace =>
      if !tx.op.DeleteWs? then Stuck
      else Continue(tx.(phase := Cascade({WsRow(tx.op.ws)}, {}), delta := tx.delta.(goneWs := {tx.op.ws})))
    case FindOwned =>
      if !tx.op.DeleteUser? then Stuck
      else Continue(tx.(phase := LockOwned(OwnedBy(v, tx.op.user))))
    case LockOwned(todo) => VisitOwned(db, tx, c)
    case Cascade(pend, rows) => RunCascade(v, tx, c)
    case DropUser =>
      if !tx.op.DeleteUser? then Stuck
      else Continue(tx.(phase := Cascade({UserRow(tx.op.user)}, {}), delta := tx.delta.(goneUsers := {tx.op.user})))
    case Ready => Publish(Done)
  }

  /** First statement: an insert under a fresh id, or the lock on the shared parent row. */
  function Start(db: Db, tx: Tx): Move {
    match tx.op
    case Register(u) => Continue(tx.(phase := Ready, delta := NODELTA.(newUsers := {u})))
    case Create(_, w) => Continue(tx.(phase := InsertMember, delta := NODELTA.(newWs := {w})))
    case DeleteUser(u) =>
      if u !in db.users then Return(NoUser)
      else Continue(tx.(phase := FindOwned, held := tx.held + {ForUpdate(UserRow(u))}))
    case _ =>
      if tx.op.ws !in db.workspaces then Return(NoWorkspace)
      else Continue(tx.(phase := if tx.op.Read? then ListMembers else CheckActor,
                    held := tx.held + {ForUpdate(WsRow(tx.op.ws))}))
  }

  function Authorize(v: Db, tx: Tx): Move {
    match tx.op
    case Add(actor, w, _) =>
      if Owns(v, w, actor) then Continue(tx.(phase := InsertMember)) else Return(Forbidden)
    case Remove(actor, w, u) =>
      if !Owns(v, w, actor) then Return(Forbidden)
      else if u == actor then Return(OwnerRemoval)
      else Continue(tx.(phase := DeleteMember))
    case DeleteWs(actor, w) =>
      if Owns(v, w, actor) then Continue(tx.(phase := DropWorkspace)) else Return(Forbidden)
    case _ => Stuck
  }

  /** A row that vanished while the statement waited for it is skipped. */
  function VisitOwned(db: Db, tx: Tx, c: Choice): Move
    requires tx.phase.LockOwned?
  {
    var todo := tx.phase.todo;
    if todo == {} then Continue(tx.(phase := Cascade(set w | w in tx.delta.goneWs :: WsRow(w), {})))
    else if !(c.Ws? && c.ws in todo) then Stuck
    else if c.ws !in db.workspaces then Continue(tx.(phase := LockOwned(todo - {c.ws})))
    else Continue(tx.(phase := LockOwned(todo - {c.ws}), held := tx.held + {ForUpdate(WsRow(c.ws))},
                  delta := tx.delta.(goneWs := tx.delta.goneWs + {c.ws})))
  }

  /** ON DELETE CASCADE into workspace_members: one query per deleted parent, with its own snapshot. */
  function RunCascade(v: Db, tx: Tx, c: Choice): Move
    requires tx.phase.Cascade?
  {
    var Cascade(pend, rows) := tx.phase;
    if rows != {} then
      if !(c.Child? && c.key in rows) then Stuck
      else if c.key !in v.members then Continue(tx.(phase := Cascade(pend, rows - {c.key})))
      else Continue(tx.(phase := Cascade(pend, rows - {c.key}), held := tx.held + {ForUpdate(MemberRow(c.key))},
                    delta := tx.delta.(goneMembers := tx.delta.goneMembers + {c.key})))
    else if pend != {} then
      if !(c.Parent? && c.row in pend) then Stuck
      else Continue(tx.(phase := Cascade(pend - {c.row}, set k | k in v.members && RefersTo(k, c.row))))
    else if tx.op.DeleteUser? && tx.delta.goneUsers == {} then Continue(tx.(phase := DropUser))
    else Continue(tx.(phase := Ready))
  }

  // ---------------------------------------------------------------- the system

  type Tid = nat

  datatype Event = Event(op: Op, outcome: Outcome)

  /** born: every id a commit ever stored. log: finished calls in the order they finished. */
  datatype State = State(db: Db, born: set<Id>, txs: map<Tid, Tx>, log: seq<Event>)

  const INIT := State(EMPTY, {}, map[], [])

  /** The id uuid.NewV7 gives the call. */
  function Reserved(op: Op): set<Id> {
    match op
    case Register(u) => {u}
    case Create(_, w) => {w}
    case _ => {}
  }

  predicate Fresh(s: State, op: Op) {
    && Reserved(op) !! s.born
    && forall t | t in s.txs :: Reserved(op) !! Reserved(s.txs[t].op)
  }

  /** No other transaction holds a lock that conflicts with the one t asks for. */
  predicate WaitsFor(s: State, t: Tid, c: Choice, other: Tid)
    requires t in s.txs && other in s.txs
  {
    && other != t
    && Request(s.db, s.txs[t], c).Some?
    && exists l :: l in s.txs[other].held && Clash(Request(s.db, s.txs[t], c).value, l)
  }

  predicate Granted(s: State, t: Tid, c: Choice)
    requires t in s.txs
  {
    forall o | o in s.txs :: !WaitsFor(s, t, c, o)
  }

  datatype Label = Begin(t: Tid, op: Op) | Act(t: Tid, choice: Choice) | Abort(t: Tid)

  /** The transaction t ends or goes on; a commit alone changes the tables. */
  predicate Moves(s: State, t: Tid, m: Move, s': State)
    requires t in s.txs
  {
    match m
    case Continue(tx) => s' == s.(txs := s.txs[t := tx])
    case Return(o) => s' == s.(txs := s.txs - {t}, log := s.log + [Event(s.txs[t].op, o)])
    case Publish(o) =>
      s' == State(Apply(s.db, s.txs[t].delta), s.born + Reserved(s.txs[t].op), s.txs - {t},
                  s.log + [Event(s.txs[t].op, o)])
    case Stuck => false
  }

  predicate Next(s: State, l: Label, s': State) {
    match l
    case Begin(t, op) =>
      t !in s.txs && Fresh(s, op) && s' == s.(txs := s.txs[t := Tx(op, Begun, {}, NODELTA)])
    case Act(t, c) =>
      t in s.txs && Granted(s, t, c) && Moves(s, t, Advance(s.db, s.txs[t], c), s')
    case Abort(t) =>
      t in s.txs && s' == s.(txs := s.txs - {t})
  }

  /** A finite run from freshly migrated, empty tables. */
  predicate IsRun(ss: seq<State>, ls: seq<Label>) {
    && |ss| == |ls| + 1
    && ss[0] == INIT
    && forall i | 0 <= i < |ls| :: Next(ss[i], ls[i], ss[i + 1])
  }

  /** The tables after the logged calls, run one after the other. */
  function Replay(log: seq<Event>): Db {
    if log == [] then EMPTY else Effect(log[|log| - 1].op, Replay(log[..|log| - 1]))
  }
}
