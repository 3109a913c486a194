/** Concurrent posting, editing and deleting, with channels, workspaces and accounts coming and going,
    as a transition system.

    reply_count is denormalised: row triggers add and subtract one on the thread root. An UPDATE
    writes a whole new row version, so what keeps concurrent updates from overwriting each other,
    and messages from outliving their root, channel or author, is row locks: KEY SHARE by the
    foreign-key checks, NO KEY UPDATE by the triggers and edits, UPDATE by the deletes. */
module ThreadModel {
  import opened Base
  import opened RowLocks
  import opened Reachability
  import opened Entities

  /** The committed users, workspaces (with the owner, who never changes), channels (with the
      workspace) and channel_messages. */
  datatype Db = Db(users: set<Id>, workspaces: map<Id, Id>, channels: map<Id, Id>, msgs: map<Id, Message>)

  const EMPTY := Db({}, map[], map[], map[])

  datatype Op =
    | Register(user: Id)
    | MakeWorkspace(actor: Id, ws: Id)
    | MakeChannel(ws: Id, channel: Id)
    | DropChannel(channel: Id)
    | DropWorkspace(actor: Id, ws: Id)
    | DropUser(user: Id)
    | Post(id: Id, author: Id, channel: Id, root: Option<Id>, body: string, now: nat)
    | Edit(id: Id, body: string, now: nat)
    | Drop(id: Id)

  datatype Outcome =
    | Done
    | NotFound
    | Forbidden
    | NoUser
    | NoWorkspace
    | NoChannel
    | NoRoot
    | Restricted      // a message of the user is left
    | CheckViolation  // reply_count below zero

  // ---------------------------------------------------------------- sequential meaning

  function OwnedBy(db: Db, u: Id): set<Id> {
    set w | w in db.workspaces && db.workspaces[w] == u
  }

  function ChannelsOf(db: Db, ws: set<Id>): set<Id> {
    set c | c in db.channels && db.channels[c] in ws
  }

  function WrittenBy(msgs: map<Id, Message>, u: Id): set<Id> {
    set m | m in msgs && msgs[m].author == u
  }

  /** Everything below these messages in their threads, they included, is taken. */
  ghost function WithoutThreads(msgs: map<Id, Message>, seeds: set<Id>): map<Id, Message> {
    Without(msgs, Reach(ThreadEdges(msgs), seeds))
  }

  ghost function WithoutChannels(db: Db, channels: set<Id>): Db {
    db.(channels := db.channels - channels, msgs := WithoutThreads(db.msgs, PostedIn(db.msgs, channels)))
  }

  ghost function WithoutWorkspaces(db: Db, ws: set<Id>): Db {
    WithoutChannels(db, ChannelsOf(db, ws)).(workspaces := db.workspaces - ws)
  }

  ghost function Verdict(op: Op, db: Db): Outcome {
    match op
    case Register(_) => Done
    case MakeWorkspace(actor, _) => if actor in db.users then Done else NoUser
    case MakeChannel(w, _) => if w in db.workspaces then Done else NoWorkspace
    case DropChannel(c) => if c in db.channels then Done else NotFound
    case DropWorkspace(actor, w) =>
      if w !in db.workspaces then NotFound else if db.workspaces[w] != actor then Forbidden else Done
    case DropUser(u) =>
      if u !in db.users then NoUser
      else if WrittenBy(WithoutWorkspaces(db, OwnedBy(db, u)).msgs, u) != {} then Restricted
      else Done
    case Post(_, author, c, root, _, _) =>
      if author !in db.users then NoUser
      else if c !in db.channels then NoChannel
      else if root.Some? && root.value !in db.msgs then NoRoot
      else Done
    case Edit(id, _, _) => if id in db.msgs then Done else NotFound
    case Drop(id) => if id in db.msgs then Done else NotFound
  }

  function NewMessage(op: Op): Message
    requires op.Post?
  {
    Message(op.author, op.channel, op.body, op.root, 0, op.now, op.now)
  }

  ghost function Effect(op: Op, db: Db): Db {
    if Verdict(op, db) != Done then db else
    match op
    case Register(u) => db.(users := db.users + {u})
    case MakeWorkspace(actor, w) => db.(workspaces := db.workspaces[w := actor])
    case MakeChannel(w, c) => db.(channels := db.channels[c := w])
    case DropChannel(c) => WithoutChannels(db, {c})
    case DropWorkspace(_, w) => WithoutWorkspaces(db, {w})
    case DropUser(u) => WithoutWorkspaces(db, OwnedBy(db, u)).(users := db.users - {u})
    case Post(id, _, _, _, _, _) => db.(msgs := Posted(db.msgs, id, NewMessage(op)))
    case Edit(id, body, now) => db.(msgs := db.msgs[id := db.msgs[id].(body := body, updatedAt := now)])
    case Drop(id) => db.(msgs := WithoutThreads(db.msgs, {id}))
  }

  // ---------------------------------------------------------------- transactions

  datatype Row = UserRow(user: Id) | WsRow(ws: Id) | ChannelRow(channel: Id) | MsgRow(id: Id)

  /** Uncommitted writes: inserted rows and new row versions, and deleted rows. */
  datatype Delta = Delta(
    newUsers: set<Id>, newWs: map<Id, Id>, newChannels: map<Id, Id>,
    goneUsers: set<Id>, goneWs: set<Id>, goneChannels: set<Id>,
    puts: map<Id, Message>, gone: set<Id>)

  const NODELTA := Delta({}, map[], map[], {}, {}, {}, map[], {})

  function Apply(db: Db, d: Delta): Db {
    Db(db.users - d.goneUsers + d.newUsers,
       (db.workspaces - d.goneWs) + d.newWs,
       (db.channels - d.goneChannels) + d.newChannels,
       (db.msgs - d.gone) + d.puts)
  }

  datatype Phase =
    | Begun
    | OwnerFk
    | WorkspaceFk
    | AuthorFk
    | ChannelFk
    | RootFk
    | Bump                                                        // AFTER INSERT trigger
    | FindOwned                                                   // snapshot of the owned-workspaces DELETE
    | LockOwned(todo: set<Id>)                                    // its matching rows not yet visited
    | Cascade(pend: set<Row>, rows: set<Row>, decs: map<Id, Id>)  // AFTER DELETE triggers still to run:
                                                                  // cascades, rows of the running cascade,
                                                                  // decrements as OLD.id -> OLD.thread_root_id
    | DeleteUserRow
    | FindWritten                                                 // snapshot of the RESTRICT check
    | Restrict(todo: set<Id>)                                     // its messages not yet visited
    | Ready

  datatype Tx = Tx(op: Op, phase: Phase, held: set<Lock<Row>>, delta: Delta)

  predicate Visible(v: Db, r: Row) {
    match r
    case UserRow(u) => u in v.users
    case WsRow(w) => w in v.workspaces
    case ChannelRow(c) => c in v.channels
    case MsgRow(m) => m in v.msgs
  }

  /** The rows that refer to p by a cascading key. */
  function Referring(v: Db, p: Row): set<Row> {
    match p
    case UserRow(_) => {}
    case WsRow(w) => set c | c in v.channels && v.channels[c] == w :: ChannelRow(c)
    case ChannelRow(c) => set m | m in v.msgs && v.msgs[m].channel == c :: MsgRow(m)
    case MsgRow(r) => set m | m in v.msgs && v.msgs[m].root == Some(r) :: MsgRow(m)
  }

  datatype Choice = Only | Ws(ws: Id) | Parent(row: Row) | Child(row: Row) | Decrement(id: Id) | Written(id: Id)

  /** The row lock the next statement has to obtain. A row that is gone by now is passed over without one. */
  function Request(db: Db, tx: Tx, c: Choice): Option<Lock<Row>> {
    match tx.phase
    case Begun =>
      (match tx.op
       case DropChannel(ch) => Some(ForUpdate(ChannelRow(ch)))
       case DropWorkspace(_, w) => Some(ForUpdate(WsRow(w)))
       case DropUser(u) => Some(ForUpdate(UserRow(u)))
       case Edit(id, _, _) => Some(ForNoKeyUpdate(MsgRow(id)))
       case Drop(id) => Some(ForUpdate(MsgRow(id)))
       case _ => None)
    case OwnerFk => if tx.op.MakeWorkspace? then Some(ForKeyShare(UserRow(tx.op.actor))) else None
    case WorkspaceFk => if tx.op.MakeChannel? then Some(ForKeyShare(WsRow(tx.op.ws))) else None
    case AuthorFk => if tx.op.Post? then Some(ForKeyShare(UserRow(tx.op.author))) else None
    case ChannelFk => if tx.op.Post? then Some(ForKeyShare(ChannelRow(tx.op.channel))) else None
    case RootFk => if tx.op.Post? && tx.op.root.Some? then Some(ForKeyShare(MsgRow(tx.op.root.value))) else None
    case Bump => if tx.op.Post? && tx.op.root.Some? then Some(ForNoKeyUpdate(MsgRow(tx.op.root.value))) else None
    case LockOwned(todo) =>
      if c.Ws? && c.ws in todo && c.ws in db.workspaces then Some(ForUpdate(WsRow(c.ws))) else None
    case Cascade(_, rows, decs) =>
      if c.Child? && c.row in rows && Visible(Apply(db, tx.delta), c.row) then Some(ForUpdate(c.row))
      else if c.Decrement? && c.id in decs && decs[c.id] in Apply(db, tx.delta).msgs
      then Some(ForNoKeyUpdate(MsgRow(decs[c.id])))
      else None
    case Restrict(todo) =>
      if c.Written? && c.id in todo && c.id in Apply(db, tx.delta).msgs then Some(ForKeyShare(MsgRow(c.id))) else None
    case _ => None
  }

  datatype Move = Continue(tx: Tx) | Return(outcome: Outcome) | Publish | Stuck

  function Advance(db: Db, tx: Tx, c: Choice): Move {
    var v := Apply(db, tx.delta);
    match tx.phase
    case Begun => Start(db, tx)
    case OwnerFk =>
      if !tx.op.MakeWorkspace? then Stuck
      else if tx.op.actor !in v.users then Return(NoUser)
      else Continue(tx.(phase := Ready, held := tx.held + {ForKeyShare(UserRow(tx.op.actor))}))
    case WorkspaceFk =>
      if !tx.op.MakeChannel? then Stuck
      else if tx.op.ws !in v.workspaces then Return(NoWorkspace)
      else Continue(tx.(phase := Ready, held := tx.held + {ForKeyShare(WsRow(tx.op.ws))}))
    case AuthorFk =>
      if !tx.op.Post? then Stuck
      else if tx.op.author !in v.users then Return(NoUser)
      else Continue(tx.(phase := ChannelFk, held := tx.held + {ForKeyShare(UserRow(tx.op.author))}))
    case ChannelFk =>
      if !tx.op.Post? then Stuck
      else if tx.op.channel !in v.channels then Return(NoChannel)
      else Continue(tx.(phase := if tx.op.root.Some? then RootFk else Ready,
                    held := tx.held + {ForKeyShare(ChannelRow(tx.op.channel))}))
    case RootFk =>
      if !(tx.op.Post? && tx.op.root.Some?) then Stuck
      else if tx.op.root.value !in v.msgs then Return(NoRoot)
      else Continue(tx.(phase := Bump, held := tx.held + {ForKeyShare(MsgRow(tx.op.root.value))}))
    case Bump =>
      if !(tx.op.Post? && tx.op.root.Some?) then Stuck else
      var r := tx.op.root.value;
      if r !in v.msgs then Continue(tx.(phase := Ready))
      else Continue(tx.(phase := Ready, held := tx.held + {ForNoKeyUpdate(MsgRow(r))},
                    delta := tx.delta.(puts := tx.delta.puts[r := v.msgs[r].(count := v.msgs[r].count + 1)])))
    case FindOwned =>
      if !tx.op.DropUser? then Stuck else Continue(tx.(phase := LockOwned(OwnedBy(v, tx.op.user))))
    case LockOwned(todo) => VisitOwned(db, tx, c)
    case Cascade(pend, rows, decs) =>
      (match c
       case Only =>
         if pend == {} && rows == {} && decs == map[]
         then Continue(tx.(phase := if tx.op.DropUser? then DeleteUserRow else Ready))
         else Stuck
       case Parent(p) => if rows == {} && p in pend then Continue(StartCascade(v, tx, p)) else Stuck
       case Child(r) => if r in rows then Continue(VisitRow(v, tx, r)) else Stuck
       case Decrement(d) => if d in decs then Subtract(v, tx, d) else Stuck
       case _ => Stuck)
    case DeleteUserRow =>
      if !tx.op.DropUser? then Stuck
      else Continue(tx.(phase := FindWritten, delta := tx.delta.(goneUsers := {tx.op.user})))
    case FindWritten =>
      if !tx.op.DropUser? then Stuck else Continue(tx.(phase := Restrict(WrittenBy(v.msgs, tx.op.user))))
    case Restrict(todo) =>
      if todo == {} then Continue(tx.(phase := Ready))
      else if !(c.Written? && c.id in todo) then Stuck
      else if c.id in v.msgs then Return(Restricted)
      else Continue(tx.(phase := Restrict(todo - {c.id})))
    case Ready => Publish
  }

  function Start(db: Db, tx: Tx): Move {
    match tx.op
    case Register(u) => Continue(tx.(phase := Ready, delta := NODELTA.(newUsers := {u})))
    case MakeWorkspace(actor, w) => Continue(tx.(phase := OwnerFk, delta := NODELTA.(newWs := map[w := actor])))
    case MakeChannel(w, ch) => Continue(tx.(phase := WorkspaceFk, delta := NODELTA.(newChannels := map[ch := w])))
    case DropChannel(ch) =>
      if ch !in db.channels then Return(NotFound)
      else Continue(Tx(tx.op, Cascade({ChannelRow(ch)}, {}, map[]), tx.held + {ForUpdate(ChannelRow(ch))},
                       NODELTA.(goneChannels := {ch})))
    case DropWorkspace(actor, w) =>
      if w !in db.workspaces then Return(NotFound)
      else if db.workspaces[w] != actor then Return(Forbidden)
      else Continue(Tx(tx.op, Cascade({WsRow(w)}, {}, map[]), tx.held + {ForUpdate(WsRow(w))},
                       NODELTA.(goneWs := {w})))
    case DropUser(u) =>
      if u !in db.users then Return(NoUser)
      else Continue(tx.(phase := FindOwned, held := tx.held + {ForUpdate(UserRow(u))}))
    case Post(id, _, _, _, _, _) =>
      Continue(tx.(phase := AuthorFk, delta := NODELTA.(puts := map[id := NewMessage(tx.op)])))
    case Edit(id, body, now) =>
      if id !in db.msgs then Return(NotFound)
      else Continue(Tx(tx.op, Ready, tx.held + {ForNoKeyUpdate(MsgRow(id))},
                       NODELTA.(puts := map[id := db.msgs[id].(body := body, updatedAt := now)])))
    case Drop(id) =>
      if id !in db.msgs then Return(NotFound)
      else Continue(Tx(tx.op, Cascade({MsgRow(id)}, {}, Pending(id, db.msgs[id])), tx.held + {ForUpdate(MsgRow(id))},
                       NODELTA.(gone := {id})))
  }

  /** A workspace that vanished while the statement waited for it is skipped. */
  function VisitOwned(db: Db, tx: Tx, c: Choice): Move
    requires tx.phase.LockOwned?
  {
    var todo := tx.phase.todo;
    if todo == {} then Continue(tx.(phase := Cascade(set w | w in tx.delta.goneWs :: WsRow(w), {}, map[])))
    else if !(c.Ws? && c.ws in todo) then Stuck
    else if c.ws !in db.workspaces then Continue(tx.(phase := LockOwned(todo - {c.ws})))
    else Continue(tx.(phase := LockOwned(todo - {c.ws}), held := tx.held + {ForUpdate(WsRow(c.ws))},
                  delta := tx.delta.(goneWs := tx.delta.goneWs + {c.ws})))
  }

  /** The decrement a deleted row leaves to be run, if it is a reply. */
  function Pending(id: Id, old_: Message): map<Id, Id> {
    if old_.root.Some? then map[id := old_.root.value] else map[]
  }

  /** Snapshot of the query that deletes the rows referring to a deleted parent. */
  function StartCascade(v: Db, tx: Tx, p: Row): Tx
    requires tx.phase.Cascade?
  {
    tx.(phase := tx.phase.(pend := tx.phase.pend - {p}, rows := Referring(v, p)))
  }

  function VisitRow(v: Db, tx: Tx, r: Row): Tx
    requires tx.phase.Cascade?
  {
    var Cascade(pend, rows, decs) := tx.phase;
    if !Visible(v, r) then tx.(phase := Cascade(pend, rows - {r}, decs)) else
    match r
    case ChannelRow(ch) =>
      Tx(tx.op, Cascade(pend + {r}, rows - {r}, decs), tx.held + {ForUpdate(r)},
         tx.delta.(goneChannels := tx.delta.goneChannels + {ch}))
    case MsgRow(m) =>
      Tx(tx.op, Cascade(pend + {r}, rows - {r}, decs + Pending(m, v.msgs[m])), tx.held + {ForUpdate(r)},
         tx.delta.(gone := tx.delta.gone + {m}, puts := tx.delta.puts - {m}))
    case _ => tx.(phase := Cascade(pend, rows - {r}, decs))
  }

  /** UPDATE ... SET reply_count = reply_count - 1 WHERE id = OLD.thread_root_id, under its CHECK. */
  function Subtract(v: Db, tx: Tx, d: Id): Move
    requires tx.phase.Cascade? && d in tx.phase.decs
  {
    var decs := tx.phase.decs;
    var m := decs[d];
    var tx' := tx.(phase := tx.phase.(decs := decs - {d}));
    if m !in v.msgs then Continue(tx')
    else if v.msgs[m].count - 1 < 0 then Return(CheckViolation)
    else Continue(tx'.(held := tx.held + {ForNoKeyUpdate(MsgRow(m))},
                  delta := tx.delta.(puts := tx.delta.puts[m := v.msgs[m].(count := v.msgs[m].count - 1)])))
  }

  // ---------------------------------------------------------------- the system

  type Tid = nat

  datatype Event = Event(op: Op, outcome: Outcome)

  /** born: every id a commit ever stored. */
  datatype State = State(db: Db, born: set<Id>, txs: map<Tid, Tx>, log: seq<Event>)

  const INIT := State(EMPTY, {}, map[], [])

  function Stored(db: Db): set<Id> {
    db.users + db.workspaces.Keys + db.channels.Keys + db.msgs.Keys
  }

  function Reserved(op: Op): set<Id> {
    match op
    case Register(u) => {u}
    case MakeWorkspace(_, w) => {w}
    case MakeChannel(_, c) => {c}
    case Post(id, _, _, _, _, _) => {id}
    case _ => {}
  }

  /** uuid.NewV7 returns an id that no row has or had, no open call was given and no caller knows. */
  predicate Fresh(s: State, op: Op) {
    && Reserved(op) !! s.born
    && (forall t | t in s.txs :: Reserved(op) !! Reserved(s.txs[t].op))
    && (op.Post? ==> op.root != Some(op.id))
  }

  predicate Blocks(s: State, t: Tid, c: Choice, other: Tid)
    requires t in s.txs && other in s.txs
  {
    && other != t
    && Request(s.db, s.txs[t], c).Some?
    && exists l :: l in s.txs[other].held && Clash(Request(s.db, s.txs[t], c).value, l)
  }

  predicate Granted(s: State, t: Tid, c: Choice)
    requires t in s.txs
  {
    forall o | o in s.txs :: !Blocks(s, t, c, o)
  }

  datatype Label = Begin(t: Tid, op: Op) | Act(t: Tid, choice: Choice) | Abort(t: Tid)

  predicate Moves(s: State, t: Tid, m: Move, s': State)
    requires t in s.txs
  {
    match m
    case Continue(tx) => s' == s.(txs := s.txs[t := tx])
    case Return(o) => s' == s.(txs := s.txs - {t}, log := s.log + [Event(s.txs[t].op, o)])
    case Publish =>
      s' == State(Apply(s.db, s.txs[t].delta), s.born + Reserved(s.txs[t].op), s.txs - {t},
                  s.log + [Event(s.txs[t].op, Done)])
    case Stuck => false
  }

  predicate Next(s: State, l: Label, s': State) {
    match l
    case Begin(t, op) =>
      t !in s.txs && Fresh(s, op) && s' == s.(txs := s.txs[t := Tx(op, Begun, {}, NODELTA)])
    case Act(t, c) =>
      t in s.txs && Granted(s, t, c) && Moves(s, t, Advance(s.db, s.txs[t], c), s')
    case Abort(t) =>
      t in s.txs && s' == s.(txs := s.txs - {t})
  }

  predicate IsRun(ss: seq<State>, ls: seq<Label>) {
    && |ss| == |ls| + 1
    && ss[0] == INIT
    && forall i | 0 <= i < |ls| :: Next(ss[i], ls[i], ss[i + 1])
  }

  ghost function Replay(log: seq<Event>): Db {
    if log == [] then EMPTY else Effect(log[|log| - 1].op, Replay(log[..|log| - 1]))
  }
}
