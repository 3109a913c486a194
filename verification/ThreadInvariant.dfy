/** What every reachable state of the concurrent thread model satisfies, by rely-guarantee on locks. */
module ThreadInvariant {
  import opened Base
  import opened RowLocks
  import opened Reachability
  import opened Entities
  import opened ThreadModel

  // ---------------------------------------------------------------- committed tables

  ghost predicate KeysHold(db: Db) {
    && (forall w | w in db.workspaces :: db.workspaces[w] in db.users)
    && (forall c | c in db.channels :: db.channels[c] in db.workspaces)
    && (forall m | m in db.msgs ::
          && db.msgs[m].author in db.users
          && db.msgs[m].channel in db.channels
          && (db.msgs[m].root.Some? ==> db.msgs[m].root.value in db.msgs))
  }

  ghost predicate DbOk(db: Db) { KeysHold(db) && CountsOk(db.msgs) }

  // ---------------------------------------------------------------- one transaction

  /** The row is locked against every change, or at least against deletion. */
  predicate HoldsMsg(db: Db, tx: Tx, m: Id) { ForUpdate(MsgRow(m)) in tx.held && m in db.msgs }

  predicate FixesMsg(db: Db, tx: Tx, m: Id) { ForNoKeyUpdate(MsgRow(m)) in tx.held && m in db.msgs }

  predicate SharesMsg(db: Db, tx: Tx, m: Id) { ForKeyShare(MsgRow(m)) in tx.held && m in db.msgs }

  predicate HoldsChannel(db: Db, tx: Tx, c: Id) { ForUpdate(ChannelRow(c)) in tx.held && c in db.channels }

  predicate SharesChannel(db: Db, tx: Tx, c: Id) { ForKeyShare(ChannelRow(c)) in tx.held && c in db.channels }

  predicate HoldsWs(db: Db, tx: Tx, w: Id) { ForUpdate(WsRow(w)) in tx.held && w in db.workspaces }

  predicate SharesWs(db: Db, tx: Tx, w: Id) { ForKeyShare(WsRow(w)) in tx.held && w in db.workspaces }

  predicate HoldsUser(db: Db, tx: Tx, u: Id) { ForUpdate(UserRow(u)) in tx.held && u in db.users }

  predicate SharesUser(db: Db, tx: Tx, u: Id) { ForKeyShare(UserRow(u)) in tx.held && u in db.users }

  predicate PostOk(db: Db, tx: Tx) {
    tx.op.Post? && tx.op.id !in db.msgs && tx.op.root != Some(tx.op.id)
  }

  ghost predicate PostReady(db: Db, tx: Tx) {
    && PostOk(db, tx)
    && SharesUser(db, tx, tx.op.author)
    && SharesChannel(db, tx, tx.op.channel)
    && match tx.op.root
       case None => tx.delta == NODELTA.(puts := map[tx.op.id := NewMessage(tx.op)])
       case Some(r) =>
         && SharesMsg(db, tx, r) && FixesMsg(db, tx, r)
         && tx.delta == NODELTA.(puts := map[tx.op.id := NewMessage(tx.op),
                                             r := db.msgs[r].(count := db.msgs[r].count + 1)])
  }

  predicate EditReady(db: Db, tx: Tx) {
    && tx.op.Edit?
    && FixesMsg(db, tx, tx.op.id)
    && tx.delta == NODELTA.(puts := map[tx.op.id := db.msgs[tx.op.id].(body := tx.op.body, updatedAt := tx.op.now)])
  }

  /** The messages a delete takes before it follows thread links. */
  function Seeds(msgs: map<Id, Message>, op: Op, channels: set<Id>): set<Id> {
    PostedIn(msgs, channels) + if op.Drop? then {op.id} else {}
  }

  function Within(msgs: map<Id, Message>, s: set<Id>): map<Id, Message> {
    map m | m in msgs && m in s :: msgs[m]
  }

  /** DropUser while it locks the workspaces its snapshot found. */
  ghost predicate OwnedOk(db: Db, born: set<Id>, tx: Tx, todo: set<Id>) {
    && tx.op.DropUser?
    && HoldsUser(db, tx, tx.op.user)
    && tx.delta == NODELTA.(goneWs := tx.delta.goneWs)
    && todo <= born
    && (forall w | w in tx.delta.goneWs :: HoldsWs(db, tx, w) && db.workspaces[w] == tx.op.user)
    && (forall w | w in todo && w in db.workspaces :: db.workspaces[w] == tx.op.user)
    && OwnedBy(db, tx.op.user) <= tx.delta.goneWs + todo
  }

  /** The row the call names, and the workspaces that go with an account, are locked and gone. */
  ghost predicate ParentsOk(db: Db, tx: Tx) {
    && tx.delta.newUsers == {} && tx.delta.newWs == map[] && tx.delta.newChannels == map[]
    && (forall w | w in tx.delta.goneWs :: HoldsWs(db, tx, w))
    && match tx.op
       case DropChannel(c) => tx.delta.goneWs == {} && tx.delta.goneUsers == {} && tx.delta.goneChannels == {c}
       case DropWorkspace(actor, w) =>
         tx.delta.goneWs == {w} && tx.delta.goneUsers == {} && w in db.workspaces && db.workspaces[w] == actor
       case DropUser(u) => HoldsUser(db, tx, u) && tx.delta.goneWs == OwnedBy(db, u) && tx.delta.goneUsers <= {u}
       case Drop(id) =>
         tx.delta.goneWs == {} && tx.delta.goneUsers == {} && tx.delta.goneChannels == {} && id in tx.delta.gone
       case _ => false
  }

  ghost predicate ChannelsOk(db: Db, tx: Tx) {
    forall c | c in tx.delta.goneChannels ::
      HoldsChannel(db, tx, c) && (tx.op.DropChannel? || db.channels[c] in tx.delta.goneWs)
  }

  /** Deleted and recounted messages are locked; deleted ones lead back to a row that takes them along. */
  ghost predicate MsgsOk(db: Db, tx: Tx) {
    && (forall m | m in tx.delta.gone :: HoldsMsg(db, tx, m))
    && (forall m | m in tx.delta.puts :: FixesMsg(db, tx, m))
    && OnlyRecounts(db, tx.delta)
    && Grounded(db, tx)
  }

  ghost predicate DropRows(db: Db, tx: Tx) {
    ParentsOk(db, tx) && ChannelsOk(db, tx) && MsgsOk(db, tx)
  }

  predicate OnlyRecounts(db: Db, d: Delta) {
    forall m | m in d.puts :: m !in d.gone && m in db.msgs && d.puts[m] == db.msgs[m].(count := d.puts[m].count)
  }

  ghost predicate Grounded(db: Db, tx: Tx) {
    var here := Within(db.msgs, tx.delta.gone);
    tx.delta.gone <= Reach(ThreadEdges(here), Seeds(here, tx.op, tx.delta.goneChannels) * tx.delta.gone)
  }

  ghost predicate DropCounts(db: Db, tx: Tx, decs: map<Id, Id>) {
    && (forall d | d in decs :: d in tx.delta.gone && d in db.msgs && db.msgs[d].root == Some(decs[d]))
    && (forall m | m in tx.delta.puts && m in db.msgs ::
          tx.delta.puts[m].count == db.msgs[m].count - |Counted(db.msgs, tx.delta.gone, decs, m)|)
    && (forall d | d in tx.delta.gone && d in db.msgs && d !in decs && db.msgs[d].root.Some? ::
          db.msgs[d].root.value in tx.delta.puts || db.msgs[d].root.value in tx.delta.gone)
  }

  predicate InScope(d: Delta, m: Message) {
    m.channel in d.goneChannels || (m.root.Some? && m.root.value in d.gone)
  }

  predicate Due(d: Delta, pend: set<Row>, m: Message) {
    || (m.channel in d.goneChannels && ChannelRow(m.channel) !in pend)
    || (m.root.Some? && m.root.value in d.gone && MsgRow(m.root.value) !in pend)
  }

  /** A deleted row whose cascade has not run. */
  predicate IsDeleted(d: Delta, p: Row) {
    match p
    case UserRow(_) => false
    case WsRow(w) => w in d.goneWs
    case ChannelRow(c) => c in d.goneChannels
    case MsgRow(m) => m in d.gone
  }

  /** A row a cascade query found, as long as it is there. */
  predicate MayVisit(db: Db, born: set<Id>, d: Delta, r: Row) {
    match r
    case ChannelRow(c) => c in born && (c in db.channels ==> db.channels[c] in d.goneWs)
    case MsgRow(m) => m in born && (m in db.msgs ==> InScope(d, db.msgs[m]))
    case _ => false
  }

  ghost predicate DropPending(db: Db, born: set<Id>, tx: Tx, pend: set<Row>, rows: set<Row>) {
    && (forall p | p in pend :: IsDeleted(tx.delta, p))
    && (forall r | r in rows :: MayVisit(db, born, tx.delta, r))
    && (forall c | c in db.channels && db.channels[c] in tx.delta.goneWs && WsRow(db.channels[c]) !in pend ::
          c in tx.delta.goneChannels || ChannelRow(c) in rows)
    && (forall m | m in db.msgs && Due(tx.delta, pend, db.msgs[m]) :: m in tx.delta.gone || MsgRow(m) in rows)
  }

  ghost predicate DropOk(db: Db, born: set<Id>, tx: Tx, pend: set<Row>, rows: set<Row>, decs: map<Id, Id>) {
    DropRows(db, tx) && DropCounts(db, tx, decs) && DropPending(db, born, tx, pend, rows)
  }

  /** Every trigger of the deletes has run. */
  ghost predicate DropDone(db: Db, born: set<Id>, tx: Tx) {
    DropOk(db, born, tx, {}, {}, map[])
  }

  /** The messages of the deleted user that are left are among those still to be visited. */
  predicate WrittenOk(db: Db, born: set<Id>, tx: Tx, todo: set<Id>) {
    && tx.op.DropUser?
    && todo <= born
    && tx.delta.goneUsers == {tx.op.user}
    && WrittenBy(db.msgs, tx.op.user) <= tx.delta.gone + todo
    && (forall m | m in todo && m in db.msgs :: db.msgs[m].author == tx.op.user)
  }

  ghost predicate TxOk(db: Db, born: set<Id>, tx: Tx) {
    && Reserved(tx.op) !! born
    && match tx.phase
       case Begun => tx.held == {} && tx.delta == NODELTA && (tx.op.Post? ==> PostOk(db, tx))
       case OwnerFk => tx.op.MakeWorkspace? && tx.delta == NODELTA.(newWs := map[tx.op.ws := tx.op.actor])
       case WorkspaceFk => tx.op.MakeChannel? && tx.delta == NODELTA.(newChannels := map[tx.op.channel := tx.op.ws])
       case AuthorFk => PostOk(db, tx) && tx.delta == NODELTA.(puts := map[tx.op.id := NewMessage(tx.op)])
       case ChannelFk =>
         && PostOk(db, tx) && SharesUser(db, tx, tx.op.author)
         && tx.delta == NODELTA.(puts := map[tx.op.id := NewMessage(tx.op)])
       case RootFk =>
         && PostOk(db, tx) && tx.op.root.Some?
         && SharesUser(db, tx, tx.op.author) && SharesChannel(db, tx, tx.op.channel)
         && tx.delta == NODELTA.(puts := map[tx.op.id := NewMessage(tx.op)])
       case Bump =>
         && PostOk(db, tx) && tx.op.root.Some?
         && SharesUser(db, tx, tx.op.author) && SharesChannel(db, tx, tx.op.channel)
         && SharesMsg(db, tx, tx.op.root.value)
         && tx.delta == NODELTA.(puts := map[tx.op.id := NewMessage(tx.op)])
       case FindOwned => tx.op.DropUser? && tx.delta == NODELTA && HoldsUser(db, tx, tx.op.user)
       case LockOwned(todo) => OwnedOk(db, born, tx, todo)
       case Cascade(pend, rows, decs) => DropOk(db, born, tx, pend, rows, decs) && tx.delta.goneUsers == {}
       case DeleteUserRow => tx.op.DropUser? && DropDone(db, born, tx) && tx.delta.goneUsers == {}
       case FindWritten => tx.op.DropUser? && DropDone(db, born, tx) && tx.delta.goneUsers == {tx.op.user}
       case Restrict(todo) => DropDone(db, born, tx) && WrittenOk(db, born, tx, todo)
       case Ready => ReadyOk(db, born, tx)
  }

  ghost predicate ReadyOk(db: Db, born: set<Id>, tx: Tx) {
    match tx.op
    case Register(u) => tx.delta == NODELTA.(newUsers := {u})
    case MakeWorkspace(actor, w) => tx.delta == NODELTA.(newWs := map[w := actor]) && SharesUser(db, tx, actor)
    case MakeChannel(w, c) => tx.delta == NODELTA.(newChannels := map[c := w]) && SharesWs(db, tx, w)
    case Post(_, _, _, _, _, _) => PostReady(db, tx)
    case Edit(_, _, _) => EditReady(db, tx)
    case DropUser(_) => DropDone(db, born, tx) && WrittenOk(db, born, tx, {})
    case _ => DropDone(db, born, tx) && tx.delta.goneUsers == {}
  }

  // ---------------------------------------------------------------- the sequential calls

  lemma WithoutThreadsKeeps(msgs: map<Id, Message>, seeds: set<Id>, m: Id)
    ensures m in WithoutThreads(msgs, seeds) ==>
              m in msgs && WithoutThreads(msgs, seeds)[m] == msgs[m].(count := WithoutThreads(msgs, seeds)[m].count)
    ensures m in WithoutThreads(msgs, seeds) <==> m in msgs && m !in Reach(ThreadEdges(msgs), seeds)
  {
  }

  lemma RootsStay(msgs: map<Id, Message>, seeds: set<Id>, m: Id)
    requires m in msgs && msgs[m].root.Some?
    ensures msgs[m].root.value in Reach(ThreadEdges(msgs), seeds) ==> m in Reach(ThreadEdges(msgs), seeds)
  {
    ThreadEdgesContents(msgs, m);
    var e := (msgs[m].root.value, m);
    assert e.0 in Reach(ThreadEdges(msgs), seeds) ==> e.1 in Reach(ThreadEdges(msgs), seeds);
  }

  /** Taking channels away with everything in them keeps the keys and the counts. */
  lemma WithoutChannelsKeepsDbOk(db: Db, cs: set<Id>)
    requires DbOk(db)
    ensures DbOk(WithoutChannels(db, cs))
  {
    var seeds := PostedIn(db.msgs, cs);
    var db' := WithoutChannels(db, cs);
    WithoutKeepsCounts(db.msgs, Reach(ThreadEdges(db.msgs), seeds));
    forall m | m in db'.msgs
      ensures db'.msgs[m].author in db.users && db'.msgs[m].channel in db'.channels
      ensures db'.msgs[m].root.Some? ==> db'.msgs[m].root.value in db'.msgs
    {
      WithoutThreadsKeeps(db.msgs, seeds, m);
      if db.msgs[m].root.Some? {
        RootsStay(db.msgs, seeds, m);
        WithoutThreadsKeeps(db.msgs, seeds, db.msgs[m].root.value);
      }
    }
  }

  lemma WithoutWorkspacesKeepsDbOk(db: Db, ws: set<Id>)
    requires DbOk(db)
    ensures DbOk(WithoutWorkspaces(db, ws))
  {
    WithoutChannelsKeepsDbOk(db, ChannelsOf(db, ws));
  }

  lemma DropKeepsDbOk(db: Db, id: Id)
    requires DbOk(db)
    ensures DbOk(db.(msgs := WithoutThreads(db.msgs, {id})))
  {
    var msgs := WithoutThreads(db.msgs, {id});
    WithoutKeepsCounts(db.msgs, Reach(ThreadEdges(db.msgs), {id}));
    forall m | m in msgs
      ensures m in db.msgs && msgs[m].author in db.users && msgs[m].channel in db.channels
      ensures msgs[m].root.Some? ==> msgs[m].root.value in msgs
    {
      WithoutThreadsKeeps(db.msgs, {id}, m);
      if db.msgs[m].root.Some? {
        RootsStay(db.msgs, {id}, m);
        WithoutThreadsKeeps(db.msgs, {id}, db.msgs[m].root.value);
      }
    }
  }

  lemma OwnedAreGone(db: Db, u: Id)
    ensures var db1 := WithoutWorkspaces(db, OwnedBy(db, u));
            db1.users == db.users && forall w | w in db1.workspaces :: db1.workspaces[w] != u
  {
    hide WithoutThreads;
  }

  lemma DropUserKeepsDbOk(db: Db, u: Id)
    requires DbOk(db) && Verdict(DropUser(u), db) == Done
    ensures DbOk(Effect(DropUser(u), db))
  {
    hide WithoutWorkspaces, CountsOk;
    var db1 := WithoutWorkspaces(db, OwnedBy(db, u));
    WithoutWorkspacesKeepsDbOk(db, OwnedBy(db, u));
    OwnedAreGone(db, u);
    assert WrittenBy(db1.msgs, u) == {};
    forall m | m in db1.msgs ensures db1.msgs[m].author != u { assert m !in WrittenBy(db1.msgs, u); }
  }

  lemma PostKeepsDbOk(op: Op, db: Db)
    requires DbOk(db) && op.Post? && Verdict(op, db) == Done
    requires op.id !in db.msgs && op.root != Some(op.id)
    ensures DbOk(Effect(op, db))
  {
    PostedKeepsCounts(db.msgs, op.id, NewMessage(op));
  }

  lemma EditKeepsDbOk(op: Op, db: Db)
    requires DbOk(db) && op.Edit? && Verdict(op, db) == Done
    ensures DbOk(Effect(op, db))
  {
    forall m ensures Replies(Effect(op, db).msgs, m) == Replies(db.msgs, m) {
      RepliesSameRoots(db.msgs, Effect(op, db).msgs, m);
    }
  }

  lemma MakeKeepsDbOk(op: Op, db: Db)
    requires DbOk(db) && (op.Register? || op.MakeWorkspace? || op.MakeChannel?) && Verdict(op, db) == Done
    ensures DbOk(Effect(op, db))
  {
  }

  /** Every call that runs alone keeps the foreign keys and the counts. */
  lemma EffectKeepsDbOk(op: Op, db: Db)
    requires DbOk(db)
    requires op.Post? ==> op.id !in db.msgs && op.root != Some(op.id)
    ensures DbOk(Effect(op, db))
  {
    hide DbOk, Verdict, WithoutThreads, WithoutChannels, WithoutWorkspaces;
    if Verdict(op, db) == Done {
      match op
      case DropChannel(c) => WithoutChannelsKeepsDbOk(db, {c});
      case DropWorkspace(_, w) => WithoutWorkspacesKeepsDbOk(db, {w});
      case DropUser(u) => DropUserKeepsDbOk(db, u);
      case Post(_, _, _, _, _, _) => PostKeepsDbOk(op, db);
      case Edit(_, _, _) => EditKeepsDbOk(op, db);
      case Drop(id) => DropKeepsDbOk(db, id);
      case _ => MakeKeepsDbOk(op, db);
    }
  }

  // ---------------------------------------------------------------- commits

  /** Once every cascade has run, the deleted messages are the closure of those in the deleted channels. */
  lemma DropIsClosed(db: Db, born: set<Id>, tx: Tx)
    requires DropDone(db, born, tx)
    ensures tx.delta.gone == Reach(ThreadEdges(db.msgs), Seeds(db.msgs, tx.op, tx.delta.goneChannels))
  {
    var gone := tx.delta.gone;
    var edges := ThreadEdges(db.msgs);
    var here := Within(db.msgs, gone);
    var seeds := Seeds(db.msgs, tx.op, tx.delta.goneChannels);
    forall e | e in edges && e.0 in gone ensures e.1 in gone {
      assert Due(tx.delta, {}, db.msgs[e.1]);
    }
    forall m | m in seeds ensures m in gone {
      if m in PostedIn(db.msgs, tx.delta.goneChannels) { assert Due(tx.delta, {}, db.msgs[m]); }
    }
    assert ThreadEdges(here) <= edges;
    ReachUnique(edges, seeds, gone, ThreadEdges(here), Seeds(here, tx.op, tx.delta.goneChannels) * gone);
  }

  lemma ChannelsAreClosed(db: Db, born: set<Id>, tx: Tx)
    requires DropDone(db, born, tx) && !tx.op.DropChannel?
    ensures tx.delta.goneChannels == ChannelsOf(db, tx.delta.goneWs)
  {
  }

  /** Once every decrement has run, an untouched row has lost no reply. */
  lemma UntouchedLosesNothing(db: Db, tx: Tx, m: Id)
    requires DropCounts(db, tx, map[]) && m !in tx.delta.gone && m !in tx.delta.puts
    ensures Replies(db.msgs, m) * tx.delta.gone == {}
  {
    forall d | d in Replies(db.msgs, m) ensures d !in tx.delta.gone {
      assert db.msgs[d].root == Some(m);
    }
  }

  lemma DropMsg(db: Db, tx: Tx, m: Id)
    requires OnlyRecounts(db, tx.delta) && DropCounts(db, tx, map[])
    requires m in db.msgs && m !in tx.delta.gone
    ensures ((db.msgs - tx.delta.gone) + tx.delta.puts)[m]
            == db.msgs[m].(count := db.msgs[m].count - |Replies(db.msgs, m) * tx.delta.gone|)
  {
    assert Counted(db.msgs, tx.delta.gone, map[], m) == Replies(db.msgs, m) * tx.delta.gone;
    if m !in tx.delta.puts { UntouchedLosesNothing(db, tx, m); }
  }

  lemma WithoutIs(msgs: map<Id, Message>, gone: set<Id>, puts: map<Id, Message>)
    requires puts.Keys <= msgs.Keys - gone
    requires forall m | m in msgs && m !in gone ::
               ((msgs - gone) + puts)[m] == msgs[m].(count := msgs[m].count - |Replies(msgs, m) * gone|)
    ensures (msgs - gone) + puts == Without(msgs, gone)
  {
    hide Replies;
    var left := (msgs - gone) + puts;
    assert left.Keys == msgs.Keys - gone;
    forall m | m in left ensures left[m] == Without(msgs, gone)[m] {}
  }

  lemma DropMsgs(db: Db, tx: Tx)
    requires MsgsOk(db, tx) && DropCounts(db, tx, map[])
    ensures Apply(db, tx.delta).msgs == Without(db.msgs, tx.delta.gone)
  {
    hide Grounded;
    forall m | m in db.msgs && m !in tx.delta.gone
      ensures ((db.msgs - tx.delta.gone) + tx.delta.puts)[m]
              == db.msgs[m].(count := db.msgs[m].count - |Replies(db.msgs, m) * tx.delta.gone|)
    {
      DropMsg(db, tx, m);
    }
    WithoutIs(db.msgs, tx.delta.gone, tx.delta.puts);
  }

  /** What a delete whose triggers have all run leaves visible. */
  lemma DropLeaves(db: Db, born: set<Id>, tx: Tx)
    requires DropDone(db, born, tx)
    ensures var v := Apply(db, tx.delta);
            && v.users == db.users - tx.delta.goneUsers
            && v.workspaces == db.workspaces - tx.delta.goneWs
            && v.channels == db.channels - tx.delta.goneChannels
            && v.msgs == WithoutThreads(db.msgs, Seeds(db.msgs, tx.op, tx.delta.goneChannels))
    ensures !tx.op.DropChannel? ==> tx.delta.goneChannels == ChannelsOf(db, tx.delta.goneWs)
  {
    hide DropCounts, DropPending, MsgsOk, ChannelsOk, Without, Seeds;
    DropIsClosed(db, born, tx);
    DropMsgs(db, tx);
    if !tx.op.DropChannel? { ChannelsAreClosed(db, born, tx); }
    assert (db.workspaces - tx.delta.goneWs) + map[] == db.workspaces - tx.delta.goneWs;
    assert (db.channels - tx.delta.goneChannels) + map[] == db.channels - tx.delta.goneChannels;
  }

  lemma WithoutOwnedVisible(db: Db, born: set<Id>, tx: Tx)
    requires DropDone(db, born, tx) && tx.op.DropUser?
    ensures WithoutWorkspaces(db, OwnedBy(db, tx.op.user)) == Apply(db, tx.delta).(users := db.users)
  {
    hide WithoutThreads, DropCounts, DropPending, MsgsOk, ChannelsOk;
    DropLeaves(db, born, tx);
    var cs := tx.delta.goneChannels;
    assert Seeds(db.msgs, tx.op, cs) == PostedIn(db.msgs, cs);
  }

  lemma DropUserIsEffect(db: Db, born: set<Id>, tx: Tx)
    requires DropDone(db, born, tx) && tx.op.DropUser? && WrittenOk(db, born, tx, {})
    ensures Verdict(tx.op, db) == Done
    ensures Apply(db, tx.delta) == Effect(tx.op, db)
  {
    var u := tx.op.user;
    hide WithoutWorkspaces, WithoutThreads, DropCounts, DropPending, ChannelsOk, Grounded, WrittenBy;
    WithoutOwnedVisible(db, born, tx);
    DropLeaves(db, born, tx);
    NothingWritten(db, born, tx);
  }

  lemma NothingWritten(db: Db, born: set<Id>, tx: Tx)
    requires WrittenOk(db, born, tx, {}) && OnlyRecounts(db, tx.delta)
    ensures WrittenBy(Apply(db, tx.delta).msgs, tx.op.user) == {}
  {
    var v := Apply(db, tx.delta).msgs;
    forall m | m in v ensures v[m].author != tx.op.user {
      assert m in db.msgs && v[m].author == db.msgs[m].author;
      assert m !in WrittenBy(db.msgs, tx.op.user);
    }
  }

  lemma SeedsOf(db: Db, tx: Tx)
    ensures !tx.op.Drop? ==> Seeds(db.msgs, tx.op, tx.delta.goneChannels) == PostedIn(db.msgs, tx.delta.goneChannels)
    ensures tx.op.Drop? && tx.delta.goneChannels == {} ==> Seeds(db.msgs, tx.op, tx.delta.goneChannels) == {tx.op.id}
  {
  }

  lemma DropIsEffect(db: Db, born: set<Id>, tx: Tx)
    requires DropDone(db, born, tx) && tx.delta.goneUsers == {} && !tx.op.DropUser?
    ensures Verdict(tx.op, db) == Done
    ensures Apply(db, tx.delta) == Effect(tx.op, db)
  {
    hide WithoutThreads, DropCounts, DropPending, Grounded, OnlyRecounts, Seeds, Apply;
    DropLeaves(db, born, tx);
    SeedsOf(db, tx);
    assert tx.op.Drop? ==> HoldsMsg(db, tx, tx.op.id) && ChannelsOf(db, {}) == {};
    assert tx.op.DropChannel? ==> HoldsChannel(db, tx, tx.op.channel);
  }

  lemma MakeIsEffect(db: Db, born: set<Id>, tx: Tx)
    requires tx.op.Register? || tx.op.MakeWorkspace? || tx.op.MakeChannel?
    requires ReadyOk(db, born, tx)
    ensures Verdict(tx.op, db) == Done
    ensures Apply(db, tx.delta) == Effect(tx.op, db)
  {
    hide DropDone, WrittenOk, PostReady, EditReady, WithoutWorkspaces, WithoutChannels, WithoutThreads;
    var db' := Apply(db, tx.delta);
    assert db'.msgs == db.msgs;
    match tx.op
    case Register(u) => assert db'.workspaces == db.workspaces && db'.channels == db.channels;
    case MakeWorkspace(actor, w) => assert db'.channels == db.channels && db'.workspaces == db.workspaces[w := actor];
    case MakeChannel(w, c) => assert db'.workspaces == db.workspaces && db'.channels == db.channels[c := w];
  }

  lemma EditIsEffect(db: Db, tx: Tx)
    requires EditReady(db, tx)
    ensures Verdict(tx.op, db) == Done
    ensures Apply(db, tx.delta) == Effect(tx.op, db)
  {
    hide WithoutWorkspaces, WithoutChannels, WithoutThreads, OwnedBy, WrittenBy;
  }

  /** The writes of a post of its own thread, and of a reply. */
  lemma PostLeaves(db: Db, id: Id, row: Message)
    ensures var db' := Apply(db, NODELTA.(puts := map[id := row]));
            && db'.users == db.users && db'.workspaces == db.workspaces && db'.channels == db.channels
            && db'.msgs == db.msgs[id := row]
  {
  }

  lemma ReplyLeaves(db: Db, id: Id, row: Message, r: Id, root: Message)
    ensures var db' := Apply(db, NODELTA.(puts := map[id := row, r := root]));
            && db'.users == db.users && db'.workspaces == db.workspaces && db'.channels == db.channels
            && db'.msgs == db.msgs[id := row][r := root]
  {
  }

  /** What a ready post leaves: the new message, and one more on the count of its root. */
  lemma PostedLeaves(db: Db, tx: Tx)
    requires PostReady(db, tx)
    ensures tx.op.root.Some? ==> tx.op.root.value in db.msgs
    ensures Apply(db, tx.delta) == db.(msgs := Posted(db.msgs, tx.op.id, NewMessage(tx.op)))
  {
    hide Apply;
    var id, row := tx.op.id, NewMessage(tx.op);
    match tx.op.root
    case None => PostLeaves(db, id, row);
    case Some(r) => ReplyLeaves(db, id, row, r, db.msgs[r].(count := db.msgs[r].count + 1));
  }

  lemma PostMayCommit(db: Db, tx: Tx)
    requires PostReady(db, tx)
    ensures Verdict(tx.op, db) == Done
  {
    hide WithoutWorkspaces, OwnedBy, WrittenBy, NewMessage;
  }

  lemma PostIsEffect(db: Db, tx: Tx)
    requires PostReady(db, tx)
    ensures Verdict(tx.op, db) == Done
    ensures Apply(db, tx.delta) == Effect(tx.op, db)
  {
    PostMayCommit(db, tx);
    PostedLeaves(db, tx);
    hide Verdict, WithoutWorkspaces, WithoutChannels, WithoutThreads, OwnedBy, WrittenBy, Posted, Apply, NewMessage;
  }

  /** The commit of a ready transaction is the sequential effect of its call on the tables of that moment. */
  lemma CommitIsEffect(db: Db, born: set<Id>, tx: Tx)
    requires TxOk(db, born, tx) && tx.phase == Ready
    ensures Verdict(tx.op, db) == Done
    ensures Apply(db, tx.delta) == Effect(tx.op, db)
  {
    hide Verdict, Effect, DropDone, WrittenOk, PostReady, EditReady, Apply;
    match tx.op
    case DropUser(_) => DropUserIsEffect(db, born, tx);
    case Post(_, _, _, _, _, _) => PostIsEffect(db, tx);
    case Edit(_, _, _) => EditIsEffect(db, tx);
    case DropChannel(_) => DropIsEffect(db, born, tx);
    case DropWorkspace(_, _) => DropIsEffect(db, born, tx);
    case Drop(_) => DropIsEffect(db, born, tx);
    case _ => MakeIsEffect(db, born, tx);
  }

  ghost predicate ParentsCovered(db: Db, db': Db, held: set<Lock<Row>>, ids: set<Id>) {
    && (forall u | u in db.users && u !in db'.users :: ForUpdate(UserRow(u)) in held)
    && (forall u | u in db'.users && u !in db.users :: u in ids)
    && (forall w | w in db.workspaces && w !in db'.workspaces :: ForUpdate(WsRow(w)) in held)
    && (forall w | w in db'.workspaces && w !in db.workspaces ::
          w in ids && ForKeyShare(UserRow(db'.workspaces[w])) in held)
    && (forall w | w in db.workspaces && w in db'.workspaces :: db'.workspaces[w] == db.workspaces[w])
    && (forall c | c in db.channels && c !in db'.channels :: ForUpdate(ChannelRow(c)) in held)
    && (forall c | c in db'.channels && c !in db.channels :: c in ids && ForKeyShare(WsRow(db'.channels[c])) in held)
    && (forall c | c in db.channels && c in db'.channels :: db'.channels[c] == db.channels[c])
  }

  ghost predicate MsgsCovered(db: Db, db': Db, held: set<Lock<Row>>, ids: set<Id>) {
    && (forall m | m in db.msgs && m !in db'.msgs :: ForUpdate(MsgRow(m)) in held)
    && (forall m | m in db'.msgs && m !in db.msgs :: MayInsert(held, ids, m, db'.msgs[m]))
    && (forall m | m in db.msgs && m in db'.msgs :: MayUpdate(held, m, db.msgs[m], db'.msgs[m]))
  }

  /** What a commit changes is covered by the locks of its transaction and its fresh ids. */
  ghost predicate Guarantee(db: Db, db': Db, held: set<Lock<Row>>, ids: set<Id>) {
    ParentsCovered(db, db', held, ids) && MsgsCovered(db, db', held, ids)
  }

  predicate MayInsert(held: set<Lock<Row>>, ids: set<Id>, m: Id, row: Message) {
    && m in ids
    && ForKeyShare(UserRow(row.author)) in held
    && ForKeyShare(ChannelRow(row.channel)) in held
    && (row.root.Some? ==> ForKeyShare(MsgRow(row.root.value)) in held)
  }

  predicate MayUpdate(held: set<Lock<Row>>, m: Id, old_: Message, new_: Message) {
    && new_.root == old_.root && new_.channel == old_.channel && new_.author == old_.author
    && (new_ != old_ ==> ForNoKeyUpdate(MsgRow(m)) in held)
  }

  lemma CommitGuarantee(db: Db, born: set<Id>, tx: Tx)
    requires TxOk(db, born, tx) && tx.phase == Ready && Stored(db) <= born
    ensures Guarantee(db, Apply(db, tx.delta), tx.held, Reserved(tx.op))
  {
    hide Guarantee, Apply, DropRows, DropCounts, DropPending, WrittenOk, PostReady, EditReady;
    match tx.op
    case Post(_, _, _, _, _, _) => PostGuarantee(db, tx);
    case Edit(_, _, _) => EditGuarantee(db, tx);
    case DropUser(_) => DropGuarantee(db, tx);
    case DropChannel(_) => DropGuarantee(db, tx);
    case DropWorkspace(_, _) => DropGuarantee(db, tx);
    case Drop(_) => DropGuarantee(db, tx);
    case _ => MakeGuarantee(db, born, tx);
  }

  lemma SameMsgsCovered(db: Db, db': Db, held: set<Lock<Row>>, ids: set<Id>)
    requires db'.msgs == db.msgs
    ensures MsgsCovered(db, db', held, ids)
  {
  }

  lemma SameParentsCovered(db: Db, db': Db, held: set<Lock<Row>>, ids: set<Id>)
    requires db'.users == db.users && db'.workspaces == db.workspaces && db'.channels == db.channels
    ensures ParentsCovered(db, db', held, ids)
  {
  }

  lemma RegisterGuarantee(db: Db, u: Id, held: set<Lock<Row>>)
    ensures Guarantee(db, Apply(db, NODELTA.(newUsers := {u})), held, {u})
  {
    hide MsgsCovered;
    var db' := Apply(db, NODELTA.(newUsers := {u}));
    assert db'.workspaces == db.workspaces && db'.channels == db.channels;
    SameMsgsCovered(db, db', held, {u});
  }

  lemma MakeWorkspaceGuarantee(db: Db, actor: Id, w: Id, held: set<Lock<Row>>)
    requires w !in db.workspaces && ForKeyShare(UserRow(actor)) in held
    ensures Guarantee(db, Apply(db, NODELTA.(newWs := map[w := actor])), held, {w})
  {
    hide MsgsCovered;
    var db' := Apply(db, NODELTA.(newWs := map[w := actor]));
    assert db'.channels == db.channels;
    SameMsgsCovered(db, db', held, {w});
  }

  lemma MakeChannelGuarantee(db: Db, w: Id, c: Id, held: set<Lock<Row>>)
    requires c !in db.channels && ForKeyShare(WsRow(w)) in held
    ensures Guarantee(db, Apply(db, NODELTA.(newChannels := map[c := w])), held, {c})
  {
    hide MsgsCovered;
    var db' := Apply(db, NODELTA.(newChannels := map[c := w]));
    assert db'.workspaces == db.workspaces;
    SameMsgsCovered(db, db', held, {c});
  }

  lemma MakeGuarantee(db: Db, born: set<Id>, tx: Tx)
    requires tx.op.Register? || tx.op.MakeWorkspace? || tx.op.MakeChannel?
    requires ReadyOk(db, born, tx)
    requires Reserved(tx.op) !! Stored(db)
    ensures Guarantee(db, Apply(db, tx.delta), tx.held, Reserved(tx.op))
  {
    hide Guarantee, Apply, DropDone, WrittenOk, PostReady, EditReady;
    match tx.op
    case Register(u) => RegisterGuarantee(db, u, tx.held);
    case MakeWorkspace(actor, w) =>
      assert w in Reserved(tx.op);
      MakeWorkspaceGuarantee(db, actor, w, tx.held);
    case MakeChannel(w, c) =>
      assert c in Reserved(tx.op);
      MakeChannelGuarantee(db, w, c, tx.held);
  }

  lemma EditGuarantee(db: Db, tx: Tx)
    requires EditReady(db, tx)
    ensures Guarantee(db, Apply(db, tx.delta), tx.held, Reserved(tx.op))
  {
    hide ParentsCovered;
    SameParentsCovered(db, Apply(db, tx.delta), tx.held, Reserved(tx.op));
  }

  lemma DropGuarantee(db: Db, tx: Tx)
    requires DropRows(db, tx)
    ensures Guarantee(db, Apply(db, tx.delta), tx.held, Reserved(tx.op))
  {
    hide Grounded;
  }

  lemma NewMsgCovered(db: Db, db': Db, held: set<Lock<Row>>, ids: set<Id>, id: Id, row: Message)
    requires db'.msgs == db.msgs[id := row] && id !in db.msgs && MayInsert(held, ids, id, row)
    ensures MsgsCovered(db, db', held, ids)
  {
  }

  lemma ReplyCovered(db: Db, db': Db, held: set<Lock<Row>>, ids: set<Id>, id: Id, row: Message, r: Id, root: Message)
    requires r in db.msgs && id !in db.msgs && db'.msgs == db.msgs[id := row][r := root]
    requires MayInsert(held, ids, id, row) && MayUpdate(held, r, db.msgs[r], root)
    ensures MsgsCovered(db, db', held, ids)
  {
  }

  lemma PostMayInsert(db: Db, tx: Tx)
    requires PostReady(db, tx)
    ensures MayInsert(tx.held, Reserved(tx.op), tx.op.id, NewMessage(tx.op))
  {
  }

  lemma PostGuarantee(db: Db, tx: Tx)
    requires PostReady(db, tx)
    ensures Guarantee(db, Apply(db, tx.delta), tx.held, Reserved(tx.op))
  {
    PostMayInsert(db, tx);
    hide ParentsCovered, MsgsCovered, MayInsert, Apply, NewMessage;
    var db', ids, id, row := Apply(db, tx.delta), Reserved(tx.op), tx.op.id, NewMessage(tx.op);
    match tx.op.root
    case None =>
      PostLeaves(db, id, row);
      NewMsgCovered(db, db', tx.held, ids, id, row);
      SameParentsCovered(db, db', tx.held, ids);
    case Some(r) =>
      var root := db.msgs[r].(count := db.msgs[r].count + 1);
      ReplyLeaves(db, id, row, r, root);
      ReplyCovered(db, db', tx.held, ids, id, row, r, root);
      SameParentsCovered(db, db', tx.held, ids);
  }

  // ---------------------------------------------------------------- stability

  lemma MsgLocksStable(db: Db, db': Db, held: set<Lock<Row>>, ids: set<Id>, b: Tx)
    requires Guarantee(db, db', held, ids) && Compatible(held, b.held)
    ensures forall m | SharesMsg(db, b, m) :: SharesMsg(db', b, m)
    ensures forall m | FixesMsg(db, b, m) :: FixesMsg(db', b, m) && db'.msgs[m] == db.msgs[m]
    ensures forall m | HoldsMsg(db, b, m) :: HoldsMsg(db', b, m) && db'.msgs[m] == db.msgs[m]
  {
    hide ParentsCovered;
    forall m | FixesMsg(db, b, m) || HoldsMsg(db, b, m) ensures m in db'.msgs && db'.msgs[m] == db.msgs[m] {
      var l := if FixesMsg(db, b, m) then ForNoKeyUpdate(MsgRow(m)) else ForUpdate(MsgRow(m));
      assert l in b.held;
      assert Clash(ForUpdate(MsgRow(m)), l) && Clash(ForNoKeyUpdate(MsgRow(m)), l);
    }
    forall m | SharesMsg(db, b, m) ensures m in db'.msgs {
      assert Clash(ForUpdate(MsgRow(m)), ForKeyShare(MsgRow(m)));
    }
  }

  lemma ParentLocksStable(db: Db, db': Db, held: set<Lock<Row>>, ids: set<Id>, b: Tx)
    requires Guarantee(db, db', held, ids) && Compatible(held, b.held)
    ensures forall c | SharesChannel(db, b, c) :: SharesChannel(db', b, c)
    ensures forall c | HoldsChannel(db, b, c) :: HoldsChannel(db', b, c) && db'.channels[c] == db.channels[c]
    ensures forall w | SharesWs(db, b, w) :: SharesWs(db', b, w)
    ensures forall w | HoldsWs(db, b, w) :: HoldsWs(db', b, w) && db'.workspaces[w] == db.workspaces[w]
    ensures forall u | SharesUser(db, b, u) :: SharesUser(db', b, u)
    ensures forall u | HoldsUser(db, b, u) :: HoldsUser(db', b, u)
  {
    hide MsgsCovered;
  }

  lemma PostStable(db: Db, db': Db, held: set<Lock<Row>>, ids: set<Id>, b: Tx)
    requires Guarantee(db, db', held, ids) && Compatible(held, b.held)
    requires ids !! Reserved(b.op)
    requires PostOk(db, b)
    ensures PostOk(db', b)
  {
    assert b.op.id in Reserved(b.op);
  }

  /** While b holds the user exclusively, nobody else gives the user a workspace or a message. */
  lemma NothingNewForUser(db: Db, db': Db, held: set<Lock<Row>>, ids: set<Id>, b: Tx, u: Id)
    requires Guarantee(db, db', held, ids) && Compatible(held, b.held) && HoldsUser(db, b, u)
    ensures forall w | w in db'.workspaces && db'.workspaces[w] == u :: w in db.workspaces
    ensures forall m | m in db'.msgs && db'.msgs[m].author == u :: m in db.msgs
  {
    forall w | w in db'.workspaces && db'.workspaces[w] == u ensures w in db.workspaces {
      assert w !in db.workspaces ==> Clash(ForKeyShare(UserRow(u)), ForUpdate(UserRow(u)));
    }
    forall m | m in db'.msgs && db'.msgs[m].author == u ensures m in db.msgs {
      assert m !in db.msgs ==>
          MayInsert(held, ids, m, db'.msgs[m]) && Clash(ForKeyShare(UserRow(u)), ForUpdate(UserRow(u)));
    }
  }

  lemma OwnedSame(db: Db, db': Db, held: set<Lock<Row>>, ids: set<Id>, b: Tx, u: Id)
    requires Guarantee(db, db', held, ids) && Compatible(held, b.held) && HoldsUser(db, b, u)
    ensures OwnedBy(db', u) <= OwnedBy(db, u)
  {
    NothingNewForUser(db, db', held, ids, b, u);
  }

  lemma OwnedStable(db: Db, db': Db, held: set<Lock<Row>>, ids: set<Id>, b: Tx, born: set<Id>, todo: set<Id>)
    requires Guarantee(db, db', held, ids) && Compatible(held, b.held)
    requires ids !! born && Stored(db) <= born
    requires OwnedOk(db, born, b, todo)
    ensures OwnedOk(db', born + ids, b, todo)
  {
    ParentLocksStable(db, db', held, ids, b);
    OwnedSame(db, db', held, ids, b, b.op.user);
  }

  lemma ParentsStable(db: Db, db': Db, held: set<Lock<Row>>, ids: set<Id>, b: Tx)
    requires Guarantee(db, db', held, ids) && Compatible(held, b.held)
    requires ParentsOk(db, b)
    ensures ParentsOk(db', b)
  {
    ParentLocksStable(db, db', held, ids, b);
    if b.op.DropUser? {
      OwnedSame(db, db', held, ids, b, b.op.user);
      forall w | w in OwnedBy(db, b.op.user) ensures w in OwnedBy(db', b.op.user) { assert HoldsWs(db, b, w); }
    }
  }

  lemma ChannelsStable(db: Db, db': Db, held: set<Lock<Row>>, ids: set<Id>, b: Tx)
    requires Guarantee(db, db', held, ids) && Compatible(held, b.held)
    requires ChannelsOk(db, b)
    ensures ChannelsOk(db', b)
  {
    ParentLocksStable(db, db', held, ids, b);
    hide Guarantee;
  }

  lemma MsgsStable(db: Db, db': Db, held: set<Lock<Row>>, ids: set<Id>, b: Tx)
    requires Guarantee(db, db', held, ids) && Compatible(held, b.held)
    requires MsgsOk(db, b)
    ensures MsgsOk(db', b)
  {
    MsgLocksStable(db, db', held, ids, b);
    hide Guarantee;
    assert Within(db'.msgs, b.delta.gone) == Within(db.msgs, b.delta.gone) by {
      assert forall m | m in b.delta.gone :: HoldsMsg(db, b, m);
    }
    assert forall m | m in b.delta.gone :: HoldsMsg(db', b, m);
    assert forall m | m in b.delta.puts :: FixesMsg(db', b, m) && db'.msgs[m] == db.msgs[m];
  }

  lemma CountedSame(msgs: map<Id, Message>, msgs': map<Id, Message>, gone: set<Id>, decs: map<Id, Id>, m: Id)
    requires forall d | d in gone :: d in msgs && d in msgs' && msgs'[d] == msgs[d]
    ensures Counted(msgs', gone, decs, m) == Counted(msgs, gone, decs, m)
  {
  }

  lemma DropCountsStable(db: Db, db': Db, held: set<Lock<Row>>, ids: set<Id>, b: Tx, decs: map<Id, Id>)
    requires Guarantee(db, db', held, ids) && Compatible(held, b.held)
    requires MsgsOk(db, b) && DropCounts(db, b, decs)
    ensures DropCounts(db', b, decs)
  {
    hide Guarantee, Compatible, Grounded, OnlyRecounts, Counted;
    MsgLocksStable(db, db', held, ids, b);
    forall m | m in b.delta.gone ensures m in db.msgs && m in db'.msgs && db'.msgs[m] == db.msgs[m] {
      assert HoldsMsg(db, b, m);
    }
    forall m | m in b.delta.puts
      ensures m in db.msgs && m in db'.msgs && db'.msgs[m] == db.msgs[m]
      ensures b.delta.puts[m].count == db'.msgs[m].count - |Counted(db'.msgs, b.delta.gone, decs, m)|
    {
      assert FixesMsg(db, b, m);
      CountedSame(db.msgs, db'.msgs, b.delta.gone, decs, m);
    }
  }

  /** A message that is due was there before: nobody else posts into a locked channel or under a locked root. */
  lemma DueWasThere(db: Db, db': Db, held: set<Lock<Row>>, ids: set<Id>, b: Tx, pend: set<Row>, m: Id)
    requires Guarantee(db, db', held, ids) && Compatible(held, b.held)
    requires ChannelsOk(db, b) && MsgsOk(db, b)
    requires m in db'.msgs && Due(b.delta, pend, db'.msgs[m])
    ensures m in db.msgs
  {
    var row := db'.msgs[m];
    if m !in db.msgs {
      assert MayInsert(held, ids, m, row);
      if row.channel in b.delta.goneChannels {
        assert HoldsChannel(db, b, row.channel);
        assert Clash(ForKeyShare(ChannelRow(row.channel)), ForUpdate(ChannelRow(row.channel)));
      } else {
        assert HoldsMsg(db, b, row.root.value);
        assert Clash(ForKeyShare(MsgRow(row.root.value)), ForUpdate(MsgRow(row.root.value)));
      }
      assert false;
    }
  }

  lemma ChannelWasThere(db: Db, db': Db, held: set<Lock<Row>>, ids: set<Id>, b: Tx, c: Id)
    requires Guarantee(db, db', held, ids) && Compatible(held, b.held)
    requires ParentsOk(db, b) && c in db'.channels && db'.channels[c] in b.delta.goneWs
    ensures c in db.channels
  {
    var w := db'.channels[c];
    assert HoldsWs(db, b, w);
    assert c !in db.channels ==> Clash(ForKeyShare(WsRow(w)), ForUpdate(WsRow(w)));
  }

  lemma DropPendingStable(db: Db, db': Db, held: set<Lock<Row>>, ids: set<Id>, b: Tx, born: set<Id>,
                          pend: set<Row>, rows: set<Row>)
    requires Guarantee(db, db', held, ids) && Compatible(held, b.held)
    requires ids !! born && Stored(db) <= born
    requires ParentsOk(db, b) && ChannelsOk(db, b) && MsgsOk(db, b) && DropPending(db, born, b, pend, rows)
    ensures DropPending(db', born + ids, b, pend, rows)
  {
    hide Grounded, DropRows, MsgsOk, ParentsOk, ChannelsOk;
    forall m | m in db'.msgs && Due(b.delta, pend, db'.msgs[m]) ensures m in db.msgs {
      DueWasThere(db, db', held, ids, b, pend, m);
    }
    forall c | c in db'.channels && db'.channels[c] in b.delta.goneWs ensures c in db.channels {
      ChannelWasThere(db, db', held, ids, b, c);
    }
    assert forall r | r in rows :: MayVisit(db', born + ids, b.delta, r);
  }

  lemma DropStable(db: Db, db': Db, held: set<Lock<Row>>, ids: set<Id>, b: Tx, born: set<Id>,
                   pend: set<Row>, rows: set<Row>, decs: map<Id, Id>)
    requires Guarantee(db, db', held, ids) && Compatible(held, b.held)
    requires ids !! born && Stored(db) <= born
    requires DropOk(db, born, b, pend, rows, decs)
    ensures DropOk(db', born + ids, b, pend, rows, decs)
  {
    hide Guarantee, Compatible, ParentsOk, ChannelsOk, MsgsOk, DropCounts, DropPending, Stored;
    ParentsStable(db, db', held, ids, b);
    ChannelsStable(db, db', held, ids, b);
    MsgsStable(db, db', held, ids, b);
    DropCountsStable(db, db', held, ids, b, decs);
    DropPendingStable(db, db', held, ids, b, born, pend, rows);
  }

  lemma WrittenStable(db: Db, db': Db, held: set<Lock<Row>>, ids: set<Id>, b: Tx, born: set<Id>, todo: set<Id>)
    requires Guarantee(db, db', held, ids) && Compatible(held, b.held)
    requires ids !! born
    requires WrittenOk(db, born, b, todo) && HoldsUser(db, b, b.op.user)
    ensures WrittenOk(db', born + ids, b, todo)
  {
    NothingNewForUser(db, db', held, ids, b, b.op.user);
  }

  lemma DropUserStable(db: Db, db': Db, held: set<Lock<Row>>, ids: set<Id>, b: Tx, born: set<Id>, todo: set<Id>)
    requires Guarantee(db, db', held, ids) && Compatible(held, b.held)
    requires ids !! born && Stored(db) <= born
    requires DropDone(db, born, b) && WrittenOk(db, born, b, todo)
    ensures DropDone(db', born + ids, b) && WrittenOk(db', born + ids, b, todo)
  {
    hide Guarantee, Compatible, ChannelsOk, MsgsOk, DropCounts, DropPending, Stored;
    DropStable(db, db', held, ids, b, born, {}, {}, map[]);
    WrittenStable(db, db', held, ids, b, born, todo);
  }

  lemma PostHasNoRow(db: Db, born: set<Id>, tx: Tx)
    requires TxOk(db, born, tx) && tx.op.Post?
    ensures PostOk(db, tx) && !tx.phase.Cascade?
  {
    hide Grounded, DropCounts, DropPending, ChannelsOk, MsgsOk;
  }

  lemma PostTxStable(db: Db, db': Db, held: set<Lock<Row>>, ids: set<Id>, b: Tx, born: set<Id>)
    requires Guarantee(db, db', held, ids) && Compatible(held, b.held)
    requires ids !! born && ids !! Reserved(b.op)
    requires TxOk(db, born, b) && b.op.Post?
    ensures TxOk(db', born + ids, b)
  {
    PostHasNoRow(db, born, b);
    hide DropOk, OwnedOk, WrittenOk, DropDone;
    PostStable(db, db', held, ids, b);
    ParentLocksStable(db, db', held, ids, b);
    MsgLocksStable(db, db', held, ids, b);
    hide Guarantee, Compatible;
  }

  lemma ReadyStable(db: Db, db': Db, held: set<Lock<Row>>, ids: set<Id>, b: Tx, born: set<Id>)
    requires Guarantee(db, db', held, ids) && Compatible(held, b.held)
    requires ids !! born && Stored(db) <= born
    requires ReadyOk(db, born, b) && !b.op.Post?
    ensures ReadyOk(db', born + ids, b)
  {
    hide Guarantee, Compatible, DropOk, WrittenOk, Stored;
    ParentLocksStable(db, db', held, ids, b);
    MsgLocksStable(db, db', held, ids, b);
    match b.op
    case Edit(id, _, _) => assert FixesMsg(db, b, id);
    case DropUser(_) => DropUserStable(db, db', held, ids, b, born, {});
    case DropChannel(_) => DropStable(db, db', held, ids, b, born, {}, {}, map[]);
    case DropWorkspace(_, _) => DropStable(db, db', held, ids, b, born, {}, {}, map[]);
    case Drop(_) => DropStable(db, db', held, ids, b, born, {}, {}, map[]);
    case _ =>
  }

  /** What transaction b counts on survives the commit of any transaction whose locks are compatible with b's. */
  lemma Stable(db: Db, db': Db, held: set<Lock<Row>>, ids: set<Id>, b: Tx, born: set<Id>)
    requires Guarantee(db, db', held, ids) && Compatible(held, b.held)
    requires ids !! born && Stored(db) <= born && ids !! Reserved(b.op)
    requires TxOk(db, born, b)
    ensures TxOk(db', born + ids, b)
  {
    hide Guarantee, Compatible, DropOk, OwnedOk, WrittenOk, ReadyOk, Stored;
    if b.op.Post? {
      PostTxStable(db, db', held, ids, b, born);
    } else {
      ParentLocksStable(db, db', held, ids, b);
      match b.phase
      case LockOwned(todo) => OwnedStable(db, db', held, ids, b, born, todo);
      case Cascade(pend, rows, decs) => DropStable(db, db', held, ids, b, born, pend, rows, decs);
      case DeleteUserRow => DropStable(db, db', held, ids, b, born, {}, {}, map[]);
      case FindWritten => DropStable(db, db', held, ids, b, born, {}, {}, map[]);
      case Restrict(todo) => DropUserStable(db, db', held, ids, b, born, todo);
      case Ready => ReadyStable(db, db', held, ids, b, born);
      case _ =>
    }
  }
}
