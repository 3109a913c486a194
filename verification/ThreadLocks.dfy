/** Which rows each open transaction of the thread model has locked, and in which order a cascade locks them. */
module ThreadLocks {
  import opened Base
  import opened RowLocks
  import opened Reachability
  import opened ThreadModel
  import opened ThreadInvariant
  import opened ThreadRuns
  import opened ThreadTheorems

  // ---------------------------------------------------------------- which locks a transaction holds

  /** Phases in which no lock has been obtained yet. */
  predicate Early(p: Phase) { p.Begun? || p.OwnerFk? || p.WorkspaceFk? || p.AuthorFk? }

  predicate LosesReply(db: Db, tx: Tx, m: Id) {
    exists d :: d in tx.delta.gone && d in db.msgs && db.msgs[d].root == Some(m)
  }

  predicate MayHold(db: Db, tx: Tx, l: Lock<Row>) {
    match l.row
    case UserRow(u) => if tx.op.DropUser? then u == tx.op.user else l.mode == KeyShare
    case WsRow(w) => if tx.op.MakeChannel? then l.mode == KeyShare else w in tx.delta.goneWs
    case ChannelRow(c) =>
      if tx.op.Post? then l.mode == KeyShare && c == tx.op.channel && !tx.phase.ChannelFk?
      else c in tx.delta.goneChannels
    case MsgRow(m) =>
      match tx.op
      case Post(_, _, _, root, _, _) => root == Some(m) && (tx.phase.Ready? || (tx.phase.Bump? && l.mode == KeyShare))
      case Edit(_, _, _) => tx.phase.Ready?
      case _ => m in tx.delta.gone || LosesReply(db, tx, m)
  }

  ghost predicate LocksOk(db: Db, tx: Tx) {
    && (Early(tx.phase) ==> tx.held == {})
    && forall l | l in tx.held :: MayHold(db, tx, l)
  }

  // ---------------------------------------------------------------- in which order a cascade takes rows

  function Started(tx: Tx): set<Id> {
    set c | c in tx.delta.goneChannels && !(tx.phase.Cascade? && ChannelRow(c) in tx.phase.pend)
  }

  /** The transaction as if it had deleted those channels only whose cascade has been started. */
  function OnlyStarted(tx: Tx): Tx {
    tx.(delta := tx.delta.(goneChannels := Started(tx)))
  }

  /** All channels of a workspace are deleted before the cascade of any of them starts. */
  ghost predicate ChannelsFirst(db: Db, tx: Tx, pend: set<Row>, rows: set<Row>) {
    && (forall c | c in db.channels && (c in tx.delta.goneChannels || ChannelRow(c) in rows) ::
          WsRow(db.channels[c]) !in pend)
    && (forall c, x | c in Started(tx) && c in db.channels && x in db.channels && db.channels[x] == db.channels[c] ::
          x in tx.delta.goneChannels)
  }

  /** Every message a cascade has taken or found leads back to a channel whose cascade has started. */
  ghost predicate RowsRooted(db: Db, tx: Tx, rows: set<Row>) {
    && Grounded(db, OnlyStarted(tx))
    && forall m | MsgRow(m) in rows && m in db.msgs :: InScope(OnlyStarted(tx).delta, db.msgs[m])
  }

  ghost predicate OrderOk(db: Db, tx: Tx) {
    tx.phase.Cascade? ==>
      && RowsRooted(db, tx, tx.phase.rows)
      && (tx.op.DropWorkspace? || tx.op.DropUser? ==> ChannelsFirst(db, tx, tx.phase.pend, tx.phase.rows))
  }

  ghost predicate LocksKnown(s: State) {
    forall t | t in s.txs :: LocksOk(s.db, s.txs[t]) && OrderOk(s.db, s.txs[t])
  }

  // ---------------------------------------------------------------- what TxOk says about deletions

  /** The transaction has started to delete. */
  predicate Deleting(tx: Tx) {
    || tx.phase.Cascade? || tx.phase.DeleteUserRow? || tx.phase.FindWritten? || tx.phase.Restrict?
    || (tx.phase.Ready? && (tx.op.Drop? || tx.op.DropChannel? || tx.op.DropWorkspace? || tx.op.DropUser?))
  }

  function Pend(tx: Tx): set<Row> { if tx.phase.Cascade? then tx.phase.pend else {} }

  function Rows(tx: Tx): set<Row> { if tx.phase.Cascade? then tx.phase.rows else {} }

  function Decs(tx: Tx): map<Id, Id> { if tx.phase.Cascade? then tx.phase.decs else map[] }

  lemma DeletingIsOk(db: Db, born: set<Id>, tx: Tx)
    requires TxOk(db, born, tx) && Deleting(tx)
    ensures DropOk(db, born, tx, Pend(tx), Rows(tx), Decs(tx))
  {
    hide DropRows, DropCounts, DropPending, WrittenOk;
  }

  lemma OnlyDeletingDeletes(db: Db, born: set<Id>, tx: Tx)
    requires TxOk(db, born, tx) && !Deleting(tx)
    ensures tx.delta.gone == {} && tx.delta.goneChannels == {}
    ensures tx.delta.goneWs != {} ==> tx.phase.LockOwned? && tx.op.DropUser?
  {
    hide DropRows, DropCounts, DropPending, WrittenOk;
  }

  /** The locks behind the deletes of a transaction. */
  lemma DeletesAreHeld(db: Db, born: set<Id>, tx: Tx)
    requires TxOk(db, born, tx)
    ensures forall m | m in tx.delta.gone :: HoldsMsg(db, tx, m)
    ensures forall c | c in tx.delta.goneChannels ::
              HoldsChannel(db, tx, c) && (tx.op.DropChannel? || db.channels[c] in tx.delta.goneWs)
    ensures forall w | w in tx.delta.goneWs :: HoldsWs(db, tx, w) && (tx.op.DropWorkspace? || tx.op.DropUser?)
    ensures tx.op.DropUser? ==> forall w | w in tx.delta.goneWs :: db.workspaces[w] == tx.op.user
  {
    if Deleting(tx) {
      DeletingIsOk(db, born, tx);
      RowsAreHeld(db, tx);
    } else {
      OnlyDeletingDeletes(db, born, tx);
      hide DropOk, DropDone, ReadyOk;
    }
  }

  lemma RowsAreHeld(db: Db, tx: Tx)
    requires DropRows(db, tx)
    ensures forall m | m in tx.delta.gone :: HoldsMsg(db, tx, m)
    ensures forall c | c in tx.delta.goneChannels ::
              HoldsChannel(db, tx, c) && (tx.op.DropChannel? || db.channels[c] in tx.delta.goneWs)
    ensures forall w | w in tx.delta.goneWs :: HoldsWs(db, tx, w) && (tx.op.DropWorkspace? || tx.op.DropUser?)
    ensures tx.op.DropUser? ==> forall w | w in tx.delta.goneWs :: db.workspaces[w] == tx.op.user
  {
    hide Grounded;
  }

  // ---------------------------------------------------------------- locks, statement by statement

  lemma CascadeGrows(db: Db, tx: Tx, c: Choice)
    requires Advance(db, tx, c).Continue? && tx.phase.Cascade?
    ensures var d, d' := tx.delta, Advance(db, tx, c).tx.delta;
            d.goneWs == d'.goneWs && d.goneChannels <= d'.goneChannels && d.gone <= d'.gone
    ensures !Early(Advance(db, tx, c).tx.phase)
  {
    hide Apply, Referring, Visible, Pending;
  }

  lemma DeletesGrow(db: Db, tx: Tx, c: Choice)
    requires Advance(db, tx, c).Continue? && !Early(tx.phase)
    ensures var d, d' := tx.delta, Advance(db, tx, c).tx.delta;
            d.goneWs <= d'.goneWs && d.goneChannels <= d'.goneChannels && d.gone <= d'.gone
    ensures !Early(Advance(db, tx, c).tx.phase)
  {
    hide Apply, OwnedBy, WrittenBy, Subtract, VisitRow, StartCascade;
    if tx.phase.Cascade? { CascadeGrows(db, tx, c); }
  }

  /** Which calls get into which phase. */
  predicate PhaseFits(tx: Tx) {
    match tx.phase
    case Begun => true
    case OwnerFk => tx.op.MakeWorkspace?
    case WorkspaceFk => tx.op.MakeChannel?
    case AuthorFk => tx.op.Post?
    case ChannelFk => tx.op.Post?
    case RootFk => tx.op.Post? && tx.op.root.Some?
    case Bump => tx.op.Post? && tx.op.root.Some?
    case Cascade(_, _, _) => tx.op.Drop? || tx.op.DropChannel? || tx.op.DropWorkspace? || tx.op.DropUser?
    case Ready => true
    case _ => tx.op.DropUser?
  }

  lemma PhaseOfOp(db: Db, born: set<Id>, tx: Tx)
    requires TxOk(db, born, tx)
    ensures PhaseFits(tx)
  {
    if tx.phase.Cascade? { DropsOnly(db, tx); }
    hide DropOk, DropDone, ReadyOk;
  }

  lemma DropsOnly(db: Db, tx: Tx)
    requires ParentsOk(db, tx)
    ensures tx.op.Drop? || tx.op.DropChannel? || tx.op.DropWorkspace? || tx.op.DropUser?
  {
  }

  lemma LosesReplyGrows(db: Db, tx: Tx, tx': Tx, m: Id)
    requires LosesReply(db, tx, m) && tx.delta.gone <= tx'.delta.gone
    ensures LosesReply(db, tx', m)
  {
    var d :| d in tx.delta.gone && d in db.msgs && db.msgs[d].root == Some(m);
    assert d in tx'.delta.gone;
  }

  lemma PostGoesOn(db: Db, tx: Tx, c: Choice)
    requires Advance(db, tx, c).Continue? && tx.op.Post? && PhaseFits(tx) && !Early(tx.phase)
    ensures var p := Advance(db, tx, c).tx.phase;
            if tx.phase.ChannelFk? then p.RootFk? || p.Ready? else p.Bump? || p.Ready?
    ensures tx.phase.Bump? ==> Advance(db, tx, c).tx.phase.Ready?
  {
    hide Apply;
  }

  lemma HeldStaysNamed(db: Db, tx: Tx, c: Choice, l: Lock<Row>)
    requires PhaseFits(tx) && Advance(db, tx, c).Continue? && !Early(tx.phase) && MayHold(db, tx, l)
    ensures MayHold(db, Advance(db, tx, c).tx, l)
  {
    HeldGrows(db, tx, c);
    DeletesGrow(db, tx, c);
    if tx.op.Post? { PostGoesOn(db, tx, c); }
    EditIsReady(db, tx, c);
    hide LosesReply, Advance;
    if l.row.MsgRow? && LosesReply(db, tx, l.row.id) { LosesReplyGrows(db, tx, Advance(db, tx, c).tx, l.row.id); }
  }

  lemma EditIsReady(db: Db, tx: Tx, c: Choice)
    requires PhaseFits(tx) && Advance(db, tx, c).Continue? && !Early(tx.phase)
    ensures !tx.op.Edit?
  {
    hide Apply;
  }

  lemma FirstLockIsNamed(db: Db, tx: Tx, c: Choice)
    requires tx.phase.Begun? && Advance(db, tx, c).Continue? && Request(db, tx, c).Some?
    ensures MayHold(db, Advance(db, tx, c).tx, Request(db, tx, c).value)
  {
    hide LosesReply, Apply, OwnedBy, WrittenBy, Referring;
  }

  lemma ChildLockIsNamed(db: Db, tx: Tx, r: Row)
    requires tx.phase.Cascade? && PhaseFits(tx) && (r.ChannelRow? || r.MsgRow?) && Visible(Apply(db, tx.delta), r)
    ensures MayHold(db, VisitRow(Apply(db, tx.delta), tx, r), ForUpdate(r))
  {
    hide LosesReply, Apply, Pending;
  }

  lemma CascadeLockIsNamed(db: Db, born: set<Id>, tx: Tx, c: Choice)
    requires TxOk(db, born, tx) && tx.phase.Cascade? && Advance(db, tx, c).Continue? && Request(db, tx, c).Some?
    ensures MayHold(db, Advance(db, tx, c).tx, Request(db, tx, c).value)
  {
    DecrementedLosesReply(db, born, tx, c);
    PhaseOfOp(db, born, tx);
    assert forall r | r in tx.phase.rows :: MayVisit(db, born, tx.delta, r);
    hide TxOk, LosesReply, Apply, InScope, Visible, VisitRow, Subtract, StartCascade;
    if c.Child? {
      ChildLockIsNamed(db, tx, c.row);
    } else {
      SubtractKeepsOp(db, tx, c.id);
    }
  }

  lemma SubtractKeepsOp(db: Db, tx: Tx, d: Id)
    requires tx.phase.Cascade? && d in tx.phase.decs && Subtract(Apply(db, tx.delta), tx, d).Continue?
    ensures Subtract(Apply(db, tx.delta), tx, d).tx.op == tx.op
  {
    hide Apply;
  }

  lemma NewLockIsNamed(db: Db, born: set<Id>, tx: Tx, c: Choice)
    requires TxOk(db, born, tx) && Advance(db, tx, c).Continue? && Request(db, tx, c).Some?
    requires Request(db, tx, c).value in Advance(db, tx, c).tx.held
    requires Request(db, tx, c).value !in tx.held
    ensures MayHold(db, Advance(db, tx, c).tx, Request(db, tx, c).value)
  {
    PhaseOfOp(db, born, tx);
    if tx.phase.Begun? {
      FirstLockIsNamed(db, tx, c);
    } else if tx.phase.Cascade? {
      CascadeLockIsNamed(db, born, tx, c);
    } else {
      LaterLockIsNamed(db, tx, c);
    }
    hide TxOk, Advance, Request, MayHold;
  }

  lemma LaterLockIsNamed(db: Db, tx: Tx, c: Choice)
    requires PhaseFits(tx) && !tx.phase.Begun? && !tx.phase.Cascade?
    requires Advance(db, tx, c).Continue? && Request(db, tx, c).Some?
    requires Request(db, tx, c).value in Advance(db, tx, c).tx.held
    requires Request(db, tx, c).value !in tx.held
    ensures MayHold(db, Advance(db, tx, c).tx, Request(db, tx, c).value)
  {
    hide LosesReply, Apply, OwnedBy, WrittenBy;
  }

  lemma DecrementedLosesReply(db: Db, born: set<Id>, tx: Tx, c: Choice)
    requires TxOk(db, born, tx) && tx.phase.Cascade? && Advance(db, tx, c).Continue?
    ensures !tx.op.Post? && !tx.op.Edit?
    ensures c.Decrement? ==> LosesReply(db, Advance(db, tx, c).tx, tx.phase.decs[c.id])
  {
    hide DropPending, ChannelsOk, MsgsOk, Apply;
    if c.Decrement? { assert c.id in tx.delta.gone && db.msgs[c.id].root == Some(tx.phase.decs[c.id]); }
  }

  lemma AdvanceKeepsLocks(db: Db, born: set<Id>, tx: Tx, c: Choice)
    requires TxOk(db, born, tx) && LocksOk(db, tx) && Advance(db, tx, c).Continue?
    ensures LocksOk(db, Advance(db, tx, c).tx)
  {
    hide TxOk, Advance, Request, MayHold;
    HeldGrows(db, tx, c);
    var tx' := Advance(db, tx, c).tx;
    EarlyStaysFree(db, tx, c);
    PhaseOfOp(db, born, tx);
    forall l | l in tx'.held ensures MayHold(db, tx', l) {
      if l in tx.held {
        HeldStaysNamed(db, tx, c, l);
      } else {
        NewLockIsNamed(db, born, tx, c);
      }
    }
  }

  lemma EarlyStaysFree(db: Db, tx: Tx, c: Choice)
    requires LocksOk(db, tx) && Advance(db, tx, c).Continue?
    ensures Early(Advance(db, tx, c).tx.phase) ==> Advance(db, tx, c).tx.held == {}
  {
    hide MayHold, Apply, Referring, Visible, OwnedBy, WrittenBy, Pending;
  }

  // ---------------------------------------------------------------- order, statement by statement

  /** Passing a row over and subtracting from a count leave the order as it is. */
  lemma SameOrder(db: Db, tx: Tx, tx': Tx)
    requires OrderOk(db, tx) && tx.phase.Cascade? && tx'.phase.Cascade? && tx'.op == tx.op
    requires tx'.delta.gone == tx.delta.gone && tx'.delta.goneChannels == tx.delta.goneChannels
    requires tx'.phase.pend == tx.phase.pend && tx'.phase.rows <= tx.phase.rows
    ensures OrderOk(db, tx')
  {
    hide Reach;
    assert Started(tx') == Started(tx);
    assert Grounded(db, OnlyStarted(tx)) ==> Grounded(db, OnlyStarted(tx'));
  }

  lemma ParentKeepsRooted(db: Db, tx: Tx, p: Row)
    requires tx.phase.Cascade? && Grounded(db, OnlyStarted(tx)) && OnlyRecounts(db, tx.delta)
    requires p in tx.phase.pend && IsDeleted(tx.delta, p)
    ensures var tx' := StartCascade(Apply(db, tx.delta), tx, p); RowsRooted(db, tx', tx'.phase.rows)
  {
    hide Grounded, OnlyRecounts, Apply;
    var tx' := StartCascade(Apply(db, tx.delta), tx, p);
    MoreChannelsKeepGrounded(db, OnlyStarted(tx), OnlyStarted(tx'));
    forall m | MsgRow(m) in tx'.phase.rows && m in db.msgs ensures InScope(OnlyStarted(tx').delta, db.msgs[m]) {
      VisibleMsg(db, tx, m);
    }
  }

  lemma ParentKeepsChannelsFirst(db: Db, born: set<Id>, tx: Tx, p: Row)
    requires tx.phase.Cascade? && tx.phase.rows == {} && p in tx.phase.pend && tx.delta.newChannels == map[]
    requires ChannelsFirst(db, tx, tx.phase.pend, {}) && DropPending(db, born, tx, tx.phase.pend, {})
    requires ChannelsOk(db, tx) && !tx.op.DropChannel?
    ensures var tx' := StartCascade(Apply(db, tx.delta), tx, p); ChannelsFirst(db, tx', tx'.phase.pend, tx'.phase.rows)
  {
    hide Apply;
    var tx' := StartCascade(Apply(db, tx.delta), tx, p);
    forall c | c in db.channels && ChannelRow(c) in tx'.phase.rows ensures WsRow(db.channels[c]) !in tx'.phase.pend {
      VisibleChannel(db, tx, c);
    }
    forall c, x | c in Started(tx') && c in db.channels && x in db.channels && db.channels[x] == db.channels[c]
      ensures x in tx'.delta.goneChannels
    {
      assert c !in Started(tx) ==> db.channels[c] in tx.delta.goneWs && WsRow(db.channels[c]) !in tx.phase.pend;
    }
  }

  lemma ParentKeepsOrder(db: Db, born: set<Id>, tx: Tx, p: Row)
    requires Running(db, born, tx) && OrderOk(db, tx) && tx.phase.rows == {} && p in tx.phase.pend
    ensures OrderOk(db, StartCascade(Apply(db, tx.delta), tx, p))
  {
    NoNewChannels(db, tx);
    assert IsDeleted(tx.delta, p);
    hide Apply, OnlyRecounts, Grounded, ParentsOk, ChannelsOk, MsgsOk, DropCounts, DropPending;
    hide ChannelsFirst, RowsRooted;
    RootedPart(db, tx);
    ParentKeepsRooted(db, tx, p);
    if tx.op.DropWorkspace? || tx.op.DropUser? { ParentKeepsChannelsFirst(db, born, tx, p); }
  }

  lemma RootedPart(db: Db, tx: Tx)
    requires OrderOk(db, tx) && tx.phase.Cascade?
    ensures Grounded(db, OnlyStarted(tx))
    ensures forall m | MsgRow(m) in tx.phase.rows && m in db.msgs :: InScope(OnlyStarted(tx).delta, db.msgs[m])
  {
    hide Grounded, InScope, ChannelsFirst;
  }

  lemma VisitMsgKeepsOrder(db: Db, tx: Tx, m: Id)
    requires OrderOk(db, tx) && tx.phase.Cascade? && MsgRow(m) in tx.phase.rows
    requires OnlyRecounts(db, tx.delta) && m in Apply(db, tx.delta).msgs
    ensures OrderOk(db, VisitRow(Apply(db, tx.delta), tx, MsgRow(m)))
  {
    VisibleMsg(db, tx, m);
    RootedPart(db, tx);
    hide Grounded, OnlyRecounts, Apply, Pending, RowsRooted, ChannelsFirst;
    var tx' := VisitRow(Apply(db, tx.delta), tx, MsgRow(m));
    assert Started(tx') == Started(tx);
    VisitKeepsGrounded(db, OnlyStarted(tx), OnlyStarted(tx'), m);
    MoreGoneKeepsRooted(db, tx, tx');
    MorePendKeepsChannelsFirst(db, tx, tx', MsgRow(m));
  }

  lemma MoreGoneKeepsRooted(db: Db, tx: Tx, tx': Tx)
    requires tx.phase.Cascade? && tx'.phase.Cascade? && tx'.phase.rows <= tx.phase.rows
    requires Started(tx') == Started(tx) && tx.delta.gone <= tx'.delta.gone
    requires Grounded(db, OnlyStarted(tx'))
    requires forall m | MsgRow(m) in tx.phase.rows && m in db.msgs :: InScope(OnlyStarted(tx).delta, db.msgs[m])
    ensures RowsRooted(db, tx', tx'.phase.rows)
  {
    hide Grounded, Started;
  }

  lemma MorePendKeepsChannelsFirst(db: Db, tx: Tx, tx': Tx, r: Row)
    requires tx.phase.Cascade? && tx'.phase.Cascade? && tx'.phase.rows <= tx.phase.rows && !r.WsRow?
    requires Started(tx') == Started(tx) && tx.delta.goneChannels <= tx'.delta.goneChannels
    requires tx'.phase.pend == tx.phase.pend + {r}
    requires forall c | c in tx'.delta.goneChannels && c !in tx.delta.goneChannels :: ChannelRow(c) in tx.phase.rows
    ensures ChannelsFirst(db, tx, tx.phase.pend, tx.phase.rows) ==>
              ChannelsFirst(db, tx', tx'.phase.pend, tx'.phase.rows)
  {
    hide Started;
  }

  lemma VisitChannelKeepsOrder(db: Db, tx: Tx, c: Id)
    requires OrderOk(db, tx) && tx.phase.Cascade? && ChannelRow(c) in tx.phase.rows
    requires tx.delta.newChannels == map[] && c in Apply(db, tx.delta).channels
    ensures OrderOk(db, VisitRow(Apply(db, tx.delta), tx, ChannelRow(c)))
  {
    VisibleChannel(db, tx, c);
    RootedPart(db, tx);
    hide Grounded, Apply, RowsRooted, ChannelsFirst;
    var tx' := VisitRow(Apply(db, tx.delta), tx, ChannelRow(c));
    assert Started(tx') == Started(tx);
    MoreChannelsKeepGrounded(db, OnlyStarted(tx), OnlyStarted(tx'));
    MoreGoneKeepsRooted(db, tx, tx');
    MorePendKeepsChannelsFirst(db, tx, tx', ChannelRow(c));
  }

  lemma ChildKeepsOrder(db: Db, born: set<Id>, tx: Tx, r: Row)
    requires Running(db, born, tx) && OrderOk(db, tx) && r in tx.phase.rows
    ensures OrderOk(db, VisitRow(Apply(db, tx.delta), tx, r))
  {
    NoNewChannels(db, tx);
    assert MayVisit(db, born, tx.delta, r);
    hide Apply, OnlyRecounts, DropRows, DropCounts, DropPending, OrderOk;
    if Visible(Apply(db, tx.delta), r) {
      match r
      case ChannelRow(c) => VisitChannelKeepsOrder(db, tx, c);
      case MsgRow(m) => VisitMsgKeepsOrder(db, tx, m);
    } else {
      SameOrder(db, tx, VisitRow(Apply(db, tx.delta), tx, r));
    }
  }

  lemma CascadeKeepsOrder(db: Db, born: set<Id>, tx: Tx, c: Choice)
    requires tx.phase.Cascade? && Running(db, born, tx) && OrderOk(db, tx) && Advance(db, tx, c).Continue?
    ensures OrderOk(db, Advance(db, tx, c).tx)
  {
    hide Apply, Running, OrderOk;
    match c
    case Only => NoCascadeNoOrder(db, Advance(db, tx, c).tx);
    case Parent(p) => ParentKeepsOrder(db, born, tx, p);
    case Child(r) => ChildKeepsOrder(db, born, tx, r);
    case Decrement(d) => SameOrder(db, tx, Advance(db, tx, c).tx);
    case _ =>
  }

  lemma NoCascadeNoOrder(db: Db, tx: Tx)
    requires !tx.phase.Cascade?
    ensures OrderOk(db, tx)
  {
  }

  /** A cascade that has deleted no channel and no message but the one the call names. */
  lemma FirstOrder(db: Db, tx: Tx)
    requires tx.phase.Cascade? && tx.phase.rows == {}
    requires tx.op.DropChannel? || tx.delta.goneChannels == {}
    requires tx.delta.gone == {} || (tx.op.Drop? && tx.op.id in db.msgs && tx.delta.gone == {tx.op.id})
    requires tx.op.DropChannel? ==> tx.delta.gone == {}
    ensures OrderOk(db, tx)
  {
    var here := Within(db.msgs, tx.delta.gone);
    assert tx.delta.gone <= Seeds(here, tx.op, Started(tx)) * tx.delta.gone;
  }

  lemma CascadeBegins(db: Db, born: set<Id>, tx: Tx, c: Choice)
    requires TxOk(db, born, tx) && !tx.phase.Cascade? && Advance(db, tx, c).Continue?
    requires Advance(db, tx, c).tx.phase.Cascade?
    ensures OrderOk(db, Advance(db, tx, c).tx)
  {
    hide OrderOk, DropOk, DropDone, ReadyOk, Apply, OwnedBy, WrittenBy;
    PhaseOfOp(db, born, tx);
    FirstOrder(db, Advance(db, tx, c).tx);
  }

  lemma AdvanceKeepsOrder(db: Db, born: set<Id>, tx: Tx, c: Choice)
    requires TxOk(db, born, tx) && OrderOk(db, tx) && Advance(db, tx, c).Continue?
    ensures OrderOk(db, Advance(db, tx, c).tx)
  {
    hide Advance, OrderOk;
    if tx.phase.Cascade? {
      assert Running(db, born, tx);
      CascadeKeepsOrder(db, born, tx, c);
    } else if Advance(db, tx, c).tx.phase.Cascade? {
      CascadeBegins(db, born, tx, c);
    } else {
      NoCascadeNoOrder(db, Advance(db, tx, c).tx);
    }
  }

  // ---------------------------------------------------------------- commits of others

  lemma DeletedRowsStay(db: Db, db': Db, held: set<Lock<Row>>, ids: set<Id>, b: Tx, born: set<Id>)
    requires Guarantee(db, db', held, ids) && Compatible(held, b.held) && TxOk(db, born, b)
    ensures forall m | m in b.delta.gone :: m in db.msgs && m in db'.msgs && db'.msgs[m] == db.msgs[m]
    ensures forall c | c in b.delta.goneChannels ::
              c in db.channels && c in db'.channels && db'.channels[c] == db.channels[c]
              && (b.op.DropChannel? || db.channels[c] in b.delta.goneWs)
  {
    DeletesAreHeld(db, born, b);
    MsgLocksStable(db, db', held, ids, b);
    ParentLocksStable(db, db', held, ids, b);
    hide TxOk, Guarantee, Compatible;
  }

  lemma LocksStable(db: Db, db': Db, held: set<Lock<Row>>, ids: set<Id>, b: Tx, born: set<Id>)
    requires Guarantee(db, db', held, ids) && Compatible(held, b.held) && TxOk(db, born, b)
    requires LocksOk(db, b)
    ensures LocksOk(db', b)
  {
    DeletedRowsStay(db, db', held, ids, b, born);
    hide TxOk, Guarantee, Compatible;
    forall l | l in b.held ensures MayHold(db', b, l) {
      assert MayHold(db, b, l);
      if l.row.MsgRow? && LosesReply(db, b, l.row.id) {
        var d :| d in b.delta.gone && d in db.msgs && db.msgs[d].root == Some(l.row.id);
        assert d in db'.msgs && db'.msgs[d].root == Some(l.row.id);
      }
    }
  }

  lemma RootedStable(db: Db, db': Db, held: set<Lock<Row>>, ids: set<Id>, b: Tx, born: set<Id>)
    requires MsgsCovered(db, db', held, ids) && ids !! born && b.phase.Cascade?
    requires forall m | m in b.delta.gone :: m in db.msgs && m in db'.msgs && db'.msgs[m] == db.msgs[m]
    requires forall r | r in b.phase.rows && r.MsgRow? :: r.id in born
    requires RowsRooted(db, b, b.phase.rows)
    ensures RowsRooted(db', b, b.phase.rows)
  {
    hide Reach;
    assert Within(db'.msgs, b.delta.gone) == Within(db.msgs, b.delta.gone);
    assert Grounded(db', OnlyStarted(b));
    forall m | MsgRow(m) in b.phase.rows && m in db'.msgs ensures InScope(OnlyStarted(b).delta, db'.msgs[m]) {
      assert m in born && m in db.msgs;
    }
  }

  lemma ChannelsFirstStable(db: Db, db': Db, held: set<Lock<Row>>, ids: set<Id>, b: Tx, born: set<Id>)
    requires Guarantee(db, db', held, ids) && Compatible(held, b.held) && ids !! born && b.phase.Cascade?
    requires ParentsOk(db, b)
    requires forall c | c in b.delta.goneChannels ::
               && c in db.channels && c in db'.channels && db'.channels[c] == db.channels[c]
               && db.channels[c] in b.delta.goneWs
    requires forall r | r in b.phase.rows && r.ChannelRow? :: r.channel in born
    requires ChannelsFirst(db, b, b.phase.pend, b.phase.rows)
    ensures ChannelsFirst(db', b, b.phase.pend, b.phase.rows)
  {
    hide MsgsCovered;
    forall c | c in db'.channels && (c in b.delta.goneChannels || ChannelRow(c) in b.phase.rows)
      ensures WsRow(db'.channels[c]) !in b.phase.pend
    {
      assert c in db.channels && db'.channels[c] == db.channels[c];
    }
    forall c, x | c in Started(b) && c in db'.channels && x in db'.channels && db'.channels[x] == db'.channels[c]
      ensures x in b.delta.goneChannels
    {
      ChannelWasThere(db, db', held, ids, b, x);
    }
  }

  lemma FoundRowsWereBorn(db: Db, born: set<Id>, tx: Tx, pend: set<Row>, rows: set<Row>)
    requires DropPending(db, born, tx, pend, rows)
    ensures forall r | r in rows && r.MsgRow? :: r.id in born
    ensures forall r | r in rows && r.ChannelRow? :: r.channel in born
  {
    forall r | r in rows ensures MayVisit(db, born, tx.delta, r) {}
    hide DropPending;
  }

  lemma OrderStable(db: Db, db': Db, held: set<Lock<Row>>, ids: set<Id>, b: Tx, born: set<Id>)
    requires Guarantee(db, db', held, ids) && Compatible(held, b.held) && ids !! born && TxOk(db, born, b)
    requires OrderOk(db, b)
    ensures OrderOk(db', b)
  {
    hide Compatible, ParentsCovered, MsgsCovered, RowsRooted, ChannelsFirst, DropPending, DropCounts, ParentsOk;
    hide ChannelsOk, MsgsOk;
    DeletedRowsStay(db, db', held, ids, b, born);
    if b.phase.Cascade? {
      FoundRowsWereBorn(db, born, b, b.phase.pend, b.phase.rows);
      RootedStable(db, db', held, ids, b, born);
      if b.op.DropWorkspace? || b.op.DropUser? { ChannelsFirstStable(db, db', held, ids, b, born); }
    }
  }

  lemma CommitKeepsOthersKnown(s: State, t: Tid, o: Tid)
    requires Inv(s) && LocksKnown(s) && t in s.txs && o in s.txs && o != t && s.txs[t].phase == Ready
    ensures var db' := Apply(s.db, s.txs[t].delta); LocksOk(db', s.txs[o]) && OrderOk(db', s.txs[o])
  {
    hide TxOk, DbOk, Faithful, Replay, Apply, LocksOk, OrderOk, Guarantee;
    var tx := s.txs[t];
    assert TxOk(s.db, s.born, tx) && TxOk(s.db, s.born, s.txs[o]) && Apart(tx, s.txs[o]);
    CommitGuarantee(s.db, s.born, tx);
    assert Reserved(tx.op) !! s.born by { ReservedAreNew(s.db, s.born, tx); }
    LocksStable(s.db, Apply(s.db, tx.delta), tx.held, Reserved(tx.op), s.txs[o], s.born);
    OrderStable(s.db, Apply(s.db, tx.delta), tx.held, Reserved(tx.op), s.txs[o], s.born);
  }

  lemma ReservedAreNew(db: Db, born: set<Id>, tx: Tx)
    requires TxOk(db, born, tx)
    ensures Reserved(tx.op) !! born
  {
    hide DropOk, DropDone, ReadyOk;
  }

  lemma ActKeepsKnown(s: State, t: Tid, c: Choice, s': State)
    requires Inv(s) && LocksKnown(s) && Next(s, Act(t, c), s')
    ensures LocksKnown(s')
  {
    hide Advance, TxOk, DbOk, Faithful, Replay, Apply, LocksOk, OrderOk, Apart, Granted, Stored;
    OnlyReadyPublishes(s.db, s.txs[t], c);
    assert TxOk(s.db, s.born, s.txs[t]);
    if Advance(s.db, s.txs[t], c).Continue? {
      AdvanceKeepsLocks(s.db, s.born, s.txs[t], c);
      AdvanceKeepsOrder(s.db, s.born, s.txs[t], c);
    }
    forall o | o in s'.txs ensures LocksOk(s'.db, s'.txs[o]) && OrderOk(s'.db, s'.txs[o]) {
      if o != t && s.txs[t].phase == Ready { CommitKeepsOthersKnown(s, t, o); }
    }
  }

  lemma BegunIsKnown(db: Db, op: Op)
    ensures LocksOk(db, Tx(op, Begun, {}, NODELTA)) && OrderOk(db, Tx(op, Begun, {}, NODELTA))
  {
  }

  lemma NextKeepsKnown(s: State, l: Label, s': State)
    requires Inv(s) && LocksKnown(s) && Next(s, l, s')
    ensures LocksKnown(s')
  {
    hide Inv, LocksOk, OrderOk, Advance;
    match l
    case Begin(_, op) => BegunIsKnown(s.db, op);
    case Abort(_) =>
    case Act(t, c) => ActKeepsKnown(s, t, c, s');
  }

  /** In every state of every run. */
  lemma {:induction false} LocksKnownAt(ss: seq<State>, ls: seq<Label>, n: nat)
    requires IsRun(ss, ls) && n <= |ls|
    ensures LocksKnown(ss[n])
  {
    hide Inv, Next, LocksOk, OrderOk;
    if n > 0 {
      LocksKnownAt(ss, ls, n - 1);
      InvAt(ss, ls, n - 1);
      NextKeepsKnown(ss[n - 1], ls[n - 1], ss[n]);
    }
  }
}
