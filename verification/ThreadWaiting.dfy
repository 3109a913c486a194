/** Who waits for whom in the thread model, and when nobody waits in a circle: as long as threads keep
    to their channels or workspaces, only message deletes, and account deletions at their RESTRICT
    checks, can. */
module ThreadWaiting {
  import opened Base
  import opened RowLocks
  import opened Reachability
  import opened Entities
  import opened ThreadModel
  import opened ThreadInvariant
  import opened ThreadRuns
  import opened ThreadTheorems
  import opened ThreadLocks

  // ---------------------------------------------------------------- where replies are posted

  predicate NoChannelDeletion(s: State) {
    forall t | t in s.txs :: !s.txs[t].op.DropChannel?
  }

  /** Channel c is in workspace w, or is about to be. */
  predicate LiesIn(s: State, c: Id, w: Id) {
    || (c in s.db.channels && s.db.channels[c] == w)
    || exists t :: t in s.txs && s.txs[t].op == MakeChannel(w, c)
  }

  /** Message m is in channel c under this root, or is about to be. */
  predicate Writes(s: State, m: Id, c: Id, root: Option<Id>) {
    || (m in s.db.msgs && s.db.msgs[m].channel == c && s.db.msgs[m].root == root)
    || exists t :: t in s.txs && IsPost(s.txs[t].op, m, c, root)
  }

  predicate IsPost(op: Op, m: Id, c: Id, root: Option<Id>) {
    op.Post? && op.id == m && op.channel == c && op.root == root
  }

  /** The same channel, or, while no channel is being deleted, the same workspace. */
  ghost predicate Together(s: State, a: Id, b: Id) {
    a == b || (NoChannelDeletion(s) && forall w, x | LiesIn(s, a, w) && LiesIn(s, b, x) :: w == x)
  }

  /** Every reply, stored or being posted, goes together with its root. */
  ghost predicate Confined(s: State) {
    forall m, a, r, b, top | Writes(s, m, a, Some(r)) && Writes(s, r, b, top) :: Together(s, a, b)
  }

  lemma TogetherByWay(s: State, a: Id, b: Id, c: Id)
    requires b in s.db.channels && Together(s, a, b) && Together(s, b, c)
    ensures Together(s, a, c)
  {
    assert LiesIn(s, b, s.db.channels[b]);
    hide LiesIn;
  }

  lemma SameWorkspace(s: State, a: Id, b: Id)
    requires a in s.db.channels && b in s.db.channels && Together(s, a, b)
    ensures a == b || (NoChannelDeletion(s) && s.db.channels[a] == s.db.channels[b])
  {
    assert LiesIn(s, a, s.db.channels[a]) && LiesIn(s, b, s.db.channels[b]);
    hide LiesIn;
  }

  lemma ReplyIsTogether(s: State, m: Id)
    requires Confined(s) && KeysHold(s.db) && m in s.db.msgs && s.db.msgs[m].root.Some?
    ensures s.db.msgs[m].root.value in s.db.msgs
    ensures Together(s, s.db.msgs[m].channel, s.db.msgs[s.db.msgs[m].root.value].channel)
  {
    var r := s.db.msgs[m].root.value;
    assert Writes(s, m, s.db.msgs[m].channel, Some(r));
    assert Writes(s, r, s.db.msgs[r].channel, s.db.msgs[r].root);
    hide Writes, Together;
  }

  lemma PostIsTogether(s: State, t: Tid)
    requires Confined(s) && t in s.txs && s.txs[t].op.Post?
    requires s.txs[t].op.root.Some? && s.txs[t].op.root.value in s.db.msgs
    ensures Together(s, s.txs[t].op.channel, s.db.msgs[s.txs[t].op.root.value].channel)
  {
    var op := s.txs[t].op;
    var r := op.root.value;
    assert IsPost(s.txs[t].op, op.id, op.channel, Some(r));
    assert Writes(s, op.id, op.channel, Some(r));
    assert Writes(s, r, s.db.msgs[r].channel, s.db.msgs[r].root);
    hide Writes, Together;
  }

  // ---------------------------------------------------------------- deletions shut the channels of a thread

  /** Every channel from which a reply to m may come is locked against posts. */
  ghost predicate Shut(s: State, tx: Tx, m: Id) {
    && m in s.db.msgs
    && forall c | c in s.db.channels && Together(s, c, s.db.msgs[m].channel) :: ForUpdate(ChannelRow(c)) in tx.held
  }

  /** A deletion of channels: the cascades of a message delete shut no channel. */
  predicate Shuts(tx: Tx) { tx.op.DropChannel? || tx.op.DropWorkspace? || tx.op.DropUser? }

  lemma StartedTakesAll(db: Db, born: set<Id>, tx: Tx, c: Id, x: Id)
    requires TxOk(db, born, tx) && OrderOk(db, tx) && (tx.op.DropWorkspace? || tx.op.DropUser?)
    requires c in Started(tx) && c in db.channels && x in db.channels && db.channels[x] == db.channels[c]
    ensures x in tx.delta.goneChannels
  {
    if !tx.phase.Cascade? {
      if Deleting(tx) {
        DeletingIsOk(db, born, tx);
        assert ChannelsOk(db, tx) && DropPending(db, born, tx, {}, {});
        hide ParentsOk, MsgsOk, DropCounts;
      } else {
        OnlyDeletingDeletes(db, born, tx);
      }
    }
    hide TxOk, RowsRooted;
  }

  lemma InStartedIsShut(s: State, t: Tid, m: Id)
    requires Inv(s) && LocksKnown(s) && t in s.txs && Shuts(s.txs[t])
    requires m in s.db.msgs && s.db.msgs[m].channel in Started(s.txs[t])
    ensures Shut(s, s.txs[t], m)
  {
    hide Together, OrderOk, LocksOk, DbOk, Apart, Faithful, Replay, Stored, TxOk;
    var tx := s.txs[t];
    assert TxOk(s.db, s.born, tx) && OrderOk(s.db, tx);
    DeletesAreHeld(s.db, s.born, tx);
    var a := s.db.msgs[m].channel;
    forall c | c in s.db.channels && Together(s, c, a) ensures ForUpdate(ChannelRow(c)) in tx.held {
      SameWorkspace(s, c, a);
      if c != a { StartedTakesAll(s.db, s.born, tx, a, c); }
      assert HoldsChannel(s.db, tx, c);
    }
  }

  lemma ReplyIsShut(s: State, tx: Tx, m: Id)
    requires DbOk(s.db) && Confined(s) && m in s.db.msgs && s.db.msgs[m].root.Some?
    ensures s.db.msgs[m].root.value in s.db.msgs
    ensures Shut(s, tx, s.db.msgs[m].root.value) <==> Shut(s, tx, m)
  {
    hide Together, Confined;
    ReplyIsTogether(s, m);
    var a, r := s.db.msgs[m].channel, s.db.msgs[m].root.value;
    var b := s.db.msgs[r].channel;
    TogetherIsSymmetric(s, a, b);
    forall c | c in s.db.channels ensures Together(s, c, a) <==> Together(s, c, b) {
      if Together(s, c, a) { TogetherByWay(s, c, a, b); }
      if Together(s, c, b) { TogetherByWay(s, c, b, a); }
    }
  }

  lemma TogetherIsSymmetric(s: State, a: Id, b: Id)
    ensures Together(s, a, b) <==> Together(s, b, a)
  {
    hide LiesIn;
  }

  /** Everything a deletion has deleted is in channels it has shut. */
  lemma GoneIsShut(s: State, t: Tid, m: Id)
    requires Inv(s) && LocksKnown(s) && Confined(s) && t in s.txs && Shuts(s.txs[t])
    requires m in s.txs[t].delta.gone
    ensures Shut(s, s.txs[t], m)
  {
    hide Confined, Together, LocksOk, DbOk, Apart, Faithful, Replay, Stored, TxOk, Shut, DropOk;
    var tx := s.txs[t];
    assert TxOk(s.db, s.born, tx);
    DeletesAreHeld(s.db, s.born, tx);
    var here := Within(s.db.msgs, tx.delta.gone);
    var shut := set x | x in tx.delta.gone && Shut(s, tx, x);
    var seeds := Seeds(here, tx.op, Started(tx)) * tx.delta.gone;
    GoneIsGrounded(s.db, s.born, tx);
    forall x | x in seeds ensures x in shut { InStartedIsShut(s, t, x); }
    forall e | e in ThreadEdges(here) && e.0 in shut ensures e.1 in shut { ReplyIsShut(s, tx, e.1); }
    ReachLeast(ThreadEdges(here), seeds, shut);
  }

  lemma GoneIsGrounded(db: Db, born: set<Id>, tx: Tx)
    requires TxOk(db, born, tx) && OrderOk(db, tx)
    ensures Grounded(db, OnlyStarted(tx))
  {
    if Deleting(tx) {
      DeletingIsOk(db, born, tx);
      if !tx.phase.Cascade? {
        assert Started(tx) == tx.delta.goneChannels && OnlyStarted(tx) == tx;
      }
    } else {
      OnlyDeletingDeletes(db, born, tx);
    }
    hide Reach, TxOk, DropCounts, DropPending, ParentsOk, ChannelsOk, ChannelsFirst;
  }

  /** The row loses a reply that goes with the channels shut. */
  lemma LosingIsShut(s: State, t: Tid, m: Id)
    requires Inv(s) && LocksKnown(s) && Confined(s) && t in s.txs && Shuts(s.txs[t])
    requires LosesReply(s.db, s.txs[t], m)
    ensures Shut(s, s.txs[t], m)
  {
    hide Confined, LocksKnown, Apart, Faithful, Replay, Stored, TxOk, Shut;
    var d :| d in s.txs[t].delta.gone && d in s.db.msgs && s.db.msgs[d].root == Some(m);
    GoneIsShut(s, t, d);
    ReplyIsShut(s, s.txs[t], d);
  }

  lemma ShutIsExclusive(s: State, t: Tid, o: Tid, m: Id)
    requires Inv(s) && t in s.txs && o in s.txs && t != o && Shut(s, s.txs[t], m)
    ensures !Shut(s, s.txs[o], m)
  {
    hide TxOk, Faithful, Replay, Stored, CountsOk, LiesIn;
    var c := s.db.msgs[m].channel;
    assert Apart(s.txs[t], s.txs[o]) && Together(s, c, c) && c in s.db.channels;
    assert Clash(ForUpdate(ChannelRow(c)), ForUpdate(ChannelRow(c)));
  }

  lemma ShutStopsPosts(s: State, t: Tid, o: Tid, m: Id)
    requires Inv(s) && Confined(s) && t in s.txs && o in s.txs && t != o && Shut(s, s.txs[t], m)
    requires s.txs[o].op.Post? && s.txs[o].op.root == Some(m)
    ensures !SharesChannel(s.db, s.txs[o], s.txs[o].op.channel)
  {
    hide TxOk, DbOk, Faithful, Replay, Stored, Confined, Together;
    var c := s.txs[o].op.channel;
    PostIsTogether(s, o);
    assert Apart(s.txs[t], s.txs[o]);
    assert Clash(ForUpdate(ChannelRow(c)), ForKeyShare(ChannelRow(c)));
  }

  // ---------------------------------------------------------------- who holds a message

  lemma PostShares(db: Db, born: set<Id>, tx: Tx)
    requires TxOk(db, born, tx) && tx.op.Post? && (tx.phase.RootFk? || tx.phase.Bump? || tx.phase.Ready?)
    ensures SharesChannel(db, tx, tx.op.channel)
  {
    hide DropOk, DropDone;
  }

  lemma MsgHolders(s: State, o: Tid, m: Id, l: Lock<Row>)
    requires Inv(s) && LocksKnown(s) && Confined(s) && o in s.txs && l in s.txs[o].held && l.row == MsgRow(m)
    ensures var tx := s.txs[o];
            || (tx.op.Post? && tx.op.root == Some(m) && SharesChannel(s.db, tx, tx.op.channel)
                && (tx.phase.Ready? || l.mode == KeyShare))
            || (tx.op.Edit? && tx.phase.Ready?)
            || tx.op.Drop?
            || (Shuts(tx) && Shut(s, tx, m))
  {
    hide DbOk, Faithful, Replay, Stored, Confined, Shut, LosesReply, OrderOk, TxOk;
    var tx := s.txs[o];
    assert TxOk(s.db, s.born, tx) && LocksOk(s.db, tx) && MayHold(s.db, tx, l);
    if tx.op.Post? {
      PostShares(s.db, s.born, tx);
    } else if !tx.op.Edit? && !tx.op.Drop? {
      DeleterOfMessages(s.db, s.born, tx, m);
      if m in tx.delta.gone { GoneIsShut(s, o, m); } else { LosingIsShut(s, o, m); }
    }
  }

  lemma DeleterOfMessages(db: Db, born: set<Id>, tx: Tx, m: Id)
    requires TxOk(db, born, tx) && (m in tx.delta.gone || LosesReply(db, tx, m))
    ensures tx.op.Drop? || Shuts(tx)
  {
    PhaseOfOp(db, born, tx);
    if !Deleting(tx) { OnlyDeletingDeletes(db, born, tx); }
    hide TxOk;
  }

  // ---------------------------------------------------------------- waits go down

  function Level(tx: Tx): nat {
    if tx.phase.Ready? then 0
    else if Early(tx.phase) then 6
    else match tx.op
      case Post(_, _, _, _, _, _) => if tx.phase.ChannelFk? then 5 else 1
      case DropChannel(_) => 2
      case DropWorkspace(_, _) => 3
      case DropUser(_) => 4
      case _ => 0
  }

  /** o is not above t, and on one level both are account deletions and t is at its RESTRICT check. */
  predicate Below(s: State, t: Tid, o: Tid)
    requires t in s.txs && o in s.txs
  {
    && Level(s.txs[o]) <= Level(s.txs[t])
    && (Level(s.txs[o]) == Level(s.txs[t]) ==>
          s.txs[t].op.DropUser? && s.txs[o].op.DropUser? && s.txs[t].phase.Restrict?)
  }

  /** The lock of o that stands in the way of t. */
  predicate InTheWay(s: State, t: Tid, c: Choice, o: Tid, l: Lock<Row>)
    requires t in s.txs && o in s.txs
  {
    && o != t && l in s.txs[o].held
    && Request(s.db, s.txs[t], c).Some? && Clash(Request(s.db, s.txs[t], c).value, l)
  }

  lemma HolderHasStarted(s: State, o: Tid, l: Lock<Row>)
    requires LocksKnown(s) && o in s.txs && l in s.txs[o].held
    ensures !Early(s.txs[o].phase)
  {
    hide OrderOk, MayHold;
    assert LocksOk(s.db, s.txs[o]);
  }

  lemma FirstStatementWaits(s: State, t: Tid, c: Choice, o: Tid, l: Lock<Row>)
    requires Inv(s) && LocksKnown(s) && t in s.txs && o in s.txs && InTheWay(s, t, c, o, l)
    requires Early(s.txs[t].phase)
    ensures Below(s, t, o)
  {
    hide DbOk, Faithful, Replay, Stored, OrderOk, TxOk, MayHold, Request;
    assert LocksOk(s.db, s.txs[o]);
  }

  lemma ChannelFkWaits(s: State, t: Tid, c: Choice, o: Tid, l: Lock<Row>)
    requires Inv(s) && LocksKnown(s) && t in s.txs && o in s.txs && InTheWay(s, t, c, o, l)
    requires s.txs[t].phase.ChannelFk?
    ensures Below(s, t, o)
  {
    hide DbOk, Faithful, Replay, Stored, OrderOk, TxOk, LosesReply;
    assert TxOk(s.db, s.born, s.txs[o]) && TxOk(s.db, s.born, s.txs[t]) && LocksOk(s.db, s.txs[o]);
    assert MayHold(s.db, s.txs[o], l);
    PhaseOfOp(s.db, s.born, s.txs[o]);
    PhaseOfOp(s.db, s.born, s.txs[t]);
  }

  /** A reply past its channel check does not meet a deletion: that would hold the channel. */
  lemma ReplyWaits(s: State, t: Tid, c: Choice, o: Tid, l: Lock<Row>)
    requires Inv(s) && LocksKnown(s) && Confined(s) && t in s.txs && o in s.txs && InTheWay(s, t, c, o, l)
    requires (s.txs[t].phase.RootFk? || s.txs[t].phase.Bump?) && !s.txs[o].op.Drop?
    ensures Below(s, t, o)
  {
    hide DbOk, Faithful, Replay, Stored, OrderOk, LocksOk, TxOk, LosesReply, Confined, Shut;
    var a := s.txs[t];
    assert TxOk(s.db, s.born, a);
    PhaseOfOp(s.db, s.born, a);
    PostShares(s.db, s.born, a);
    var m := a.op.root.value;
    MsgHolders(s, o, m, l);
    if Shut(s, s.txs[o], m) { ShutStopsPosts(s, o, t, m); }
  }

  /** The message a cascade asks for is in channels its deletion has shut. */
  lemma RequestIsShut(s: State, t: Tid, c: Choice)
    requires Inv(s) && LocksKnown(s) && Confined(s) && t in s.txs && Shuts(s.txs[t]) && s.txs[t].phase.Cascade?
    requires Request(s.db, s.txs[t], c).Some? && Request(s.db, s.txs[t], c).value.row.MsgRow?
    ensures Shut(s, s.txs[t], Request(s.db, s.txs[t], c).value.row.id)
  {
    hide Inv, LocksKnown, Confined, Shut, Shuts, TxOk, OrderOk, InScope, Visible, Apply;
    var tx := s.txs[t];
    KnownParts(s, t);
    if c.Child? {
      var m := c.row.id;
      ChildIsRooted(s.db, s.born, tx, m);
      InScopeIsShut(s, t, m);
    } else {
      DecrementIsOfGone(s.db, s.born, tx, c.id);
      GoneIsShut(s, t, c.id);
      ReplyIsShut(s, tx, c.id);
    }
  }

  lemma InScopeIsShut(s: State, t: Tid, m: Id)
    requires Inv(s) && LocksKnown(s) && Confined(s) && t in s.txs && Shuts(s.txs[t])
    requires m in s.db.msgs && InScope(OnlyStarted(s.txs[t]).delta, s.db.msgs[m])
    ensures Shut(s, s.txs[t], m)
  {
    hide Inv, LocksKnown, Confined, Shut, Shuts, Started;
    KnownParts(s, t);
    if s.db.msgs[m].channel in Started(s.txs[t]) {
      InStartedIsShut(s, t, m);
    } else {
      GoneIsShut(s, t, s.db.msgs[m].root.value);
      ReplyIsShut(s, s.txs[t], m);
    }
  }

  lemma KnownParts(s: State, t: Tid)
    requires Inv(s) && LocksKnown(s) && t in s.txs
    ensures DbOk(s.db)
    ensures TxOk(s.db, s.born, s.txs[t]) && OrderOk(s.db, s.txs[t]) && LocksOk(s.db, s.txs[t])
  {
    hide DbOk, TxOk, OrderOk, LocksOk, Apart, Faithful, Replay, Stored;
  }

  lemma ChildIsRooted(db: Db, born: set<Id>, tx: Tx, m: Id)
    requires TxOk(db, born, tx) && OrderOk(db, tx) && tx.phase.Cascade?
    requires MsgRow(m) in tx.phase.rows && Visible(Apply(db, tx.delta), MsgRow(m))
    ensures m in db.msgs && InScope(OnlyStarted(tx).delta, db.msgs[m])
  {
    assert DropRows(db, tx);
    RootedPart(db, tx);
    hide DropRows, OrderOk, DropCounts, DropPending, Apply;
    NoNewChannels(db, tx);
    InTables(db, tx, MsgRow(m));
  }

  lemma DecrementIsOfGone(db: Db, born: set<Id>, tx: Tx, d: Id)
    requires TxOk(db, born, tx) && tx.phase.Cascade? && d in tx.phase.decs
    ensures d in tx.delta.gone && d in db.msgs && db.msgs[d].root == Some(tx.phase.decs[d])
  {
    hide DropRows, DropPending;
  }

  lemma CascadeWaitsForMsg(s: State, t: Tid, c: Choice, o: Tid, l: Lock<Row>)
    requires Inv(s) && LocksKnown(s) && Confined(s) && t in s.txs && o in s.txs && InTheWay(s, t, c, o, l)
    requires s.txs[t].phase.Cascade? && Shuts(s.txs[t]) && !s.txs[o].op.Drop?
    requires Request(s.db, s.txs[t], c).value.row.MsgRow?
    ensures Below(s, t, o)
  {
    hide Inv, LocksKnown, Confined, Shut, SharesChannel, Request, Shuts;
    var m := Request(s.db, s.txs[t], c).value.row.id;
    RequestIsShut(s, t, c);
    MsgHolders(s, o, m, l);
    ShutIsExclusive(s, t, o, m);
    if s.txs[o].op.Post? && s.txs[o].op.root == Some(m) { ShutStopsPosts(s, t, o, m); }
    assert s.txs[t].op.DropChannel? || s.txs[t].op.DropWorkspace? || s.txs[t].op.DropUser? by { ShutsOps(s.txs[t]); }
  }

  lemma ShutsOps(tx: Tx)
    requires Shuts(tx)
    ensures tx.op.DropChannel? || tx.op.DropWorkspace? || tx.op.DropUser?
  {
  }

  lemma ChildChannelIsOwn(db: Db, born: set<Id>, tx: Tx, c: Choice)
    requires TxOk(db, born, tx) && tx.phase.Cascade? && Request(db, tx, c).Some?
    requires Request(db, tx, c).value.row.ChannelRow?
    ensures var ch := Request(db, tx, c).value.row.channel; ch in db.channels && db.channels[ch] in tx.delta.goneWs
  {
    assert DropRows(db, tx) && c.Child? && MayVisit(db, born, tx.delta, c.row);
    hide DropRows, DropCounts, DropPending, Apply;
    NoNewChannels(db, tx);
    InTables(db, tx, c.row);
  }

  lemma SameWsTwice(s: State, t: Tid, o: Tid, w: Id)
    requires Inv(s) && t in s.txs && o in s.txs && t != o && w in s.txs[t].delta.goneWs
    ensures w !in s.txs[o].delta.goneWs
  {
    hide TxOk, DbOk, Faithful, Replay, Stored;
    assert TxOk(s.db, s.born, s.txs[t]) && TxOk(s.db, s.born, s.txs[o]) && Apart(s.txs[t], s.txs[o]);
    DeletesAreHeld(s.db, s.born, s.txs[t]);
    DeletesAreHeld(s.db, s.born, s.txs[o]);
    assert Clash(ForUpdate(WsRow(w)), ForUpdate(WsRow(w)));
  }

  /** While a deletion takes channels: posts that hold one are past their channel check, and the
      deletion of one channel never waits for a row lock but that of an edit. */
  lemma CascadeWaitsForChannel(s: State, t: Tid, c: Choice, o: Tid, l: Lock<Row>)
    requires Inv(s) && LocksKnown(s) && t in s.txs && o in s.txs && InTheWay(s, t, c, o, l)
    requires s.txs[t].phase.Cascade? && Shuts(s.txs[t])
    requires Request(s.db, s.txs[t], c).value.row.ChannelRow?
    ensures Below(s, t, o)
  {
    hide DbOk, Faithful, Replay, Stored, OrderOk, TxOk, LosesReply, Request;
    var a, b := s.txs[t], s.txs[o];
    var ch := Request(s.db, a, c).value.row.channel;
    assert TxOk(s.db, s.born, a) && TxOk(s.db, s.born, b) && LocksOk(s.db, b) && MayHold(s.db, b, l);
    ChildChannelIsOwn(s.db, s.born, a, c);
    SameWsTwice(s, t, o, s.db.channels[ch]);
    DeletesAreHeld(s.db, s.born, a);
    DeletesAreHeld(s.db, s.born, b);
    PhaseOfOp(s.db, s.born, b);
  }

  lemma LockOwnedWaits(s: State, t: Tid, c: Choice, o: Tid, l: Lock<Row>)
    requires Inv(s) && LocksKnown(s) && t in s.txs && o in s.txs && InTheWay(s, t, c, o, l)
    requires s.txs[t].phase.LockOwned?
    ensures Below(s, t, o)
  {
    hide DbOk, Faithful, Replay, Stored, OrderOk, LosesReply, DropOk, DropDone, ReadyOk;
    var a, b := s.txs[t], s.txs[o];
    assert TxOk(s.db, s.born, a) && TxOk(s.db, s.born, b) && LocksOk(s.db, b) && MayHold(s.db, b, l);
    assert Apart(a, b);
    PhaseOfOp(s.db, s.born, b);
    DeletesAreHeld(s.db, s.born, b);
    if b.op.DropUser? { OwnerIsHeld(s.db, s.born, b); }
    assert Clash(ForUpdate(UserRow(a.op.user)), ForUpdate(UserRow(a.op.user)));
  }

  lemma OwnerIsHeld(db: Db, born: set<Id>, tx: Tx)
    requires TxOk(db, born, tx) && tx.op.DropUser?
    ensures tx.delta.goneWs != {} ==> HoldsUser(db, tx, tx.op.user)
  {
    if Deleting(tx) { DeletingIsOk(db, born, tx); } else { OnlyDeletingDeletes(db, born, tx); }
    hide ChannelsOk, MsgsOk, DropCounts, DropPending, WrittenOk;
  }

  lemma RestrictWaits(s: State, t: Tid, c: Choice, o: Tid, l: Lock<Row>)
    requires Inv(s) && LocksKnown(s) && Confined(s) && t in s.txs && o in s.txs && InTheWay(s, t, c, o, l)
    requires s.txs[t].phase.Restrict? && !s.txs[o].op.Drop?
    ensures Below(s, t, o)
  {
    hide DbOk, Faithful, Replay, Stored, LocksKnown, TxOk, Confined, Shut, SharesChannel;
    var a, b := s.txs[t], s.txs[o];
    assert TxOk(s.db, s.born, a) && TxOk(s.db, s.born, b);
    PhaseOfOp(s.db, s.born, a);
    PhaseOfOp(s.db, s.born, b);
    HolderHasStarted(s, o, l);
    MsgHolders(s, o, c.id, l);
  }

  /** Nobody waits for a call on his own level or above, but for account deletions at their RESTRICT checks. */
  lemma WaitsGoDown(s: State, t: Tid, c: Choice, o: Tid)
    requires Inv(s) && LocksKnown(s) && Confined(s) && t in s.txs && o in s.txs && Blocks(s, t, c, o)
    requires !s.txs[t].op.Drop? && !s.txs[o].op.Drop?
    ensures Below(s, t, o)
  {
    hide Inv, LocksKnown, Confined, Below, Request;
    var l :| l in s.txs[o].held && Clash(Request(s.db, s.txs[t], c).value, l);
    assert InTheWay(s, t, c, o, l);
    WhoAsks(s, t, c);
    var tx := s.txs[t];
    match tx.phase
    case ChannelFk => ChannelFkWaits(s, t, c, o, l);
    case RootFk => ReplyWaits(s, t, c, o, l);
    case Bump => ReplyWaits(s, t, c, o, l);
    case LockOwned(_) => LockOwnedWaits(s, t, c, o, l);
    case Restrict(_) => RestrictWaits(s, t, c, o, l);
    case Cascade(_, _, _) =>
      if Request(s.db, tx, c).value.row.MsgRow? {
        CascadeWaitsForMsg(s, t, c, o, l);
      } else {
        CascadeWaitsForChannel(s, t, c, o, l);
      }
    case _ => FirstStatementWaits(s, t, c, o, l);
  }

  lemma WhoAsks(s: State, t: Tid, c: Choice)
    requires Inv(s) && t in s.txs && Request(s.db, s.txs[t], c).Some? && !s.txs[t].op.Drop?
    ensures var tx := s.txs[t];
            || Early(tx.phase) || tx.phase.ChannelFk? || tx.phase.RootFk? || tx.phase.Bump?
            || tx.phase.LockOwned? || tx.phase.Restrict?
            || (tx.phase.Cascade? && Shuts(tx)
                && (Request(s.db, tx, c).value.row.MsgRow? || Request(s.db, tx, c).value.row.ChannelRow?))
  {
    hide DbOk, Faithful, Replay, Stored, DropRows, DropCounts, Apply;
    var tx := s.txs[t];
    assert TxOk(s.db, s.born, tx);
    PhaseOfOp(s.db, s.born, tx);
    if tx.phase.Cascade? && c.Child? { assert MayVisit(s.db, s.born, tx.delta, c.row); }
  }

  // ---------------------------------------------------------------- cycles

  ghost predicate Waits(s: State, t: Tid, o: Tid) {
    t in s.txs && o in s.txs && exists c :: Blocks(s, t, c, o)
  }

  /** Each of these transactions waits for the next, and the last for the first. */
  ghost predicate IsCycle(s: State, p: seq<Tid>) {
    p != [] && forall i | 0 <= i < |p| :: Waits(s, p[i], Following(p, i))
  }

  predicate HasDrop(s: State, p: seq<Tid>) {
    exists i :: 0 <= i < |p| && p[i] in s.txs && s.txs[p[i]].op.Drop?
  }

  lemma CycleStep(s: State, p: seq<Tid>, i: nat)
    requires Inv(s) && LocksKnown(s) && Confined(s) && IsCycle(s, p) && i < |p| && !HasDrop(s, p)
    ensures p[i] in s.txs && Following(p, i) in s.txs && p[i] != Following(p, i)
    ensures Below(s, p[i], Following(p, i))
  {
    hide Inv, LocksKnown, Confined, Below;
    var o := Following(p, i);
    assert Waits(s, p[i], o);
    var c :| Blocks(s, p[i], c, o);
    assert o == p[if i + 1 < |p| then i + 1 else 0];
    WaitsGoDown(s, p[i], c, o);
  }

  lemma {:induction false} LevelsFall(s: State, p: seq<Tid>, i: nat, j: nat)
    requires Inv(s) && LocksKnown(s) && Confined(s) && IsCycle(s, p) && i <= j < |p| && !HasDrop(s, p)
    ensures p[i] in s.txs && p[j] in s.txs && Level(s.txs[p[j]]) <= Level(s.txs[p[i]])
    decreases j - i
  {
    hide Inv, LocksKnown, Confined, IsCycle, HasDrop, Level;
    CycleStep(s, p, i);
    if i < j { LevelsFall(s, p, i + 1, j); }
  }

  /** In every state of every run in which replies go together with their roots, a cycle of waits
      contains a message delete, or else consists of account deletions only, at least two, each at its
      RESTRICT check. Channel and workspace deletions alone never deadlock with each other, nor with
      posts, edits or one account deletion. */
  lemma CyclesAreDeletions(ss: seq<State>, ls: seq<Label>, n: nat, p: seq<Tid>)
    requires IsRun(ss, ls) && n <= |ls| && Confined(ss[n]) && IsCycle(ss[n], p) && !HasDrop(ss[n], p)
    ensures forall i | 0 <= i < |p| ::
              p[i] in ss[n].txs && ss[n].txs[p[i]].op.DropUser? && ss[n].txs[p[i]].phase.Restrict?
    ensures p[0] != Following(p, 0)
  {
    hide Next, Inv, LocksKnown, Confined, IsCycle, HasDrop, Level;
    InvAt(ss, ls, n);
    LocksKnownAt(ss, ls, n);
    var s, last := ss[n], |p| - 1;
    assert p != [] by { NonEmptyCycle(s, p); }
    CycleStep(s, p, 0);
    forall i: nat | i < |p|
      ensures p[i] in s.txs && s.txs[p[i]].op.DropUser? && s.txs[p[i]].phase.Restrict?
    {
      LevelsFall(s, p, 0, i);
      LevelsFall(s, p, i, last);
      CycleStep(s, p, i);
      CycleStep(s, p, last);
      LevelsFall(s, p, 0, if i + 1 < |p| then i + 1 else 0);
      LevelsFall(s, p, if i + 1 < |p| then i + 1 else 0, last);
    }
  }

  lemma NonEmptyCycle(s: State, p: seq<Tid>)
    requires IsCycle(s, p)
    ensures p != []
  {
  }

  predicate AtMostOneDropUser(s: State) {
    forall t, o | t in s.txs && o in s.txs && s.txs[t].op.DropUser? && s.txs[o].op.DropUser? :: t == o
  }

  predicate NoMessageDelete(s: State) {
    forall t | t in s.txs :: !s.txs[t].op.Drop?
  }

  /** The condition under which nobody can be stuck: replies go together with their roots, no message
      delete is open, and at most one account deletion. */
  ghost predicate Orderly(s: State) {
    Confined(s) && NoMessageDelete(s) && AtMostOneDropUser(s)
  }

  lemma NoCycleOfWaits(ss: seq<State>, ls: seq<Label>, n: nat, p: seq<Tid>)
    requires IsRun(ss, ls) && n <= |ls| && Orderly(ss[n])
    ensures !IsCycle(ss[n], p)
  {
    hide Confined;
    if IsCycle(ss[n], p) {
      CyclesAreDeletions(ss, ls, n, p);
    }
  }
}
