/** What every statement of every transaction of the thread model keeps. */
module ThreadRuns {
  import opened Base
  import opened Reachability
  import opened Entities
  import opened ThreadModel
  import opened ThreadInvariant

  // ---------------------------------------------------------------- what a transaction sees

  /** A trigger sees the roots, channels and authors of the committed rows, whatever it has recounted. */
  lemma VisibleMsg(db: Db, tx: Tx, m: Id)
    requires OnlyRecounts(db, tx.delta)
    ensures m in Apply(db, tx.delta).msgs <==> m in db.msgs && m !in tx.delta.gone
    ensures m in Apply(db, tx.delta).msgs ==>
              Apply(db, tx.delta).msgs[m] == db.msgs[m].(count := Apply(db, tx.delta).msgs[m].count)
  {
  }

  lemma VisibleChannel(db: Db, tx: Tx, c: Id)
    requires tx.delta.newChannels == map[]
    ensures c in Apply(db, tx.delta).channels <==> c in db.channels && c !in tx.delta.goneChannels
    ensures c in Apply(db, tx.delta).channels ==> Apply(db, tx.delta).channels[c] == db.channels[c]
  {
  }

  /** The count a trigger reads is the committed one less the decrements it has run. */
  lemma VisibleCount(db: Db, tx: Tx, decs: map<Id, Id>, m: Id)
    requires OnlyRecounts(db, tx.delta) && DropCounts(db, tx, decs)
    requires m in Apply(db, tx.delta).msgs
    ensures Apply(db, tx.delta).msgs[m].count == db.msgs[m].count - |Counted(db.msgs, tx.delta.gone, decs, m)|
  {
    VisibleMsg(db, tx, m);
    if m !in tx.delta.puts {
      assert Counted(db.msgs, tx.delta.gone, decs, m) == {};
    }
  }

  // ---------------------------------------------------------------- starting a cascade

  lemma FoundMayBeVisited(db: Db, born: set<Id>, tx: Tx, p: Row, r: Row)
    requires Stored(db) <= born && tx.delta.newChannels == map[] && OnlyRecounts(db, tx.delta)
    requires IsDeleted(tx.delta, p) && r in Referring(Apply(db, tx.delta), p)
    ensures MayVisit(db, born, tx.delta, r)
  {
    match r
    case ChannelRow(c) => VisibleChannel(db, tx, c);
    case MsgRow(m) => VisibleMsg(db, tx, m);
    case _ =>
  }

  lemma DueMsgIsFound(db: Db, tx: Tx, pend: set<Row>, p: Row, m: Id)
    requires OnlyRecounts(db, tx.delta) && m in db.msgs
    requires Due(tx.delta, pend - {p}, db.msgs[m]) && !Due(tx.delta, pend, db.msgs[m])
    ensures m in tx.delta.gone || MsgRow(m) in Referring(Apply(db, tx.delta), p)
  {
    VisibleMsg(db, tx, m);
  }

  lemma StartCascadeKeeps(db: Db, born: set<Id>, tx: Tx, pend: set<Row>, p: Row)
    requires Stored(db) <= born && tx.delta.newChannels == map[]
    requires OnlyRecounts(db, tx.delta) && DropPending(db, born, tx, pend, {}) && p in pend
    ensures DropPending(db, born, tx, pend - {p}, Referring(Apply(db, tx.delta), p))
  {
    hide Stored, Apply, Referring, OnlyRecounts, MayVisit;
    var rows := Referring(Apply(db, tx.delta), p);
    forall r | r in rows ensures MayVisit(db, born, tx.delta, r) { FoundMayBeVisited(db, born, tx, p, r); }
    forall c | c in db.channels && db.channels[c] in tx.delta.goneWs && WsRow(db.channels[c]) !in pend - {p}
      ensures c in tx.delta.goneChannels || ChannelRow(c) in rows
    {
      if WsRow(db.channels[c]) in pend { ChannelIsFound(db, tx, p, c); }
    }
    forall m | m in db.msgs && Due(tx.delta, pend - {p}, db.msgs[m]) ensures m in tx.delta.gone || MsgRow(m) in rows {
      if !Due(tx.delta, pend, db.msgs[m]) { DueMsgIsFound(db, tx, pend, p, m); }
    }
  }

  lemma ChannelIsFound(db: Db, tx: Tx, p: Row, c: Id)
    requires tx.delta.newChannels == map[] && c in db.channels && p == WsRow(db.channels[c])
    ensures c in tx.delta.goneChannels || ChannelRow(c) in Referring(Apply(db, tx.delta), p)
  {
    VisibleChannel(db, tx, c);
  }

  // ---------------------------------------------------------------- visiting a message

  /** A cascade leads from a row the call takes to every message it deletes. */
  lemma VisitKeepsGrounded(db: Db, tx: Tx, tx': Tx, r: Id)
    requires Grounded(db, tx) && tx'.op == tx.op && tx'.delta.gone == tx.delta.gone + {r}
    requires tx'.delta.goneChannels == tx.delta.goneChannels
    requires r in db.msgs && InScope(tx.delta, db.msgs[r])
    ensures Grounded(db, tx')
  {
    var gone, gone', cs := tx.delta.gone, tx'.delta.gone, tx.delta.goneChannels;
    var here, here' := Within(db.msgs, gone), Within(db.msgs, gone');
    var seeds, seeds' := Seeds(here, tx.op, cs) * gone, Seeds(here', tx.op, cs) * gone';
    assert ThreadEdges(here) <= ThreadEdges(here');
    ReachMonotone(ThreadEdges(here), seeds, ThreadEdges(here'), seeds');
    var all := Reach(ThreadEdges(here'), seeds');
    if db.msgs[r].channel in cs {
      assert r in seeds';
    } else {
      ThreadEdgesContents(here', r);
    }
    assert r in all;
  }

  /** More deleted channels only add rows that a cascade may start from. */
  lemma MoreChannelsKeepGrounded(db: Db, tx: Tx, tx': Tx)
    requires Grounded(db, tx) && tx'.op == tx.op && tx'.delta.gone == tx.delta.gone
    requires tx.delta.goneChannels <= tx'.delta.goneChannels
    ensures Grounded(db, tx')
  {
    var here, gone := Within(db.msgs, tx.delta.gone), tx.delta.gone;
    ReachMonotone(ThreadEdges(here), Seeds(here, tx.op, tx.delta.goneChannels) * gone,
                  ThreadEdges(here), Seeds(here, tx.op, tx'.delta.goneChannels) * gone);
  }

  lemma VisitMsgKeepsRows(db: Db, tx: Tx, r: Id)
    requires tx.phase.Cascade? && DropRows(db, tx)
    requires r in Apply(db, tx.delta).msgs && InScope(tx.delta, db.msgs[r])
    ensures DropRows(db, VisitRow(Apply(db, tx.delta), tx, MsgRow(r)))
  {
    hide Grounded;
    VisibleMsg(db, tx, r);
    var tx' := VisitRow(Apply(db, tx.delta), tx, MsgRow(r));
    VisitKeepsGrounded(db, tx, tx', r);
    assert forall m | m in tx'.delta.gone :: HoldsMsg(db, tx', m);
    assert forall m | m in tx'.delta.puts :: m in tx.delta.puts && FixesMsg(db, tx', m);
    assert ChannelsOk(db, tx') && ParentsOk(db, tx');
  }

  lemma CountedVisit(msgs: map<Id, Message>, gone: set<Id>, decs: map<Id, Id>, r: Id, row: Message, m: Id)
    requires r in msgs && r !in gone && row.root == msgs[r].root
    ensures Counted(msgs, gone + {r}, decs + Pending(r, row), m) == Counted(msgs, gone, decs, m)
  {
  }

  lemma VisitMsgKeepsCounts(db: Db, tx: Tx, r: Id)
    requires tx.phase.Cascade? && OnlyRecounts(db, tx.delta) && DropCounts(db, tx, tx.phase.decs)
    requires r in Apply(db, tx.delta).msgs
    ensures var tx' := VisitRow(Apply(db, tx.delta), tx, MsgRow(r));
            tx'.phase.Cascade? && DropCounts(db, tx', tx'.phase.decs)
  {
    hide OnlyRecounts, Counted, Apply;
    VisibleMsg(db, tx, r);
    var row := Apply(db, tx.delta).msgs[r];
    var tx' := VisitRow(Apply(db, tx.delta), tx, MsgRow(r));
    forall m | m in tx'.delta.puts && m in db.msgs
      ensures tx'.delta.puts[m].count == db.msgs[m].count - |Counted(db.msgs, tx'.delta.gone, tx'.phase.decs, m)|
    {
      CountedVisit(db.msgs, tx.delta.gone, tx.phase.decs, r, row, m);
    }
  }

  lemma VisitMsgKeepsPending(db: Db, born: set<Id>, tx: Tx, r: Id)
    requires tx.phase.Cascade? && OnlyRecounts(db, tx.delta)
    requires DropPending(db, born, tx, tx.phase.pend, tx.phase.rows)
    requires MsgRow(r) in tx.phase.rows && r in Apply(db, tx.delta).msgs
    ensures var tx' := VisitRow(Apply(db, tx.delta), tx, MsgRow(r));
            tx'.phase.Cascade? && DropPending(db, born, tx', tx'.phase.pend, tx'.phase.rows)
  {
    VisibleMsg(db, tx, r);
    var tx' := VisitRow(Apply(db, tx.delta), tx, MsgRow(r));
    forall x | x in tx'.phase.rows ensures MayVisit(db, born, tx'.delta, x) { assert MayVisit(db, born, tx.delta, x); }
    forall x | x in tx'.phase.pend ensures IsDeleted(tx'.delta, x) { assert x != MsgRow(r) ==> IsDeleted(tx.delta, x); }
    assert forall m | m in db.msgs && Due(tx'.delta, tx'.phase.pend, db.msgs[m]) ::
        Due(tx.delta, tx.phase.pend, db.msgs[m]);
  }

  // ---------------------------------------------------------------- visiting a channel

  lemma VisitChannelKeepsRows(db: Db, tx: Tx, c: Id)
    requires tx.phase.Cascade? && DropRows(db, tx)
    requires c in Apply(db, tx.delta).channels && db.channels[c] in tx.delta.goneWs
    ensures DropRows(db, VisitRow(Apply(db, tx.delta), tx, ChannelRow(c)))
  {
    hide Grounded;
    VisibleChannel(db, tx, c);
    var tx' := VisitRow(Apply(db, tx.delta), tx, ChannelRow(c));
    MoreChannelsKeepGrounded(db, tx, tx');
    assert forall x | x in tx'.delta.goneChannels :: HoldsChannel(db, tx', x);
    assert forall m | m in tx'.delta.gone :: HoldsMsg(db, tx', m);
    assert forall m | m in tx'.delta.puts :: FixesMsg(db, tx', m);
    assert ParentsOk(db, tx');
  }

  lemma VisitChannelKeepsPending(db: Db, born: set<Id>, tx: Tx, c: Id)
    requires tx.phase.Cascade? && tx.delta.newChannels == map[]
    requires DropPending(db, born, tx, tx.phase.pend, tx.phase.rows)
    requires ChannelRow(c) in tx.phase.rows && c in Apply(db, tx.delta).channels
    ensures var tx' := VisitRow(Apply(db, tx.delta), tx, ChannelRow(c));
            tx'.phase.Cascade? && DropPending(db, born, tx', tx'.phase.pend, tx'.phase.rows)
  {
    VisibleChannel(db, tx, c);
    var tx' := VisitRow(Apply(db, tx.delta), tx, ChannelRow(c));
    forall x | x in tx'.phase.rows ensures MayVisit(db, born, tx'.delta, x) { assert MayVisit(db, born, tx.delta, x); }
    forall x | x in tx'.phase.pend ensures IsDeleted(tx'.delta, x) {
      assert x != ChannelRow(c) ==> IsDeleted(tx.delta, x);
    }
    assert forall m | m in db.msgs && Due(tx'.delta, tx'.phase.pend, db.msgs[m]) ::
        Due(tx.delta, tx.phase.pend, db.msgs[m]);
  }

  // ---------------------------------------------------------------- passing a row over

  lemma SkipKeepsPending(db: Db, born: set<Id>, tx: Tx, r: Row)
    requires tx.phase.Cascade? && tx.delta.newChannels == map[] && OnlyRecounts(db, tx.delta)
    requires DropPending(db, born, tx, tx.phase.pend, tx.phase.rows)
    requires r in tx.phase.rows && !Visible(Apply(db, tx.delta), r)
    ensures DropPending(db, born, tx.(phase := tx.phase.(rows := tx.phase.rows - {r})),
                        tx.phase.pend, tx.phase.rows - {r})
  {
    assert MayVisit(db, born, tx.delta, r);
    match r
    case ChannelRow(c) => VisibleChannel(db, tx, c);
    case MsgRow(m) => VisibleMsg(db, tx, m);
  }

  // ---------------------------------------------------------------- running a decrement

  /** The CHECK (reply_count >= 0) never fails. */
  lemma CountStaysPositive(db: Db, tx: Tx, decs: map<Id, Id>, d: Id)
    requires CountsOk(db.msgs) && OnlyRecounts(db, tx.delta) && DropCounts(db, tx, decs)
    requires d in decs && decs[d] in Apply(db, tx.delta).msgs
    ensures Apply(db, tx.delta).msgs[decs[d]].count >= 1
  {
    var m := decs[d];
    VisibleMsg(db, tx, m);
    VisibleCount(db, tx, decs, m);
    var counted := Counted(db.msgs, tx.delta.gone, decs, m);
    assert counted <= Replies(db.msgs, m) - {d};
    Cardinality(counted, Replies(db.msgs, m) - {d});
  }

  lemma CountedAfter(db: Db, tx: Tx, d: Id, x: Id)
    requires tx.phase.Cascade? && d in tx.phase.decs && DropCounts(db, tx, tx.phase.decs)
    ensures var decs := tx.phase.decs;
            |Counted(db.msgs, tx.delta.gone, decs - {d}, x)|
            == |Counted(db.msgs, tx.delta.gone, decs, x)| + (if x == decs[d] then 1 else 0)
  {
    var decs: map<Id, Id> := tx.phase.decs;
    var decs': map<Id, Id> := decs - {d};
    assert Counted(db.msgs, tx.delta.gone, decs', x)
        == Counted(db.msgs, tx.delta.gone, decs, x) + (if x == decs[d] then {d} else {});
  }

  lemma SubtractKeeps(db: Db, tx: Tx, d: Id)
    requires KeysHold(db) && tx.phase.Cascade? && d in tx.phase.decs
    requires OnlyRecounts(db, tx.delta) && DropCounts(db, tx, tx.phase.decs)
    requires Subtract(Apply(db, tx.delta), tx, d).Continue?
    ensures var tx' := Subtract(Apply(db, tx.delta), tx, d).tx;
            tx'.phase.Cascade? && OnlyRecounts(db, tx'.delta) && DropCounts(db, tx', tx'.phase.decs)
  {
    var m := tx.phase.decs[d];
    var tx' := Subtract(Apply(db, tx.delta), tx, d).tx;
    VisibleMsg(db, tx, m);
    if m in Apply(db, tx.delta).msgs { VisibleCount(db, tx, tx.phase.decs, m); }
    forall x ensures |Counted(db.msgs, tx.delta.gone, tx.phase.decs - {d}, x)|
            == |Counted(db.msgs, tx.delta.gone, tx.phase.decs, x)| + (if x == m then 1 else 0)
    {
      CountedAfter(db, tx, d, x);
    }
    hide Counted, KeysHold;
  }

  lemma SubtractKeepsRows(db: Db, tx: Tx, d: Id)
    requires tx.phase.Cascade? && d in tx.phase.decs && DropRows(db, tx)
    requires Subtract(Apply(db, tx.delta), tx, d).Continue?
    requires OnlyRecounts(db, Subtract(Apply(db, tx.delta), tx, d).tx.delta)
    ensures DropRows(db, Subtract(Apply(db, tx.delta), tx, d).tx)
  {
    hide Grounded;
    var tx' := Subtract(Apply(db, tx.delta), tx, d).tx;
    MoreChannelsKeepGrounded(db, tx, tx');
    VisibleMsg(db, tx, tx.phase.decs[d]);
    assert forall m | m in tx'.delta.gone :: HoldsMsg(db, tx', m);
    assert forall m | m in tx'.delta.puts :: FixesMsg(db, tx', m);
    assert ParentsOk(db, tx') && ChannelsOk(db, tx');
  }

  // ---------------------------------------------------------------- one step of a cascade

  ghost predicate Running(db: Db, born: set<Id>, tx: Tx) {
    tx.phase.Cascade? && tx.delta.goneUsers == {} && DropOk(db, born, tx, tx.phase.pend, tx.phase.rows, tx.phase.decs)
  }

  /** DropRows and DropCounts look at what is deleted and locked only. */
  lemma SameDeletes(db: Db, tx: Tx, phase: Phase, decs: map<Id, Id>)
    ensures DropRows(db, tx) ==> DropRows(db, tx.(phase := phase))
    ensures DropCounts(db, tx, decs) ==> DropCounts(db, tx.(phase := phase), decs)
  {
    hide Reach;
    assert Grounded(db, tx) ==> Grounded(db, tx.(phase := phase));
  }

  lemma PendingSameDeletes(db: Db, born: set<Id>, tx: Tx, tx': Tx, pend: set<Row>, rows: set<Row>)
    requires DropPending(db, born, tx, pend, rows)
    requires tx'.delta.gone == tx.delta.gone && tx'.delta.goneChannels == tx.delta.goneChannels
    requires tx'.delta.goneWs == tx.delta.goneWs
    ensures DropPending(db, born, tx', pend, rows)
  {
    forall p | p in pend ensures IsDeleted(tx'.delta, p) { assert IsDeleted(tx.delta, p); }
    forall r | r in rows ensures MayVisit(db, born, tx'.delta, r) { assert MayVisit(db, born, tx.delta, r); }
  }

  lemma NoNewChannels(db: Db, tx: Tx)
    requires DropRows(db, tx)
    ensures tx.delta.newChannels == map[] && OnlyRecounts(db, tx.delta)
  {
    hide Grounded;
  }

  lemma ParentKeeps(db: Db, born: set<Id>, tx: Tx, p: Row)
    requires Stored(db) <= born && Running(db, born, tx) && tx.phase.rows == {} && p in tx.phase.pend
    ensures Running(db, born, StartCascade(Apply(db, tx.delta), tx, p))
  {
    hide DropRows, DropCounts, DropPending, OnlyRecounts, Stored, Apply, Referring;
    NoNewChannels(db, tx);
    var tx' := StartCascade(Apply(db, tx.delta), tx, p);
    StartCascadeKeeps(db, born, tx, tx.phase.pend, p);
    SameDeletes(db, tx, tx'.phase, tx.phase.decs);
    PendingSameDeletes(db, born, tx, tx', tx'.phase.pend, tx'.phase.rows);
  }

  lemma ChildKeeps(db: Db, born: set<Id>, tx: Tx, r: Row)
    requires Running(db, born, tx) && r in tx.phase.rows
    ensures Running(db, born, VisitRow(Apply(db, tx.delta), tx, r))
  {
    NoNewChannels(db, tx);
    assert MayVisit(db, born, tx.delta, r);
    hide DropRows, DropCounts, DropPending, OnlyRecounts, Apply, MayVisit, InScope;
    if !Visible(Apply(db, tx.delta), r) {
      SkipKeepsPending(db, born, tx, r);
      SameDeletes(db, tx, tx.phase.(rows := tx.phase.rows - {r}), tx.phase.decs);
    } else {
      VisibleChildKeeps(db, born, tx, r);
    }
  }

  lemma VisibleChildKeeps(db: Db, born: set<Id>, tx: Tx, r: Row)
    requires Running(db, born, tx) && r in tx.phase.rows && Visible(Apply(db, tx.delta), r)
    ensures Running(db, born, VisitRow(Apply(db, tx.delta), tx, r))
  {
    NoNewChannels(db, tx);
    assert MayVisit(db, born, tx.delta, r);
    hide DropRows, DropCounts, DropPending, OnlyRecounts, Apply, InScope;
    match r
    case ChannelRow(c) =>
      InTables(db, tx, r);
      VisitChannelKeepsRows(db, tx, c);
      VisitChannelKeepsPending(db, born, tx, c);
      CountsSameMsgs(db, tx, VisitRow(Apply(db, tx.delta), tx, r), tx.phase.decs);
    case MsgRow(m) =>
      InTables(db, tx, r);
      VisitMsgKeepsRows(db, tx, m);
      VisitMsgKeepsCounts(db, tx, m);
      VisitMsgKeepsPending(db, born, tx, m);
  }

  lemma InTables(db: Db, tx: Tx, r: Row)
    requires tx.delta.newChannels == map[] && OnlyRecounts(db, tx.delta)
    requires Visible(Apply(db, tx.delta), r)
    ensures r.ChannelRow? ==> r.channel in db.channels
    ensures r.MsgRow? ==> r.id in db.msgs
  {
  }

  lemma CountsSameMsgs(db: Db, tx: Tx, tx': Tx, decs: map<Id, Id>)
    requires DropCounts(db, tx, decs) && tx'.delta.gone == tx.delta.gone && tx'.delta.puts == tx.delta.puts
    ensures DropCounts(db, tx', decs)
  {
  }

  lemma DecrementKeeps(db: Db, born: set<Id>, tx: Tx, d: Id)
    requires KeysHold(db) && Running(db, born, tx) && d in tx.phase.decs
    requires Subtract(Apply(db, tx.delta), tx, d).Continue?
    ensures Running(db, born, Subtract(Apply(db, tx.delta), tx, d).tx)
  {
    hide DropRows, DropCounts, DropPending, OnlyRecounts, Apply, KeysHold;
    NoNewChannels(db, tx);
    var tx' := Subtract(Apply(db, tx.delta), tx, d).tx;
    SubtractKeeps(db, tx, d);
    SubtractKeepsRows(db, tx, d);
    PendingSameDeletes(db, born, tx, tx', tx.phase.pend, tx.phase.rows);
  }

  lemma CascadeKeeps(db: Db, born: set<Id>, tx: Tx, c: Choice)
    requires DbOk(db) && Stored(db) <= born && Running(db, born, tx)
    requires tx.phase.Cascade? && Advance(db, tx, c).Continue? && c != Only
    ensures var tx' := Advance(db, tx, c).tx; tx'.op == tx.op && Running(db, born, tx')
  {
    hide Running, Stored, CountsOk, KeysHold, Apply;
    match c
    case Parent(p) => ParentKeeps(db, born, tx, p);
    case Child(r) => ChildKeeps(db, born, tx, r);
    case Decrement(d) => DecrementKeeps(db, born, tx, d);
    case _ =>
  }

  lemma CascadeEnds(db: Db, born: set<Id>, tx: Tx, c: Choice)
    requires Running(db, born, tx) && c == Only && Advance(db, tx, c).Continue?
    ensures var tx' := Advance(db, tx, c).tx;
            && tx' == tx.(phase := if tx.op.DropUser? then DeleteUserRow else Ready)
            && DropDone(db, born, tx')
  {
    hide DropRows, DropCounts, DropPending, Apply;
    var tx' := Advance(db, tx, c).tx;
    SameDeletes(db, tx, tx'.phase, map[]);
    PendingSameDeletes(db, born, tx, tx', {}, {});
  }

  // ---------------------------------------------------------------- first statements

  lemma DropStarts(db: Db, born: set<Id>, tx: Tx)
    requires tx.op.Drop? && tx.op.id in db.msgs
    ensures Running(db, born, Start(db, tx).tx)
  {
    var tx' := Start(db, tx).tx;
    var here := Within(db.msgs, {tx.op.id});
    assert Seeds(here, tx.op, {}) * tx'.delta.gone == {tx.op.id};
    assert HoldsMsg(db, tx', tx.op.id);
    assert Grounded(db, tx');
    hide Grounded;
    assert DropRows(db, tx');
    assert DropCounts(db, tx', tx'.phase.decs);
    assert DropPending(db, born, tx', tx'.phase.pend, {});
  }

  lemma DropChannelStarts(db: Db, born: set<Id>, tx: Tx)
    requires tx.op.DropChannel? && tx.op.channel in db.channels
    ensures Running(db, born, Start(db, tx).tx)
  {
    var tx' := Start(db, tx).tx;
    assert HoldsChannel(db, tx', tx.op.channel);
    NothingGone(db, tx');
    hide MsgsOk, DropCounts;
    assert DropPending(db, born, tx', tx'.phase.pend, {});
  }

  lemma DropWorkspaceStarts(db: Db, born: set<Id>, tx: Tx)
    requires tx.op.DropWorkspace? && tx.op.ws in db.workspaces && db.workspaces[tx.op.ws] == tx.op.actor
    ensures Running(db, born, Start(db, tx).tx)
  {
    var tx' := Start(db, tx).tx;
    assert HoldsWs(db, tx', tx.op.ws);
    NothingGone(db, tx');
    hide MsgsOk, DropCounts;
    assert DropPending(db, born, tx', tx'.phase.pend, {});
  }

  lemma NothingGone(db: Db, tx: Tx)
    requires tx.delta.gone == {} && tx.delta.puts == map[]
    ensures MsgsOk(db, tx) && DropCounts(db, tx, map[])
  {
  }

  /** Once all owned workspaces are locked, their cascades start. */
  lemma OwnedLocked(db: Db, born: set<Id>, tx: Tx)
    requires tx.phase == LockOwned({}) && OwnedOk(db, born, tx, {})
    ensures Running(db, born, VisitOwned(db, tx, Only).tx)
  {
    var tx' := VisitOwned(db, tx, Only).tx;
    NothingGone(db, tx');
    hide MsgsOk, DropCounts;
    assert tx'.delta.goneWs == OwnedBy(db, tx.op.user);
    assert forall w | w in tx'.delta.goneWs :: HoldsWs(db, tx', w);
    assert forall c | c in db.channels && db.channels[c] in tx'.delta.goneWs :: WsRow(db.channels[c]) in tx'.phase.pend;
  }

  lemma LockOwnedKeeps(db: Db, born: set<Id>, tx: Tx, c: Choice)
    requires TxOk(db, born, tx) && tx.phase.LockOwned? && Advance(db, tx, c).Continue?
    ensures TxOk(db, born, Advance(db, tx, c).tx)
  {
    if tx.phase.todo == {} {
      OwnedLocked(db, born, tx);
    }
    hide DropOk;
  }

  lemma StartKeeps(db: Db, born: set<Id>, tx: Tx, c: Choice)
    requires TxOk(db, born, tx) && tx.phase.Begun? && Advance(db, tx, c).Continue?
    ensures TxOk(db, born, Advance(db, tx, c).tx)
  {
    hide DropOk;
    match tx.op
    case Drop(_) => DropStarts(db, born, tx);
    case DropChannel(_) => DropChannelStarts(db, born, tx);
    case DropWorkspace(_, _) => DropWorkspaceStarts(db, born, tx);
    case _ =>
  }

  lemma FkKeeps(db: Db, born: set<Id>, tx: Tx, c: Choice)
    requires TxOk(db, born, tx) && (tx.phase.OwnerFk? || tx.phase.WorkspaceFk?)
    requires Advance(db, tx, c).Continue?
    ensures TxOk(db, born, Advance(db, tx, c).tx)
  {
    hide DropOk, WrittenOk;
    assert Apply(db, tx.delta).users == db.users;
    assert tx.phase.WorkspaceFk? ==> Apply(db, tx.delta).workspaces == db.workspaces;
  }

  lemma PostKeeps(db: Db, born: set<Id>, tx: Tx, c: Choice)
    requires TxOk(db, born, tx)
    requires tx.phase.AuthorFk? || tx.phase.ChannelFk? || tx.phase.RootFk? || tx.phase.Bump?
    requires Advance(db, tx, c).Continue?
    ensures TxOk(db, born, Advance(db, tx, c).tx)
  {
    hide DropOk, DropDone, OwnedOk, WrittenOk, OwnedBy, WrittenBy, NewMessage;
  }

  // ---------------------------------------------------------------- deleting the user row

  lemma SameDone(db: Db, born: set<Id>, tx: Tx, phase: Phase, gone: set<Id>)
    requires DropDone(db, born, tx) && tx.op.DropUser? && gone <= {tx.op.user}
    ensures DropDone(db, born, tx.(phase := phase, delta := tx.delta.(goneUsers := gone)))
  {
    var tx' := tx.(phase := phase, delta := tx.delta.(goneUsers := gone));
    hide Reach;
    assert Grounded(db, tx) ==> Grounded(db, tx');
    assert forall m | m in tx'.delta.gone :: HoldsMsg(db, tx', m);
    assert forall m | m in tx'.delta.puts :: FixesMsg(db, tx', m);
    assert forall x | x in tx'.delta.goneChannels :: HoldsChannel(db, tx', x);
    assert OnlyRecounts(db, tx'.delta) && DropCounts(db, tx', map[]);
    PendingSameDeletes(db, born, tx, tx', {}, {});
  }

  lemma WrittenFound(db: Db, born: set<Id>, tx: Tx)
    requires Stored(db) <= born && DropDone(db, born, tx) && tx.op.DropUser? && tx.delta.goneUsers == {tx.op.user}
    ensures WrittenOk(db, born, tx, WrittenBy(Apply(db, tx.delta).msgs, tx.op.user))
  {
    NoNewChannels(db, tx);
    hide DropDone, OnlyRecounts, Apply;
    forall m ensures m in Apply(db, tx.delta).msgs <==> m in db.msgs && m !in tx.delta.gone {
      VisibleMsg(db, tx, m);
    }
    forall m | m in Apply(db, tx.delta).msgs ensures Apply(db, tx.delta).msgs[m].author == db.msgs[m].author {
      VisibleMsg(db, tx, m);
    }
  }

  lemma DeleteUserKeeps(db: Db, born: set<Id>, tx: Tx, c: Choice)
    requires Stored(db) <= born && TxOk(db, born, tx) && (tx.phase.DeleteUserRow? || tx.phase.FindWritten?)
    requires Advance(db, tx, c).Continue?
    ensures TxOk(db, born, Advance(db, tx, c).tx)
  {
    hide DropDone, Apply;
    var tx' := Advance(db, tx, c).tx;
    SameDone(db, born, tx, tx'.phase, tx'.delta.goneUsers);
    if tx.phase.FindWritten? { WrittenFound(db, born, tx); }
  }

  lemma RestrictKeeps(db: Db, born: set<Id>, tx: Tx, c: Choice)
    requires TxOk(db, born, tx) && tx.phase.Restrict? && Advance(db, tx, c).Continue?
    ensures TxOk(db, born, Advance(db, tx, c).tx)
  {
    hide DropRows, DropCounts, DropPending, OnlyRecounts, Apply;
    var tx' := Advance(db, tx, c).tx;
    SameDone(db, born, tx, tx'.phase, tx'.delta.goneUsers);
    NoNewChannels(db, tx);
    if tx.phase.todo != {} { VisibleMsg(db, tx, c.id); }
    assert WrittenOk(db, born, tx', if tx'.phase.Restrict? then tx'.phase.todo else {});
  }

  // ---------------------------------------------------------------- any statement

  /** A statement that goes on leaves the transaction in order. */
  lemma AdvanceKeepsTxOk(db: Db, born: set<Id>, tx: Tx, c: Choice)
    requires DbOk(db) && Stored(db) <= born && TxOk(db, born, tx)
    requires Advance(db, tx, c).Continue?
    ensures TxOk(db, born, Advance(db, tx, c).tx)
  {
    match tx.phase
    case Begun => StartKeeps(db, born, tx, c);
    case OwnerFk => FkKeeps(db, born, tx, c);
    case WorkspaceFk => FkKeeps(db, born, tx, c);
    case FindOwned => FindOwnedKeeps(db, born, tx, c);
    case LockOwned(_) => LockOwnedKeeps(db, born, tx, c);
    case Cascade(_, _, _) => CascadeTxKeeps(db, born, tx, c);
    case DeleteUserRow => DeleteUserKeeps(db, born, tx, c);
    case FindWritten => DeleteUserKeeps(db, born, tx, c);
    case Restrict(_) => RestrictKeeps(db, born, tx, c);
    case Ready =>
    case _ => PostKeeps(db, born, tx, c);
  }

  lemma FindOwnedKeeps(db: Db, born: set<Id>, tx: Tx, c: Choice)
    requires Stored(db) <= born && TxOk(db, born, tx) && tx.phase.FindOwned? && Advance(db, tx, c).Continue?
    ensures TxOk(db, born, Advance(db, tx, c).tx)
  {
    hide DropOk;
    assert Apply(db, tx.delta).workspaces == db.workspaces;
  }

  lemma CascadeTxKeeps(db: Db, born: set<Id>, tx: Tx, c: Choice)
    requires DbOk(db) && Stored(db) <= born && TxOk(db, born, tx) && tx.phase.Cascade?
    requires Advance(db, tx, c).Continue?
    ensures TxOk(db, born, Advance(db, tx, c).tx)
  {
    hide DbOk, Stored, DropRows, DropCounts, DropPending, Apply;
    OnlyDropsCascade(db, tx);
    if c == Only {
      CascadeEnds(db, born, tx, c);
    } else {
      CascadeKeeps(db, born, tx, c);
    }
  }

  lemma OnlyDropsCascade(db: Db, tx: Tx)
    requires DropRows(db, tx)
    ensures tx.op.Drop? || tx.op.DropChannel? || tx.op.DropWorkspace? || tx.op.DropUser?
  {
    hide ChannelsOk, MsgsOk;
  }

  // ---------------------------------------------------------------- error answers

  lemma DecrementIsSafe(db: Db, tx: Tx, d: Id)
    requires CountsOk(db.msgs) && tx.phase.Cascade? && d in tx.phase.decs
    requires OnlyRecounts(db, tx.delta) && DropCounts(db, tx, tx.phase.decs)
    ensures !Subtract(Apply(db, tx.delta), tx, d).Return?
  {
    if tx.phase.decs[d] in Apply(db, tx.delta).msgs {
      CountStaysPositive(db, tx, tx.phase.decs, d);
    }
  }

  lemma CascadeNeverFails(db: Db, born: set<Id>, tx: Tx, c: Choice)
    requires CountsOk(db.msgs) && TxOk(db, born, tx) && tx.phase.Cascade?
    ensures !Advance(db, tx, c).Return?
  {
    hide DropRows, DropCounts, DropPending, CountsOk, OnlyRecounts, Apply, Subtract;
    NoNewChannels(db, tx);
    if c.Decrement? && c.id in tx.phase.decs { DecrementIsSafe(db, tx, c.id); }
  }

  /** A message that stops the deletion of its author's account is outside everything that goes with it. */
  lemma RestrictIsVerdict(db: Db, born: set<Id>, tx: Tx, c: Choice)
    requires TxOk(db, born, tx) && tx.phase.Restrict? && Advance(db, tx, c).Return?
    ensures Advance(db, tx, c).outcome == Restricted == Verdict(tx.op, db)
  {
    hide DropRows, DropCounts, DropPending, WithoutWorkspaces, OnlyRecounts, Apply;
    WithoutOwnedVisible(db, born, tx);
    NoNewChannels(db, tx);
    VisibleMsg(db, tx, c.id);
    UserIsHeld(db, tx);
    assert c.id in WrittenBy(Apply(db, tx.delta).msgs, tx.op.user);
  }

  lemma UserIsHeld(db: Db, tx: Tx)
    requires DropRows(db, tx) && tx.op.DropUser?
    ensures tx.op.user in db.users
  {
    hide ChannelsOk, MsgsOk;
  }

  lemma StartReturnIsVerdict(db: Db, born: set<Id>, tx: Tx, c: Choice)
    requires TxOk(db, born, tx) && tx.phase.Begun? && Advance(db, tx, c).Return?
    ensures Advance(db, tx, c).outcome == Verdict(tx.op, db) != Done
  {
    hide WithoutWorkspaces;
  }

  lemma MakeReturnIsVerdict(db: Db, born: set<Id>, tx: Tx, c: Choice)
    requires TxOk(db, born, tx) && (tx.phase.OwnerFk? || tx.phase.WorkspaceFk?) && Advance(db, tx, c).Return?
    ensures Advance(db, tx, c).outcome == Verdict(tx.op, db) != Done
  {
    hide WithoutWorkspaces;
    assert Apply(db, tx.delta).users == db.users;
    assert tx.phase.WorkspaceFk? ==> Apply(db, tx.delta).workspaces == db.workspaces;
  }

  lemma PostReturnIsVerdict(db: Db, born: set<Id>, tx: Tx, c: Choice)
    requires TxOk(db, born, tx) && Advance(db, tx, c).Return?
    requires tx.phase.AuthorFk? || tx.phase.ChannelFk? || tx.phase.RootFk?
    ensures Advance(db, tx, c).outcome == Verdict(tx.op, db) != Done
  {
    hide WithoutWorkspaces;
    var v := Apply(db, tx.delta);
    assert v.users == db.users && v.channels == db.channels;
    assert forall m | m in v.msgs :: m in db.msgs || m == tx.op.id;
  }

  /** An error answer is the one the call would give if it ran alone on the current tables;
      in particular no trigger ever violates the CHECK on reply_count. */
  lemma ReturnIsVerdict(db: Db, born: set<Id>, tx: Tx, c: Choice)
    requires DbOk(db) && TxOk(db, born, tx) && Advance(db, tx, c).Return?
    ensures Advance(db, tx, c).outcome == Verdict(tx.op, db) != Done
  {
    hide KeysHold, Verdict, DropOk, DropDone, OwnedOk, ReadyOk, Apply;
    match tx.phase
    case Begun => StartReturnIsVerdict(db, born, tx, c);
    case OwnerFk => MakeReturnIsVerdict(db, born, tx, c);
    case WorkspaceFk => MakeReturnIsVerdict(db, born, tx, c);
    case Cascade(_, _, _) => CascadeNeverFails(db, born, tx, c);
    case Restrict(_) => RestrictIsVerdict(db, born, tx, c);
    case AuthorFk => PostReturnIsVerdict(db, born, tx, c);
    case ChannelFk => PostReturnIsVerdict(db, born, tx, c);
    case RootFk => PostReturnIsVerdict(db, born, tx, c);
    case _ =>
  }
}
