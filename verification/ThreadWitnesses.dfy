/** Runs that deadlock, one for each part of the condition under which none can: crossing threads, the
    delete of a root and of its reply, and two account deletions. */
module ThreadWitnesses {
  import opened Base
  import opened RowLocks
  import opened Entities
  import opened ThreadModel
  import opened ThreadInvariant
  import opened ThreadTheorems
  import opened ThreadLocks
  import opened ThreadWaiting
  import opened ThreadProgress

  ghost predicate Reachable(s: State) {
    exists ss, ls :: IsRun(ss, ls) && ss[|ls|] == s
  }

  lemma StepReaches(s: State, l: Label, s': State)
    requires Reachable(s) && Next(s, l, s')
    ensures Reachable(s')
  {
    hide Next;
    var ss, ls :| IsRun(ss, ls) && ss[|ls|] == s;
    JoinPaths(ss, ls, [s, s'], [l]);
    assert IsRun(ss + [s, s'][1..], ls + [l]);
  }

  lemma PathReaches(s: State, ss: seq<State>, ls: seq<Label>)
    requires Reachable(s) && IsPath(ss, ls) && ss[0] == s
    ensures Reachable(ss[|ls|])
  {
    hide Next;
    var before, labels :| IsRun(before, labels) && before[|labels|] == s;
    JoinPaths(before, labels, ss, ls);
    assert IsRun(before + ss[1..], labels + ls);
  }

  /** No call is open, and everything is as after some run. */
  ghost predicate Quiet(s: State) {
    Reachable(s) && InOrder(s) && s.txs == map[]
  }

  /** One call run on its own, from begin to commit or error. */
  lemma CallAlone(s: State, op: Op) returns (s': State)
    requires Quiet(s) && Reserved(op) !! s.born && (op.Post? ==> op.root != Some(op.id))
    ensures Quiet(s') && s'.db == Effect(op, s.db) && s'.born <= s.born + Reserved(op)
  {
    hide InOrder, Reachable, Effect, NothingNew;
    var s1 := s.(txs := map[0 := Tx(op, Begun, {}, NODELTA)]);
    assert Next(s, Begin(0, op), s1);
    BeginIsInOrder(s, op, s1);
    StepReaches(s, Begin(0, op), s1);
    var ss, ls := RunOn(s1, 0);
    s' := ss[|ls|];
    PathReaches(s1, ss, ls);
    NobodyElse(s1, s');
    var o :| s'.log == s.log + [Event(op, o)];
    OneMoreCall(s, s', Event(op, o));
  }

  lemma BeginIsInOrder(s: State, op: Op, s1: State)
    requires InOrder(s) && Next(s, Begin(0, op), s1)
    ensures InOrder(s1)
  {
    hide Inv, LocksKnown, Next;
    NextKeepsInv(s, Begin(0, op), s1);
    NextKeepsKnown(s, Begin(0, op), s1);
  }

  lemma NobodyElse(s: State, s': State)
    requires s.txs.Keys == {0} && (Finished(s, 0, s') || Halted(s, 0, s'))
    ensures Finished(s, 0, s')
  {
    hide Level;
  }

  lemma OneMoreCall(s: State, s': State, e: Event)
    requires InOrder(s) && InOrder(s') && s'.log == s.log + [e]
    ensures s'.db == Effect(e.op, s.db)
  {
    hide DbOk, TxOk, Stored, Apart, Faithful, LocksKnown, Effect;
    assert s'.log[..|s.log|] == s.log;
  }

  /** The state s with one more open transaction. */
  function With(s: State, t: Tid, tx: Tx): State {
    s.(txs := s.txs[t := tx])
  }

  predicate Free(s: State, t: Tid, tx: Tx, c: Choice) {
    Request(s.db, tx, c).Some? ==>
      forall o, l | o in s.txs && o != t && l in s.txs[o].held :: !Clash(Request(s.db, tx, c).value, l)
  }

  lemma Starts(s: State, t: Tid, op: Op)
    requires Reachable(s) && t !in s.txs && Reserved(op) == {} && !op.Post?
    ensures Reachable(With(s, t, Tx(op, Begun, {}, NODELTA)))
  {
    StepReaches(s, Begin(t, op), With(s, t, Tx(op, Begun, {}, NODELTA)));
  }

  lemma GoesOn(s: State, t: Tid, tx: Tx, c: Choice, tx': Tx)
    requires Reachable(With(s, t, tx)) && Free(s, t, tx, c)
    requires Advance(s.db, tx, c) == Continue(tx')
    ensures Reachable(With(s, t, tx'))
  {
    hide Advance, Request, Reachable;
    var now := With(s, t, tx);
    assert forall o | o in now.txs && o != t :: now.txs[o] == s.txs[o];
    assert Granted(now, t, c);
    assert With(s, t, tx') == now.(txs := now.txs[t := tx']);
    StepReaches(now, Act(t, c), With(s, t, tx'));
  }

  // ---------------------------------------------------------------- single statements of a delete

  lemma QueryStarts(s: State, t: Tid, tx: Tx, p: Row, rows: set<Row>)
    requires Reachable(With(s, t, tx)) && tx.phase.Cascade? && tx.phase.rows == {} && p in tx.phase.pend
    requires Referring(Apply(s.db, tx.delta), p) == rows
    ensures Reachable(With(s, t, tx.(phase := Cascade(tx.phase.pend - {p}, rows, tx.phase.decs))))
  {
    hide Reachable, Apply, Referring;
    GoesOn(s, t, tx, Parent(p), tx.(phase := Cascade(tx.phase.pend - {p}, rows, tx.phase.decs)));
  }

  /** A transaction in the middle of its cascades that has recounted nothing. */
  function Deleter(op: Op, held: set<Lock<Row>>, d: Delta, gone: set<Id>, pend: set<Row>, rows: set<Row>,
                   decs: map<Id, Id>): Tx
  {
    Tx(op, Cascade(pend, rows, decs), held, d.(gone := gone))
  }

  lemma MsgGoes(s: State, t: Tid, op: Op, held: set<Lock<Row>>, d: Delta, gone: set<Id>, pend: set<Row>, rows: set<Row>,
                decs: map<Id, Id>, m: Id, rest: set<Row>, decs': map<Id, Id>)
    requires Reachable(With(s, t, Deleter(op, held, d, gone, pend, rows, decs)))
    requires m in s.db.msgs && m !in gone && d.puts == map[] && rows == rest + {MsgRow(m)} && MsgRow(m) !in rest
    requires decs' == decs + Pending(m, s.db.msgs[m])
    requires forall o, l | o in s.txs && o != t && l in s.txs[o].held :: l.row != MsgRow(m)
    ensures Reachable(With(s, t, Deleter(op, held + {ForUpdate(MsgRow(m))}, d, gone + {m}, pend + {MsgRow(m)},
                                         rest, decs')))
  {
    hide Reachable;
    var tx := Deleter(op, held, d, gone, pend, rows, decs);
    var v := Apply(s.db, tx.delta);
    assert m in v.msgs && v.msgs[m] == s.db.msgs[m];
    hide Apply;
    var tx' := Deleter(op, held + {ForUpdate(MsgRow(m))}, d, gone + {m}, pend + {MsgRow(m)}, rest, decs');
    assert rows - {MsgRow(m)} == rest && d.puts - {m} == d.puts;
    GoesOn(s, t, tx, Child(MsgRow(m)), tx');
  }

  // ---------------------------------------------------------------- tables to start from

  const OWNERS: map<Id, Id> := map[10 := 1, 11 := 2]

  /** Two users, each with a workspace. */
  lemma TwoOwners() returns (s: State)
    ensures Quiet(s) && s.db == Db({1, 2}, OWNERS, map[], map[]) && s.born <= {1, 2, 10, 11}
  {
    hide Inv, LocksKnown;
    assert IsRun([INIT], []);
    InvAt([INIT], [], 0);
    LocksKnownAt([INIT], [], 0);
    assert Quiet(INIT);
    hide Quiet;
    s := CallAlone(INIT, Register(1));
    s := CallAlone(s, Register(2));
    s := CallAlone(s, MakeWorkspace(1, 10));
    s := CallAlone(s, MakeWorkspace(2, 11));
    assert s.db.workspaces == OWNERS;
  }

  /** Channel 20 in workspace 10, channel 21 in workspace w. */
  lemma TwoChannels(w: Id) returns (s: State)
    requires w in OWNERS
    ensures Quiet(s) && s.db == Db({1, 2}, OWNERS, map[20 := 10, 21 := w], map[])
    ensures s.born <= {1, 2, 10, 11, 20, 21}
  {
    hide Quiet;
    s := TwoOwners();
    s := CallAlone(s, MakeChannel(10, 20));
    s := CallAlone(s, MakeChannel(w, 21));
    assert s.db.channels == map[20 := 10, 21 := w];
  }

  function Text(author: Id, channel: Id, root: Option<Id>, count: int): Message {
    Message(author, channel, "text", root, count, 0, 0)
  }

  lemma PostAlone(s: State, id: Id, author: Id, channel: Id, root: Option<Id>) returns (s': State)
    requires Quiet(s) && id !in s.born && author in s.db.users && channel in s.db.channels && root != Some(id)
    requires root.Some? ==> root.value in s.db.msgs
    ensures Quiet(s') && s'.born <= s.born + {id}
    ensures s'.db == s.db.(msgs := Posted(s.db.msgs, id, Text(author, channel, root, 0)))
  {
    hide Quiet, Posted;
    s' := CallAlone(s, Post(id, author, channel, root, "text", 0));
  }

  /** A root in each channel, each with a reply in the other channel. */
  lemma CrossingThreads(w: Id) returns (s: State)
    requires w in OWNERS
    ensures Quiet(s) && s.db.users == {1, 2} && s.db.workspaces == OWNERS && s.db.channels == map[20 := 10, 21 := w]
    ensures s.db.msgs == map[30 := Text(1, 20, None, 1), 31 := Text(1, 21, Some(30), 0),
                             32 := Text(1, 21, None, 1), 33 := Text(1, 20, Some(32), 0)]
  {
    hide Quiet;
    s := TwoChannels(w);
    s := PostAlone(s, 30, 1, 20, None);
    s := PostAlone(s, 31, 1, 21, Some(30));
    s := PostAlone(s, 32, 1, 21, None);
    s := PostAlone(s, 33, 1, 20, Some(32));
  }

  // ---------------------------------------------------------------- crossing threads

  /** The thread of a is in channel c but for its reply y, and b there replies to x, which is not. */
  predicate Crossing(msgs: map<Id, Message>, c: Id, a: Id, b: Id, x: Id, y: Id) {
    && a != b && a != x && a != y && b != x && b != y && x != y
    && msgs.Keys == {a, b, x, y}
    && msgs[a].channel == c && msgs[a].root == None
    && msgs[b].channel == c && msgs[b].root == Some(x)
    && msgs[x].channel != c && msgs[x].root == None
    && msgs[y].channel != c && msgs[y].root == Some(a)
  }

  /** A deletion that has deleted channel c and the messages a and b in it, and found the reply y to a. */
  function Crossed(op: Op, held: set<Lock<Row>>, d: Delta, a: Id, b: Id, x: Id, y: Id): Tx {
    Tx(op, Cascade({MsgRow(b)}, {MsgRow(y)}, map[b := x]),
       held + {ForUpdate(MsgRow(a))} + {ForUpdate(MsgRow(b))}, d.(gone := {a, b}))
  }

  lemma FindsInChannel(db: Db, d: Delta, c: Id, a: Id, b: Id, x: Id, y: Id)
    requires Crossing(db.msgs, c, a, b, x, y) && d.puts == map[] && d.gone == {}
    ensures Referring(Apply(db, d), ChannelRow(c)) == {MsgRow(a), MsgRow(b)}
  {
    assert Apply(db, d).msgs == db.msgs;
  }

  lemma FindsReply(db: Db, d: Delta, c: Id, a: Id, b: Id, x: Id, y: Id)
    requires Crossing(db.msgs, c, a, b, x, y) && d.puts == map[] && d.gone == {a, b}
    ensures Referring(Apply(db, d), MsgRow(a)) == {MsgRow(y)}
  {
    assert Apply(db, d).msgs.Keys == {x, y};
  }

  lemma TakesThread(s: State, t: Tid, op: Op, held: set<Lock<Row>>, d: Delta, c: Id, a: Id, b: Id, x: Id, y: Id)
    requires Reachable(With(s, t, Tx(op, Cascade({ChannelRow(c)}, {}, map[]), held, d)))
    requires Crossing(s.db.msgs, c, a, b, x, y) && d.gone == {} && d.puts == map[]
    requires forall o, l | o in s.txs && o != t && l in s.txs[o].held :: l.row != MsgRow(a) && l.row != MsgRow(b)
    ensures Reachable(With(s, t, Crossed(op, held, d, a, b, x, y)))
  {
    hide Reachable, Apply, Referring;
    var h1 := held + {ForUpdate(MsgRow(a))};
    var h2 := h1 + {ForUpdate(MsgRow(b))};
    assert d.(gone := {}) == d;
    FindsInChannel(s.db, d, c, a, b, x, y);
    QueryStarts(s, t, Deleter(op, held, d, {}, {ChannelRow(c)}, {}, map[]), ChannelRow(c), {MsgRow(a), MsgRow(b)});
    assert {ChannelRow(c)} - {ChannelRow(c)} == {};
    MsgGoes(s, t, op, held, d, {}, {}, {MsgRow(a), MsgRow(b)}, map[], a, {MsgRow(b)}, map[]);
    assert {} + {a} == {a} && {} + {MsgRow(a)} == {MsgRow(a)};
    MsgGoes(s, t, op, h1, d, {a}, {MsgRow(a)}, {MsgRow(b)}, map[], b, {}, map[b := x]);
    assert {a} + {b} == {a, b} && {MsgRow(a)} + {MsgRow(b)} == {MsgRow(a), MsgRow(b)};
    FindsReply(s.db, d.(gone := {a, b}), c, a, b, x, y);
    QueryStarts(s, t, Deleter(op, h2, d, {a, b}, {MsgRow(a), MsgRow(b)}, {}, map[b := x]), MsgRow(a), {MsgRow(y)});
    assert {MsgRow(a), MsgRow(b)} - {MsgRow(a)} == {MsgRow(b)};
  }

  /** Once both have crossed, each needs the reply and the root the other has deleted. */
  lemma CrossedIsStuck(s: State, t: Tid, o: Tid, c: Id, a: Id, b: Id, x: Id, y: Id, held: set<Lock<Row>>, d: Delta)
    requires s.txs.Keys == {t, o} && t != o && Crossing(s.db.msgs, c, a, b, x, y)
    requires s.txs[t] == Crossed(s.txs[t].op, held, d, a, b, x, y) && d.puts == map[]
    requires ForUpdate(MsgRow(x)) in s.txs[o].held && ForUpdate(MsgRow(y)) in s.txs[o].held
    ensures Waits(s, t, o) && forall choice, s' :: !Next(s, Act(t, choice), s')
  {
    var tx := s.txs[t];
    assert Apply(s.db, tx.delta).msgs.Keys == {x, y};
    assert Clash(ForUpdate(MsgRow(y)), ForUpdate(MsgRow(y)));
    assert Clash(ForNoKeyUpdate(MsgRow(x)), ForUpdate(MsgRow(x)));
    assert Blocks(s, t, Child(MsgRow(y)), o);
    assert Blocks(s, t, Decrement(b), o);
    hide Apply, Blocks;
    forall choice, s' ensures !Next(s, Act(t, choice), s') {
      if choice != Child(MsgRow(y)) && choice != Decrement(b) {
        assert Advance(s.db, tx, choice) == Stuck;
      }
    }
  }

  /** The two deletions of the channels 20 and 21, with their threads crossing, after each has taken its own. */
  ghost predicate BothStuck(s: State) {
    && s.txs.Keys == {0, 1}
    && Waits(s, 0, 1) && Waits(s, 1, 0)
    && forall t, c, s' | t in s.txs :: !Next(s, Act(t, c), s')
  }

  lemma BothCrossed(s: State, op0: Op, held0: set<Lock<Row>>, d0: Delta, op1: Op, held1: set<Lock<Row>>, d1: Delta)
    requires Crossing(s.db.msgs, 20, 30, 33, 32, 31) && Crossing(s.db.msgs, 21, 32, 31, 30, 33)
    requires s.txs == map[0 := Crossed(op0, held0, d0, 30, 33, 32, 31), 1 := Crossed(op1, held1, d1, 32, 31, 30, 33)]
    requires d0.puts == map[] && d1.puts == map[]
    ensures BothStuck(s)
  {
    hide Next, Waits;
    CrossedIsStuck(s, 0, 1, 20, 30, 33, 32, 31, held0, d0);
    CrossedIsStuck(s, 1, 0, 21, 32, 31, 30, 33, held1, d1);
  }

  /** A workspace with one channel, up to the cascade into its messages. */
  lemma TakesWorkspace(s: State, t: Tid, actor: Id, w: Id, c: Id)
    requires Reachable(s) && t !in s.txs && w in s.db.workspaces && s.db.workspaces[w] == actor
    requires forall x :: x in s.db.channels && s.db.channels[x] == w <==> x == c
    requires forall o, l | o in s.txs && l in s.txs[o].held :: l.row != WsRow(w) && l.row != ChannelRow(c)
    ensures Reachable(With(s, t, Tx(DropWorkspace(actor, w), Cascade({ChannelRow(c)}, {}, map[]),
                                    {ForUpdate(WsRow(w)), ForUpdate(ChannelRow(c))},
                                    NODELTA.(goneWs := {w}, goneChannels := {c}))))
  {
    hide Reachable;
    var op := DropWorkspace(actor, w);
    var tx1 := Tx(op, Cascade({WsRow(w)}, {}, map[]), {ForUpdate(WsRow(w))}, NODELTA.(goneWs := {w}));
    Starts(s, t, op);
    GoesOn(s, t, Tx(op, Begun, {}, NODELTA), Only, tx1);
    assert Apply(s.db, tx1.delta).channels == s.db.channels && Referring(s.db, WsRow(w)) == {ChannelRow(c)};
    QueryStarts(s, t, tx1, WsRow(w), {ChannelRow(c)});
    assert {WsRow(w)} - {WsRow(w)} == {};
    TakesItsChannel(s, t, op, {ForUpdate(WsRow(w))}, NODELTA.(goneWs := {w}), c);
    assert {ForUpdate(WsRow(w))} + {ForUpdate(ChannelRow(c))} == {ForUpdate(WsRow(w)), ForUpdate(ChannelRow(c))};
  }

  lemma TakesItsChannel(s: State, t: Tid, op: Op, held: set<Lock<Row>>, d: Delta, c: Id)
    requires Reachable(With(s, t, Tx(op, Cascade({}, {ChannelRow(c)}, map[]), held, d)))
    requires c in s.db.channels && d.goneChannels == {} && d.newChannels == map[]
    requires forall o, l | o in s.txs && o != t && l in s.txs[o].held :: l.row != ChannelRow(c)
    ensures Reachable(With(s, t, Tx(op, Cascade({ChannelRow(c)}, {}, map[]), held + {ForUpdate(ChannelRow(c))},
                                    d.(goneChannels := {c}))))
  {
    hide Reachable;
    var tx2 := Tx(op, Cascade({}, {ChannelRow(c)}, map[]), held, d);
    var tx3 := Tx(op, Cascade({ChannelRow(c)}, {}, map[]), held + {ForUpdate(ChannelRow(c))}, d.(goneChannels := {c}));
    assert c in Apply(s.db, tx2.delta).channels;
    hide Apply;
    assert {} + {ChannelRow(c)} == {ChannelRow(c)} && {ChannelRow(c)} - {ChannelRow(c)} == {} && {} + {c} == {c};
    GoesOn(s, t, tx2, Child(ChannelRow(c)), tx3);
  }

  lemma TakesChannel(s: State, t: Tid, c: Id)
    requires Reachable(s) && t !in s.txs && c in s.db.channels
    requires forall o, l | o in s.txs && l in s.txs[o].held :: l.row != ChannelRow(c)
    ensures Reachable(With(s, t, Tx(DropChannel(c), Cascade({ChannelRow(c)}, {}, map[]), {ForUpdate(ChannelRow(c))},
                                    NODELTA.(goneChannels := {c}))))
  {
    hide Reachable;
    Starts(s, t, DropChannel(c));
    GoesOn(s, t, Tx(DropChannel(c), Begun, {}, NODELTA), Only,
           Tx(DropChannel(c), Cascade({ChannelRow(c)}, {}, map[]), {ForUpdate(ChannelRow(c))},
              NODELTA.(goneChannels := {c})));
  }

  /** Nobody else has locked a row of this kind. */
  predicate Clear(s: State, t: Tid, rows: set<Row>) {
    forall o, l | o in s.txs && o != t && l in s.txs[o].held :: l.row !in rows
  }

  function WsCrossed(actor: Id, w: Id, c: Id, a: Id, b: Id, x: Id, y: Id): Tx {
    Crossed(DropWorkspace(actor, w), {ForUpdate(WsRow(w)), ForUpdate(ChannelRow(c))},
            NODELTA.(goneWs := {w}, goneChannels := {c}), a, b, x, y)
  }

  function ChannelCrossed(c: Id, a: Id, b: Id, x: Id, y: Id): Tx {
    Crossed(DropChannel(c), {ForUpdate(ChannelRow(c))}, NODELTA.(goneChannels := {c}), a, b, x, y)
  }

  lemma WorkspaceCrosses(s: State, t: Tid, actor: Id, w: Id, c: Id, a: Id, b: Id, x: Id, y: Id)
    requires Reachable(s) && t !in s.txs && w in s.db.workspaces && s.db.workspaces[w] == actor
    requires forall z :: z in s.db.channels && s.db.channels[z] == w <==> z == c
    requires Crossing(s.db.msgs, c, a, b, x, y)
    requires Clear(s, t, {WsRow(w), ChannelRow(c), MsgRow(a), MsgRow(b)})
    ensures Reachable(With(s, t, WsCrossed(actor, w, c, a, b, x, y)))
  {
    hide Reachable, Crossing, Crossed;
    TakesWorkspace(s, t, actor, w, c);
    TakesThread(s, t, DropWorkspace(actor, w), {ForUpdate(WsRow(w)), ForUpdate(ChannelRow(c))},
                NODELTA.(goneWs := {w}, goneChannels := {c}), c, a, b, x, y);
  }

  lemma ChannelCrosses(s: State, t: Tid, c: Id, a: Id, b: Id, x: Id, y: Id)
    requires Reachable(s) && t !in s.txs && c in s.db.channels
    requires Crossing(s.db.msgs, c, a, b, x, y)
    requires Clear(s, t, {ChannelRow(c), MsgRow(a), MsgRow(b)})
    ensures Reachable(With(s, t, ChannelCrossed(c, a, b, x, y)))
  {
    hide Reachable, Crossing, Crossed;
    TakesChannel(s, t, c);
    TakesThread(s, t, DropChannel(c), {ForUpdate(ChannelRow(c))}, NODELTA.(goneChannels := {c}), c, a, b, x, y);
  }

  /** The two deletions lock different rows. */
  lemma ApartUntilCrossed(s: State)
    requires s.txs == map[]
    ensures Clear(s, 0, {WsRow(10), ChannelRow(20), MsgRow(30), MsgRow(33)})
    ensures Clear(s, 0, {ChannelRow(20), MsgRow(30), MsgRow(33)})
    ensures Clear(With(s, 0, WsCrossed(1, 10, 20, 30, 33, 32, 31)), 1,
                  {WsRow(11), ChannelRow(21), MsgRow(32), MsgRow(31)})
    ensures Clear(With(s, 0, ChannelCrossed(20, 30, 33, 32, 31)), 1, {ChannelRow(21), MsgRow(32), MsgRow(31)})
  {
  }

  lemma ThreadsCross(s: State)
    requires s.db.msgs == map[30 := Text(1, 20, None, 1), 31 := Text(1, 21, Some(30), 0),
                              32 := Text(1, 21, None, 1), 33 := Text(1, 20, Some(32), 0)]
    ensures Crossing(s.db.msgs, 20, 30, 33, 32, 31) && Crossing(s.db.msgs, 21, 32, 31, 30, 33)
  {
  }

  lemma WorkspacesStuck(s: State)
    requires s.txs == map[]
    requires Crossing(s.db.msgs, 20, 30, 33, 32, 31) && Crossing(s.db.msgs, 21, 32, 31, 30, 33)
    ensures BothStuck(With(With(s, 0, WsCrossed(1, 10, 20, 30, 33, 32, 31)), 1, WsCrossed(2, 11, 21, 32, 31, 30, 33)))
  {
    hide Crossed, Crossing, BothStuck;
    var a, b := WsCrossed(1, 10, 20, 30, 33, 32, 31), WsCrossed(2, 11, 21, 32, 31, 30, 33);
    var s' := With(With(s, 0, a), 1, b);
    assert s'.txs == map[0 := a, 1 := b];
    BothCrossed(s', DropWorkspace(1, 10), {ForUpdate(WsRow(10)), ForUpdate(ChannelRow(20))},
                NODELTA.(goneWs := {10}, goneChannels := {20}),
                DropWorkspace(2, 11), {ForUpdate(WsRow(11)), ForUpdate(ChannelRow(21))},
                NODELTA.(goneWs := {11}, goneChannels := {21}));
  }

  lemma ChannelsStuck(s: State)
    requires s.txs == map[]
    requires Crossing(s.db.msgs, 20, 30, 33, 32, 31) && Crossing(s.db.msgs, 21, 32, 31, 30, 33)
    ensures BothStuck(With(With(s, 0, ChannelCrossed(20, 30, 33, 32, 31)), 1, ChannelCrossed(21, 32, 31, 30, 33)))
  {
    hide Crossed, Crossing, BothStuck;
    var a, b := ChannelCrossed(20, 30, 33, 32, 31), ChannelCrossed(21, 32, 31, 30, 33);
    var s' := With(With(s, 0, a), 1, b);
    assert s'.txs == map[0 := a, 1 := b];
    BothCrossed(s', DropChannel(20), {ForUpdate(ChannelRow(20))}, NODELTA.(goneChannels := {20}),
                DropChannel(21), {ForUpdate(ChannelRow(21))}, NODELTA.(goneChannels := {21}));
  }

  /** Two workspaces whose threads cross cannot always be deleted at the same time: each deletion can
      end up waiting for messages the other has deleted, with no account or message deletion open. */
  lemma WorkspaceDeletionsCanDeadlock() returns (ss: seq<State>, ls: seq<Label>)
    ensures IsRun(ss, ls) && BothStuck(ss[|ls|])
    ensures ss[|ls|].txs[0].op.DropWorkspace? && ss[|ls|].txs[1].op.DropWorkspace?
  {
    hide Next, BothStuck, Crossing, Clear, InOrder;
    var s := CrossingThreads(11);
    ThreadsCross(s);
    ApartUntilCrossed(s);
    WorkspaceCrosses(s, 0, 1, 10, 20, 30, 33, 32, 31);
    WorkspacesStuck(s);
    var s1 := With(s, 0, WsCrossed(1, 10, 20, 30, 33, 32, 31));
    WorkspaceCrosses(s1, 1, 2, 11, 21, 32, 31, 30, 33);
    ss, ls :| IsRun(ss, ls) && ss[|ls|] == With(s1, 1, WsCrossed(2, 11, 21, 32, 31, 30, 33));
  }

  /** Nor can two channels of one workspace, if threads cross between them. */
  lemma ChannelDeletionsCanDeadlock() returns (ss: seq<State>, ls: seq<Label>)
    ensures IsRun(ss, ls) && BothStuck(ss[|ls|])
    ensures ss[|ls|].txs[0].op.DropChannel? && ss[|ls|].txs[1].op.DropChannel?
    ensures forall c | c in ss[|ls|].db.channels :: ss[|ls|].db.channels[c] == 10
  {
    hide Next, BothStuck, Crossing, Clear, InOrder;
    var s := CrossingThreads(10);
    ThreadsCross(s);
    ApartUntilCrossed(s);
    ChannelCrosses(s, 0, 20, 30, 33, 32, 31);
    ChannelsStuck(s);
    var s1 := With(s, 0, ChannelCrossed(20, 30, 33, 32, 31));
    ChannelCrosses(s1, 1, 21, 32, 31, 30, 33);
    ss, ls :| IsRun(ss, ls) && ss[|ls|] == With(s1, 1, ChannelCrossed(21, 32, 31, 30, 33));
  }

  // ---------------------------------------------------------------- a root and its reply

  const ROOTGOES: Tx :=
    Tx(Drop(30), Cascade({}, {MsgRow(31)}, map[]), {ForUpdate(MsgRow(30))}, NODELTA.(gone := {30}))

  const REPLYGOES: Tx :=
    Tx(Drop(31), Cascade({}, {}, map[31 := 30]), {ForUpdate(MsgRow(31))}, NODELTA.(gone := {31}))

  lemma FirstDelete(s: State, t: Tid, m: Id, rows: set<Row>)
    requires Reachable(s) && t !in s.txs && m in s.db.msgs && Clear(s, t, {MsgRow(m)})
    requires rows == Referring(Apply(s.db, NODELTA.(gone := {m})), MsgRow(m))
    ensures Reachable(With(s, t, Tx(Drop(m), Cascade({}, rows, Pending(m, s.db.msgs[m])), {ForUpdate(MsgRow(m))},
                                    NODELTA.(gone := {m}))))
  {
    hide Reachable, Pending, Referring;
    var tx := Tx(Drop(m), Cascade({MsgRow(m)}, {}, Pending(m, s.db.msgs[m])), {ForUpdate(MsgRow(m))},
                 NODELTA.(gone := {m}));
    Starts(s, t, Drop(m));
    GoesOn(s, t, Tx(Drop(m), Begun, {}, NODELTA), Only, tx);
    QueryStarts(s, t, tx, MsgRow(m), rows);
    assert {MsgRow(m)} - {MsgRow(m)} == {};
  }

  lemma RepliesFound(db: Db)
    requires db.msgs == map[30 := Text(1, 20, None, 1), 31 := Text(1, 20, Some(30), 0)]
    ensures Referring(Apply(db, NODELTA.(gone := {30})), MsgRow(30)) == {MsgRow(31)}
    ensures Referring(Apply(db, NODELTA.(gone := {31})), MsgRow(31)) == {}
  {
    assert Apply(db, NODELTA.(gone := {30})).msgs.Keys == {31} && Apply(db, NODELTA.(gone := {31})).msgs.Keys == {30};
  }

  lemma RootIsStuck(s: State)
    requires 31 in s.db.msgs && s.txs == map[0 := ROOTGOES, 1 := REPLYGOES]
    ensures Waits(s, 0, 1) && forall c, s' :: !Next(s, Act(0, c), s')
  {
    assert 31 in Apply(s.db, ROOTGOES.delta).msgs;
    assert Clash(ForUpdate(MsgRow(31)), ForUpdate(MsgRow(31)));
    hide Apply;
    assert Blocks(s, 0, Child(MsgRow(31)), 1);
    hide Blocks;
    forall c, s' ensures !Next(s, Act(0, c), s') {
      if c != Child(MsgRow(31)) { assert Advance(s.db, ROOTGOES, c) == Stuck; }
    }
  }

  lemma ReplyIsStuck(s: State)
    requires 30 in s.db.msgs && s.txs == map[0 := ROOTGOES, 1 := REPLYGOES]
    ensures Waits(s, 1, 0) && forall c, s' :: !Next(s, Act(1, c), s')
  {
    assert 30 in Apply(s.db, REPLYGOES.delta).msgs;
    assert Clash(ForNoKeyUpdate(MsgRow(30)), ForUpdate(MsgRow(30)));
    hide Apply;
    assert Blocks(s, 1, Decrement(31), 0);
    hide Blocks;
    forall c, s' ensures !Next(s, Act(1, c), s') {
      if c != Decrement(31) { assert Advance(s.db, REPLYGOES, c) == Stuck; }
    }
  }

  lemma RootAndReplyStuck(s: State)
    requires 30 in s.db.msgs && 31 in s.db.msgs && s.txs == map[0 := ROOTGOES, 1 := REPLYGOES]
    ensures BothStuck(s)
  {
    hide Next, Waits;
    RootIsStuck(s);
    ReplyIsStuck(s);
  }

  /** Deleting a root and deleting its reply can deadlock: the one cascades to the reply, the other
      subtracts from the root. Nothing else is open, and the thread is in one channel. */
  lemma MessageDeletesCanDeadlock() returns (ss: seq<State>, ls: seq<Label>)
    ensures IsRun(ss, ls) && BothStuck(ss[|ls|])
    ensures ss[|ls|].txs[0].op.Drop? && ss[|ls|].txs[1].op.Drop? && Confined(ss[|ls|])
  {
    hide Next, BothStuck, Quiet, Apply, Referring;
    var s := TwoChannels(10);
    s := PostAlone(s, 30, 1, 20, None);
    s := PostAlone(s, 31, 1, 20, Some(30));
    assert s.db.msgs == map[30 := Text(1, 20, None, 1), 31 := Text(1, 20, Some(30), 0)];
    QuietIsReachable(s);
    RepliesFound(s.db);
    FirstDelete(s, 0, 30, {MsgRow(31)});
    var s1 := With(s, 0, ROOTGOES);
    FirstDelete(s1, 1, 31, {});
    var s2 := With(s1, 1, REPLYGOES);
    assert s2.txs == map[0 := ROOTGOES, 1 := REPLYGOES];
    RootAndReplyStuck(s2);
    OneChannelIsConfined(s2, 20);
    ss, ls :| IsRun(ss, ls) && ss[|ls|] == s2;
  }

  lemma QuietIsReachable(s: State)
    requires Quiet(s)
    ensures Reachable(s) && s.txs == map[]
  {
  }

  lemma OneChannelIsConfined(s: State, c: Id)
    requires forall m | m in s.db.msgs :: s.db.msgs[m].channel == c
    requires forall t | t in s.txs :: !s.txs[t].op.Post?
    ensures Confined(s)
  {
  }

  // ---------------------------------------------------------------- two account deletions

  /** User u has deleted the own workspace w with its channel c and the message m, and is checking k. */
  function Checking(u: Id, w: Id, c: Id, m: Id, k: Id): Tx {
    Tx(DropUser(u), Restrict({k}),
       {ForUpdate(UserRow(u))} + {ForUpdate(WsRow(w))} + {ForUpdate(ChannelRow(c))} + {ForUpdate(MsgRow(m))},
       NODELTA.(goneUsers := {u}, goneWs := {w}, goneChannels := {c}, gone := {m}))
  }

  /** u owns w with channel c alone; m is in it, and k, in another channel, is what u wrote. */
  ghost predicate Leaving(db: Db, u: Id, w: Id, c: Id, m: Id, k: Id) {
    && u in db.users && (forall x :: x in db.workspaces && db.workspaces[x] == u <==> x == w)
    && (forall x :: x in db.channels && db.channels[x] == w <==> x == c)
    && m != k && db.msgs.Keys == {m, k}
    && db.msgs[m].channel == c && db.msgs[k].channel != c && db.msgs[m].root == db.msgs[k].root == None
    && db.msgs[m].author != u && db.msgs[k].author == u
  }

  lemma LocksOwned(s: State, t: Tid, u: Id, w: Id, c: Id, m: Id, k: Id)
    requires Reachable(s) && t !in s.txs && Leaving(s.db, u, w, c, m, k) && Clear(s, t, {UserRow(u), WsRow(w)})
    ensures Reachable(With(s, t, Tx(DropUser(u), Cascade({WsRow(w)}, {}, map[]),
                                    {ForUpdate(UserRow(u))} + {ForUpdate(WsRow(w))}, NODELTA.(goneWs := {w}))))
  {
    hide Reachable;
    var op, held := DropUser(u), {ForUpdate(UserRow(u))};
    Starts(s, t, op);
    GoesOn(s, t, Tx(op, Begun, {}, NODELTA), Only, Tx(op, FindOwned, held, NODELTA));
    assert Apply(s.db, NODELTA).workspaces == s.db.workspaces && OwnedBy(s.db, u) == {w};
    GoesOn(s, t, Tx(op, FindOwned, held, NODELTA), Only, Tx(op, LockOwned({w}), held, NODELTA));
    hide Apply, OwnedBy;
    LocksOwnWorkspace(s, t, op, held, w);
  }

  lemma OwnedVisited(db: Db, op: Op, held: set<Lock<Row>>, gone: set<Id>, pend: set<Row>)
    requires pend == set w | w in gone :: WsRow(w)
    ensures Advance(db, Tx(op, LockOwned({}), held, NODELTA.(goneWs := gone)), Only)
            == Continue(Tx(op, Cascade(pend, {}, map[]), held, NODELTA.(goneWs := gone)))
  {
    hide Apply;
  }

  lemma LocksOwnWorkspace(s: State, t: Tid, op: Op, held: set<Lock<Row>>, w: Id)
    requires Reachable(With(s, t, Tx(op, LockOwned({w}), held, NODELTA))) && w in s.db.workspaces
    requires Clear(s, t, {WsRow(w)})
    ensures Reachable(With(s, t, Tx(op, Cascade({WsRow(w)}, {}, map[]), held + {ForUpdate(WsRow(w))},
                                    NODELTA.(goneWs := {w}))))
  {
    hide Reachable, Apply;
    var held', d := held + {ForUpdate(WsRow(w))}, NODELTA.(goneWs := {w});
    assert {w} - {w} == {} && {} + {w} == {w};
    GoesOn(s, t, Tx(op, LockOwned({w}), held, NODELTA), Ws(w), Tx(op, LockOwned({}), held', d));
    OwnedVisited(s.db, op, held', {w}, {WsRow(w)});
    GoesOn(s, t, Tx(op, LockOwned({}), held', d), Only, Tx(op, Cascade({WsRow(w)}, {}, map[]), held', d));
  }

  lemma TakesOwned(s: State, t: Tid, u: Id, w: Id, c: Id, m: Id, k: Id)
    requires Leaving(s.db, u, w, c, m, k) && Clear(s, t, {ChannelRow(c), MsgRow(m)})
    requires Reachable(With(s, t, Tx(DropUser(u), Cascade({WsRow(w)}, {}, map[]),
                                     {ForUpdate(UserRow(u))} + {ForUpdate(WsRow(w))}, NODELTA.(goneWs := {w}))))
    ensures Reachable(With(s, t, Tx(DropUser(u), Cascade({}, {}, map[]), Checking(u, w, c, m, k).held,
                                    NODELTA.(goneWs := {w}, goneChannels := {c}, gone := {m}))))
  {
    hide Reachable, Apply, Referring;
    var op, held, d := DropUser(u), {ForUpdate(UserRow(u))} + {ForUpdate(WsRow(w))}, NODELTA.(goneWs := {w});
    LeavingRows(s.db, u, w, c, m, k);
    assert {WsRow(w)} - {WsRow(w)} == {} && {ChannelRow(c)} - {ChannelRow(c)} == {} && {MsgRow(m)} - {MsgRow(m)} == {};
    QueryStarts(s, t, Tx(op, Cascade({WsRow(w)}, {}, map[]), held, d), WsRow(w), {ChannelRow(c)});
    TakesItsChannel(s, t, op, held, d, c);
    var held', d' := held + {ForUpdate(ChannelRow(c))}, NODELTA.(goneWs := {w}, goneChannels := {c});
    assert d'.(gone := {}) == d';
    QueryStarts(s, t, Deleter(op, held', d', {}, {ChannelRow(c)}, {}, map[]), ChannelRow(c), {MsgRow(m)});
    MsgGoes(s, t, op, held', d', {}, {}, {MsgRow(m)}, map[], m, {}, map[]);
    assert {} + {m} == {m} && {} + {MsgRow(m)} == {MsgRow(m)};
    QueryStarts(s, t, Deleter(op, held' + {ForUpdate(MsgRow(m))}, d', {m}, {MsgRow(m)}, {}, map[]), MsgRow(m), {});
  }

  lemma LeavingRows(db: Db, u: Id, w: Id, c: Id, m: Id, k: Id)
    requires Leaving(db, u, w, c, m, k)
    ensures Referring(Apply(db, NODELTA.(goneWs := {w})), WsRow(w)) == {ChannelRow(c)}
    ensures var d := NODELTA.(goneWs := {w}, goneChannels := {c});
            && Referring(Apply(db, d), ChannelRow(c)) == {MsgRow(m)}
            && Referring(Apply(db, d.(gone := {m})), MsgRow(m)) == {}
  {
    assert Apply(db, NODELTA.(goneWs := {w})).channels == db.channels;
    assert Apply(db, NODELTA.(goneWs := {w}, goneChannels := {c})).msgs == db.msgs;
    assert Apply(db, NODELTA.(goneWs := {w}, goneChannels := {c}, gone := {m})).msgs == db.msgs - {m};
    hide Apply;
  }

  lemma LeftBehind(db: Db, u: Id, w: Id, c: Id, m: Id, k: Id)
    requires Leaving(db, u, w, c, m, k)
    ensures WrittenBy(Apply(db, Checking(u, w, c, m, k).delta).msgs, u) == {k}
  {
    assert Apply(db, Checking(u, w, c, m, k).delta).msgs == db.msgs - {m};
    hide Apply;
  }

  lemma ChecksWhatIsLeft(s: State, t: Tid, u: Id, w: Id, c: Id, m: Id, k: Id)
    requires Leaving(s.db, u, w, c, m, k)
    requires Reachable(With(s, t, Tx(DropUser(u), Cascade({}, {}, map[]), Checking(u, w, c, m, k).held,
                                     NODELTA.(goneWs := {w}, goneChannels := {c}, gone := {m}))))
    ensures Reachable(With(s, t, Checking(u, w, c, m, k)))
  {
    hide Reachable, Apply, WrittenBy;
    var op, held := DropUser(u), Checking(u, w, c, m, k).held;
    var d := NODELTA.(goneWs := {w}, goneChannels := {c}, gone := {m});
    LeftBehind(s.db, u, w, c, m, k);
    GoesOn(s, t, Tx(op, Cascade({}, {}, map[]), held, d), Only, Tx(op, DeleteUserRow, held, d));
    var d' := d.(goneUsers := {u});
    GoesOn(s, t, Tx(op, DeleteUserRow, held, d), Only, Tx(op, FindWritten, held, d'));
    GoesOn(s, t, Tx(op, FindWritten, held, d'), Only, Checking(u, w, c, m, k));
  }

  lemma Leaves(s: State, t: Tid, u: Id, w: Id, c: Id, m: Id, k: Id)
    requires Reachable(s) && t !in s.txs && Leaving(s.db, u, w, c, m, k)
    requires Clear(s, t, {UserRow(u), WsRow(w), ChannelRow(c), MsgRow(m)})
    ensures Reachable(With(s, t, Checking(u, w, c, m, k)))
  {
    hide Reachable, Leaving;
    LocksOwned(s, t, u, w, c, m, k);
    TakesOwned(s, t, u, w, c, m, k);
    ChecksWhatIsLeft(s, t, u, w, c, m, k);
  }

  lemma CheckingIsStuck(s: State, t: Tid, o: Tid, u: Id, w: Id, c: Id, m: Id, k: Id)
    requires s.txs.Keys == {t, o} && t != o && Leaving(s.db, u, w, c, m, k)
    requires s.txs[t] == Checking(u, w, c, m, k) && ForUpdate(MsgRow(k)) in s.txs[o].held
    ensures Waits(s, t, o) && forall choice, s' :: !Next(s, Act(t, choice), s')
  {
    assert k in Apply(s.db, s.txs[t].delta).msgs;
    assert Clash(ForKeyShare(MsgRow(k)), ForUpdate(MsgRow(k)));
    hide Apply, Leaving;
    assert Blocks(s, t, Written(k), o);
    hide Blocks;
    forall choice, s' ensures !Next(s, Act(t, choice), s') {
      if choice != Written(k) { assert Advance(s.db, s.txs[t], choice) == Stuck; }
    }
  }

  lemma BothChecking(s: State)
    requires Leaving(s.db, 1, 10, 20, 30, 31) && Leaving(s.db, 2, 11, 21, 31, 30)
    requires s.txs == map[0 := Checking(1, 10, 20, 30, 31), 1 := Checking(2, 11, 21, 31, 30)]
    ensures BothStuck(s)
  {
    hide Next, Waits, Leaving;
    CheckingIsStuck(s, 0, 1, 1, 10, 20, 30, 31);
    CheckingIsStuck(s, 1, 0, 2, 11, 21, 31, 30);
  }

  /** Two users who have each posted in the workspace of the other and delete their accounts at the
      same time can end up waiting for each other, without a single reply anywhere. */
  lemma AccountDeletionsCanDeadlock() returns (ss: seq<State>, ls: seq<Label>)
    ensures IsRun(ss, ls) && BothStuck(ss[|ls|])
    ensures ss[|ls|].txs[0].op.DropUser? && ss[|ls|].txs[1].op.DropUser? && Confined(ss[|ls|])
  {
    hide Next, BothStuck, Quiet, Leaving, Clear;
    var s := TwoChannels(11);
    s := PostAlone(s, 30, 2, 20, None);
    s := PostAlone(s, 31, 1, 21, None);
    assert s.db.msgs == map[30 := Text(2, 20, None, 0), 31 := Text(1, 21, None, 0)];
    QuietIsReachable(s);
    EachLeaves(s);
    Leaves(s, 0, 1, 10, 20, 30, 31);
    var s1 := With(s, 0, Checking(1, 10, 20, 30, 31));
    Leaves(s1, 1, 2, 11, 21, 31, 30);
    var s2 := With(s1, 1, Checking(2, 11, 21, 31, 30));
    assert s2.txs == map[0 := Checking(1, 10, 20, 30, 31), 1 := Checking(2, 11, 21, 31, 30)];
    BothChecking(s2);
    NoRepliesConfined(s2);
    ss, ls :| IsRun(ss, ls) && ss[|ls|] == s2;
  }

  lemma EachLeaves(s: State)
    requires s.txs == map[] && s.db.users == {1, 2} && s.db.workspaces == OWNERS
    requires s.db.channels == map[20 := 10, 21 := 11]
    requires s.db.msgs == map[30 := Text(2, 20, None, 0), 31 := Text(1, 21, None, 0)]
    ensures Leaving(s.db, 1, 10, 20, 30, 31) && Leaving(s.db, 2, 11, 21, 31, 30)
    ensures Clear(s, 0, {UserRow(1), WsRow(10), ChannelRow(20), MsgRow(30)})
    ensures Clear(With(s, 0, Checking(1, 10, 20, 30, 31)), 1, {UserRow(2), WsRow(11), ChannelRow(21), MsgRow(31)})
  {
  }

  lemma NoRepliesConfined(s: State)
    requires forall m | m in s.db.msgs :: s.db.msgs[m].root == None
    requires forall t | t in s.txs :: !s.txs[t].op.Post?
    ensures Confined(s)
  {
  }
}
