/** Two runs that show where the general results stop: a listing that account deletion made stale,
    and two account deletions that wait for each other. */
module OwnershipWitnesses {
  import opened Base
  import opened RowLocks
  import opened Entities
  import opened OwnershipModel
  import opened OwnershipInvariant
  import opened OwnershipRuns
  import opened OwnershipWaiting
  import opened OwnershipProgress

  ghost predicate Reachable(s: State) {
    exists ss, ls :: IsRun(ss, ls) && ss[|ls|] == s
  }

  lemma StepReaches(s: State, l: Label, s': State)
    requires Reachable(s) && Next(s, l, s')
    ensures Reachable(s')
  {
    var ss, ls :| IsRun(ss, ls) && ss[|ls|] == s;
    JoinPaths(ss, ls, [s, s'], [l]);
    assert IsRun(ss + [s, s'][1..], ls + [l]);
  }

  /** One call run on its own, from begin to commit or error. */
  lemma CallAlone(s: State, op: Op) returns (s': State)
    requires Reachable(s) && Inv(s) && s.txs == map[]
    requires !op.DeleteUser? && Reserved(op) !! s.born
    ensures Reachable(s') && Inv(s') && s'.txs == map[]
    ensures s'.db == Effect(op, s.db) && s'.born <= s.born + Reserved(op)
  {
    hide Inv;
    var s1 := s.(txs := map[0 := Tx(op, Begun, {}, NODELTA)]);
    assert Next(s, Begin(0, op), s1);
    NextKeepsInv(s, Begin(0, op), s1);
    StepReaches(s, Begin(0, op), s1);
    var ss, ls := FinishOne(s1, 0);
    s' := ss[|ls|];
    var before, labels :| IsRun(before, labels) && before[|labels|] == s1;
    JoinPaths(before, labels, ss, ls);
    assert IsRun(before + ss[1..], labels + ls);
    var o :| s'.log == s.log + [Event(op, o)];
    OneMoreCall(s, s', Event(op, o));
  }

  lemma OneMoreCall(s: State, s': State, e: Event)
    requires Inv(s) && Inv(s') && s'.log == s.log + [e]
    ensures s'.db == Effect(e.op, s.db)
  {
    assert s'.log[..|s.log|] == s.log;
  }

  /** The state s with one more open transaction. */
  function With(s: State, t: Tid, tx: Tx): State {
    s.(txs := s.txs[t := tx])
  }

  predicate Free(s: State, t: Tid, tx: Tx, c: Choice) {
    Request(s.db, tx, c).Some? ==>
      forall o, l | o in s.txs && o != t && l in s.txs[o].held :: !Clash(Request(s.db, tx, c).value, l)
  }

  lemma Starts(s: State, t: Tid, op: Op)
    requires Reachable(s) && t !in s.txs && Reserved(op) == {}
    ensures Reachable(With(s, t, Tx(op, Begun, {}, NODELTA)))
  {
    StepReaches(s, Begin(t, op), With(s, t, Tx(op, Begun, {}, NODELTA)));
  }

  lemma GoesOn(s: State, t: Tid, tx: Tx, c: Choice, tx': Tx)
    requires Reachable(With(s, t, tx)) && Free(s, t, tx, c)
    requires Advance(s.db, tx, c) == Continue(tx')
    ensures Reachable(With(s, t, tx'))
  {
    var now := With(s, t, tx);
    assert forall o | o in now.txs && o != t :: now.txs[o] == s.txs[o];
    assert With(s, t, tx') == now.(txs := now.txs[t := tx']);
    StepReaches(now, Act(t, c), With(s, t, tx'));
  }

  // ---------------------------------------------------------------- single statements of DeleteUser

  lemma VisitsOwned(db: Db, op: Op, held: set<Lock<Row>>, w: Id)
    requires op.DeleteUser? && w in db.workspaces
    ensures Advance(db, Tx(op, LockOwned({w}), held, NODELTA), Ws(w))
            == Continue(Tx(op, LockOwned({}), held + {ForUpdate(WsRow(w))}, NODELTA.(goneWs := {w})))
  {
    assert {w} - {w} == {};
    assert {} + {w} == {w};
  }

  lemma OwnedVisited(db: Db, op: Op, held: set<Lock<Row>>, gone: set<Id>, pend: set<Row>)
    requires op.DeleteUser? && pend == set w | w in gone :: WsRow(w)
    ensures Advance(db, Tx(op, LockOwned({}), held, NODELTA.(goneWs := gone)), Only)
            == Continue(Tx(op, Cascade(pend, {}), held, NODELTA.(goneWs := gone)))
  {
  }

  lemma TriggerStarts(db: Db, tx: Tx, p: Row, rows: set<Key>)
    requires tx.phase == Cascade({p}, {})
    requires rows == set k | k in Apply(db, tx.delta).members && RefersTo(k, p)
    ensures Advance(db, tx, Parent(p)) == Continue(tx.(phase := Cascade({}, rows)))
  {
    assert {p} - {p} == {};
  }

  lemma RowGoes(db: Db, tx: Tx, rows: set<Key>, k: Key, rest: set<Key>)
    requires tx.phase == Cascade({}, rows) && k in rows && rest == rows - {k}
    requires k in Apply(db, tx.delta).members
    ensures Advance(db, tx, Child(k))
            == Continue(Tx(tx.op, Cascade({}, rest), tx.held + {ForUpdate(MemberRow(k))},
                           tx.delta.(goneMembers := tx.delta.goneMembers + {k})))
  {
  }

  /** A committed database with two users, where user 1 owns workspace 3 and user 2 is its member. */
  lemma OneWorkspace() returns (s: State)
    ensures Reachable(s) && Inv(s) && s.txs == map[] && s.born <= {1, 2, 3}
    ensures s.db == Db({1, 2}, {3}, map[Key(3, 1) := Owner, Key(3, 2) := Member])
  {
    hide Inv;
    assert IsRun([INIT], []);
    RunKeepsInv([INIT], []);
    s := CallAlone(INIT, Register(1));
    s := CallAlone(s, Register(2));
    s := CallAlone(s, Create(1, 3));
    s := CallAlone(s, Add(1, 3, 2));
  }

  lemma UserGoes(db: Db, tx: Tx)
    requires tx.op.DeleteUser? && tx.phase == DropUser
    ensures var u := tx.op.user;
            Advance(db, tx, Only)
            == Continue(tx.(phase := Cascade({UserRow(u)}, {}), delta := tx.delta.(goneUsers := {u})))
  {
  }

  lemma CascadeEnds(db: Db, tx: Tx)
    requires tx.op.DeleteUser? && tx.phase == Cascade({}, {})
    ensures Advance(db, tx, Only) == Continue(tx.(phase := if tx.delta.goneUsers == {} then DropUser else Ready))
  {
  }

  lemma FindsOwned(s: State, t: Tid, u: Id, owned: set<Id>)
    requires Reachable(s) && t !in s.txs && u in s.db.users
    requires forall w :: w in owned <==> Owns(s.db, w, u)
    requires forall o, l | o in s.txs && l in s.txs[o].held :: l.row != UserRow(u)
    ensures Reachable(With(s, t, Tx(DeleteUser(u), LockOwned(owned), {ForUpdate(UserRow(u))}, NODELTA)))
  {
    hide Reachable;
    var op, held := DeleteUser(u), {ForUpdate(UserRow(u))};
    Starts(s, t, op);
    GoesOn(s, t, Tx(op, Begun, {}, NODELTA), Only, Tx(op, FindOwned, held, NODELTA));
    OwnedByContents(s.db, u);
    assert Apply(s.db, NODELTA) == s.db && OwnedBy(s.db, u) == owned;
    GoesOn(s, t, Tx(op, FindOwned, held, NODELTA), Only, Tx(op, LockOwned(owned), held, NODELTA));
  }

  // ---------------------------------------------------------------- a stale listing

  const READER := Tx(Read(1, 3), Answered(map[1 := Owner, 2 := Member]), {ForUpdate(WsRow(3))}, NODELTA)

  lemma ReaderAnswers(s: State)
    requires Reachable(s) && s.txs == map[]
    requires s.db == Db({1, 2}, {3}, map[Key(3, 1) := Owner, Key(3, 2) := Member])
    ensures Reachable(With(s, 0, READER))
  {
    hide Reachable;
    var op, held := Read(1, 3), {ForUpdate(WsRow(3))};
    Starts(s, 0, op);
    GoesOn(s, 0, Tx(op, Begun, {}, NODELTA), Only, Tx(op, ListMembers, held, NODELTA));
    MembersOfContents(s.db, 3);
    assert Apply(s.db, NODELTA) == s.db;
    assert MembersOf(s.db, 3) == map[1 := Owner, 2 := Member];
    GoesOn(s, 0, Tx(op, ListMembers, held, NODELTA), Only, READER);
  }

  /** User 2 leaves: no lock of the reader is in the way up to the first trigger. */
  lemma DeleterStarts(s: State)
    requires Reachable(s) && s.txs == map[0 := READER]
    requires s.db == Db({1, 2}, {3}, map[Key(3, 1) := Owner, Key(3, 2) := Member])
    ensures Reachable(With(s, 1, Tx(DeleteUser(2), DropUser, {ForUpdate(UserRow(2))}, NODELTA)))
  {
    hide Reachable, Advance;
    var op, held := DeleteUser(2), {ForUpdate(UserRow(2))};
    FindsOwned(s, 1, 2, {});
    OwnedVisited(s.db, op, held, {}, {});
    assert NODELTA.(goneWs := {}) == NODELTA;
    GoesOn(s, 1, Tx(op, LockOwned({}), held, NODELTA), Only, Tx(op, Cascade({}, {}), held, NODELTA));
    CascadeEnds(s.db, Tx(op, Cascade({}, {}), held, NODELTA));
    GoesOn(s, 1, Tx(op, Cascade({}, {}), held, NODELTA), Only, Tx(op, DropUser, held, NODELTA));
  }

  lemma DeleterFires(s: State)
    requires s.txs == map[0 := READER]
    requires s.db == Db({1, 2}, {3}, map[Key(3, 1) := Owner, Key(3, 2) := Member])
    requires Reachable(With(s, 1, Tx(DeleteUser(2), DropUser, {ForUpdate(UserRow(2))}, NODELTA)))
    ensures Reachable(With(s, 1, Tx(DeleteUser(2), Cascade({}, {Key(3, 2)}), {ForUpdate(UserRow(2))},
                                    NODELTA.(goneUsers := {2}))))
  {
    hide Reachable, Advance;
    var op, held, d := DeleteUser(2), {ForUpdate(UserRow(2))}, NODELTA.(goneUsers := {2});
    var tx := Tx(op, Cascade({UserRow(2)}, {}), held, d);
    UserGoes(s.db, Tx(op, DropUser, held, NODELTA));
    GoesOn(s, 1, Tx(op, DropUser, held, NODELTA), Only, tx);
    assert Apply(s.db, d).members == s.db.members;
    TriggerStarts(s.db, tx, UserRow(2), {Key(3, 2)});
    GoesOn(s, 1, tx, Parent(UserRow(2)), tx.(phase := Cascade({}, {Key(3, 2)})));
  }

  lemma DeleterFinishes(s: State) returns (tx: Tx)
    requires s.txs == map[0 := READER]
    requires s.db == Db({1, 2}, {3}, map[Key(3, 1) := Owner, Key(3, 2) := Member])
    requires Reachable(With(s, 1, Tx(DeleteUser(2), DropUser, {ForUpdate(UserRow(2))}, NODELTA)))
    ensures Reachable(With(s, 1, tx)) && tx.op == DeleteUser(2) && tx.phase == Ready
    ensures tx.delta == NODELTA.(goneUsers := {2}, goneMembers := {Key(3, 2)})
  {
    hide Reachable, Advance;
    DeleterFires(s);
    var op, held, d := DeleteUser(2), {ForUpdate(UserRow(2))}, NODELTA.(goneUsers := {2});
    var k := Key(3, 2);
    tx := Tx(op, Cascade({}, {k}), held, d);
    RowGoes(s.db, tx, {k}, k, {});
    var tx' := Tx(op, Cascade({}, {}), held + {ForUpdate(MemberRow(k))}, d.(goneMembers := {k}));
    assert {} + {k} == {k};
    GoesOn(s, 1, tx, Child(k), tx');
    CascadeEnds(s.db, tx');
    GoesOn(s, 1, tx', Only, tx'.(phase := Ready));
    tx := tx'.(phase := Ready);
  }

  lemma DeleterCommits(s: State, tx: Tx) returns (s': State)
    requires Reachable(With(s, 1, tx)) && s.txs == map[0 := READER]
    requires s.db == Db({1, 2}, {3}, map[Key(3, 1) := Owner, Key(3, 2) := Member])
    requires tx.phase == Ready && tx.delta == NODELTA.(goneUsers := {2}, goneMembers := {Key(3, 2)})
    ensures Reachable(s') && s'.txs == map[0 := READER]
    ensures s'.db == Db({1}, {3}, map[Key(3, 1) := Owner])
  {
    var now := With(s, 1, tx);
    s' := After(now, 1, Publish(Done));
    StepReaches(now, Act(1, Only), s');
    assert Apply(s.db, tx.delta).members == map[Key(3, 1) := Owner];
    assert Apply(s.db, tx.delta).users == {1};
  }

  lemma ReaderCommits(s: State) returns (s': State)
    requires Reachable(s) && s.txs == map[0 := READER]
    ensures Reachable(s') && s'.log == s.log + [Event(Read(1, 3), Listed(READER.phase.list))]
    ensures s.db == Replay(s.log)
  {
    s' := After(s, 0, Publish(Listed(READER.phase.list)));
    StepReaches(s, Act(0, Only), s');
    var before, labels :| IsRun(before, labels) && before[|labels|] == s;
    RunKeepsInv(before, labels);
  }

  lemma StaleVerdict(db: Db)
    requires db == Db({1}, {3}, map[Key(3, 1) := Owner])
    ensures Verdict(Read(1, 3), db) != Listed(READER.phase.list)
  {
    MembersOfContents(db, 3);
    assert 2 in READER.phase.list && 2 !in MembersOf(db, 3);
  }

  /** In the order of commits the answer of ReadWorkspace can be out of date: a member's account deletion
      takes no lock on the workspace, so it can commit between the listing and the answer. The answer is
      still that of the moment of the listing (ExactAtOneMoment). */
  lemma ListingCanBeStale() returns (ss: seq<State>, ls: seq<Label>)
    ensures IsRun(ss, ls) && ss[|ls|].log != []
    ensures var log := ss[|ls|].log;
            var last := log[|log| - 1];
            last.op == Read(1, 3) && last.outcome != Verdict(last.op, Replay(log[..|log| - 1]))
  {
    hide Inv, Next, Verdict, Replay, Advance;
    var s := OneWorkspace();
    ReaderAnswers(s);
    s := With(s, 0, READER);
    DeleterStarts(s);
    var deleter := DeleterFinishes(s);
    s := DeleterCommits(s, deleter);
    var s' := ReaderCommits(s);
    ss, ls :| IsRun(ss, ls) && ss[|ls|] == s';
    assert s'.log[..|s.log|] == s.log;
    StaleVerdict(s.db);
  }

  // ---------------------------------------------------------------- two account deletions

  /** User u has deleted the own workspace w and is about to delete the membership in x. */
  function Deleting(u: Id, w: Id, v: Id, x: Id): Tx {
    Tx(DeleteUser(u), Cascade({}, {Key(x, u)}),
       {ForUpdate(UserRow(u)), ForUpdate(WsRow(w)), ForUpdate(MemberRow(Key(w, u))), ForUpdate(MemberRow(Key(w, v)))},
       Delta({}, {}, map[], {u}, {w}, {Key(w, u), Key(w, v)}))
  }

  predicate Crossed(db: Db, u: Id, w: Id, v: Id, x: Id) {
    && u != v && w != x
    && db == Db({u, v}, {w, x}, map[Key(w, u) := Owner, Key(w, v) := Member, Key(x, v) := Owner, Key(x, u) := Member])
  }

  /** Nobody else holds a row that user u deletes together with the workspace w. */
  predicate Clear(s: State, t: Tid, u: Id, w: Id, v: Id) {
    forall o, l | o in s.txs && o != t && l in s.txs[o].held ::
      l.row != UserRow(u) && l.row != WsRow(w) && l.row != MemberRow(Key(w, u)) && l.row != MemberRow(Key(w, v))
  }

  lemma LocksOwned(s: State, t: Tid, u: Id, w: Id, v: Id, x: Id)
    requires Reachable(s) && t !in s.txs && Crossed(s.db, u, w, v, x) && Clear(s, t, u, w, v)
    ensures Reachable(With(s, t, Tx(DeleteUser(u), Cascade({WsRow(w)}, {}),
                                    {ForUpdate(UserRow(u)), ForUpdate(WsRow(w))}, NODELTA.(goneWs := {w}))))
  {
    hide Reachable, Advance;
    var op, held := DeleteUser(u), {ForUpdate(UserRow(u))};
    FindsOwned(s, t, u, {w});
    VisitsOwned(s.db, op, held, w);
    var held', d := {ForUpdate(UserRow(u)), ForUpdate(WsRow(w))}, NODELTA.(goneWs := {w});
    assert held' == held + {ForUpdate(WsRow(w))};
    GoesOn(s, t, Tx(op, LockOwned({w}), held, NODELTA), Ws(w), Tx(op, LockOwned({}), held', d));
    OwnedVisited(s.db, op, held', {w}, {WsRow(w)});
    GoesOn(s, t, Tx(op, LockOwned({}), held', d), Only, Tx(op, Cascade({WsRow(w)}, {}), held', d));
  }

  lemma DeletesOwned(s: State, t: Tid, u: Id, w: Id, v: Id, x: Id)
    requires Crossed(s.db, u, w, v, x) && Clear(s, t, u, w, v)
    requires Reachable(With(s, t, Tx(DeleteUser(u), Cascade({WsRow(w)}, {}),
                                     {ForUpdate(UserRow(u)), ForUpdate(WsRow(w))}, NODELTA.(goneWs := {w}))))
    ensures Reachable(With(s, t, Tx(DeleteUser(u), Cascade({}, {}), Deleting(u, w, v, x).held,
                                    NODELTA.(goneWs := {w}, goneMembers := {Key(w, u), Key(w, v)}))))
  {
    hide Reachable, Advance;
    var d := NODELTA.(goneWs := {w});
    var tx := Tx(DeleteUser(u), Cascade({WsRow(w)}, {}), {ForUpdate(UserRow(u)), ForUpdate(WsRow(w))}, d);
    assert Apply(s.db, d).members == s.db.members;
    TriggerStarts(s.db, tx, WsRow(w), {Key(w, u), Key(w, v)});
    GoesOn(s, t, tx, Parent(WsRow(w)), tx.(phase := Cascade({}, {Key(w, u), Key(w, v)})));
    DeletesRows(s, t, u, w, v, x);
  }

  lemma DeletesRows(s: State, t: Tid, u: Id, w: Id, v: Id, x: Id)
    requires Crossed(s.db, u, w, v, x) && Clear(s, t, u, w, v)
    requires Reachable(With(s, t, Tx(DeleteUser(u), Cascade({}, {Key(w, u), Key(w, v)}),
                                     {ForUpdate(UserRow(u)), ForUpdate(WsRow(w))}, NODELTA.(goneWs := {w}))))
    ensures Reachable(With(s, t, Tx(DeleteUser(u), Cascade({}, {}), Deleting(u, w, v, x).held,
                                    NODELTA.(goneWs := {w}, goneMembers := {Key(w, u), Key(w, v)}))))
  {
    hide Reachable, Advance;
    var op, held := DeleteUser(u), {ForUpdate(UserRow(u)), ForUpdate(WsRow(w))};
    var d, a, b := NODELTA.(goneWs := {w}), Key(w, u), Key(w, v);
    var tx := Tx(op, Cascade({}, {a, b}), held, d);
    RowGoes(s.db, tx, {a, b}, a, {b});
    var tx' := Tx(op, Cascade({}, {b}), held + {ForUpdate(MemberRow(a))}, d.(goneMembers := {a}));
    assert {} + {a} == {a};
    GoesOn(s, t, tx, Child(a), tx');
    RowGoes(s.db, tx', {b}, b, {});
    var tx'' := Tx(op, Cascade({}, {}), Deleting(u, w, v, x).held, d.(goneMembers := {a, b}));
    assert {a} + {b} == {a, b} && tx''.held == tx'.held + {ForUpdate(MemberRow(b))};
    GoesOn(s, t, tx', Child(b), tx'');
  }

  lemma LastMembership(db: Db, u: Id, w: Id, v: Id, x: Id)
    requires Crossed(db, u, w, v, x)
    ensures {Key(x, u)} == set k | k in Apply(db, Deleting(u, w, v, x).delta).members && RefersTo(k, UserRow(u))
  {
  }

  lemma DeletesUser(s: State, t: Tid, u: Id, w: Id, v: Id, x: Id)
    requires Crossed(s.db, u, w, v, x)
    requires Reachable(With(s, t, Tx(DeleteUser(u), Cascade({}, {}), Deleting(u, w, v, x).held,
                                     NODELTA.(goneWs := {w}, goneMembers := {Key(w, u), Key(w, v)}))))
    ensures Reachable(With(s, t, Deleting(u, w, v, x)))
  {
    hide Reachable, Advance;
    var tx := Tx(DeleteUser(u), Cascade({}, {}), Deleting(u, w, v, x).held,
                 NODELTA.(goneWs := {w}, goneMembers := {Key(w, u), Key(w, v)}));
    CascadeEnds(s.db, tx);
    GoesOn(s, t, tx, Only, tx.(phase := DropUser));
    UserGoes(s.db, tx.(phase := DropUser));
    var tx' := tx.(phase := Cascade({UserRow(u)}, {}), delta := tx.delta.(goneUsers := {u}));
    GoesOn(s, t, tx.(phase := DropUser), Only, tx');
    LastMembership(s.db, u, w, v, x);
    TriggerStarts(s.db, tx', UserRow(u), {Key(x, u)});
    GoesOn(s, t, tx', Parent(UserRow(u)), Deleting(u, w, v, x));
  }

  /** EveryCallCanFinish needs its hypothesis: two users who are members of each other's workspaces
      and delete their accounts at the same time can end up waiting for each other, and then neither
      can take any step until one is aborted. */
  lemma DeletionsCanDeadlock() returns (ss: seq<State>, ls: seq<Label>)
    ensures IsRun(ss, ls)
    ensures var s := ss[|ls|];
            && s.txs.Keys == {0, 1}
            && s.txs[0].op.DeleteUser? && s.txs[1].op.DeleteUser?
            && Waits(s, 0, 1) && Waits(s, 1, 0)
            && forall t, c, s' | t in s.txs :: !Next(s, Act(t, c), s')
  {
    hide Free, Next;
    var s := TwoWorkspaces();
    LocksOwned(s, 0, 1, 3, 2, 4);
    DeletesOwned(s, 0, 1, 3, 2, 4);
    DeletesUser(s, 0, 1, 3, 2, 4);
    var a, b := Deleting(1, 3, 2, 4), Deleting(2, 4, 1, 3);
    s := With(s, 0, a);
    LocksOwned(s, 1, 2, 4, 1, 3);
    DeletesOwned(s, 1, 2, 4, 1, 3);
    DeletesUser(s, 1, 2, 4, 1, 3);
    s := With(s, 1, b);
    ss, ls :| IsRun(ss, ls) && ss[|ls|] == s;
    EachWaits(s);
  }

  lemma EachWaits(s: State)
    requires s.txs == map[0 := Deleting(1, 3, 2, 4), 1 := Deleting(2, 4, 1, 3)] && Crossed(s.db, 1, 3, 2, 4)
    ensures Waits(s, 0, 1) && Waits(s, 1, 0)
    ensures forall t, c, s' | t in s.txs :: !Next(s, Act(t, c), s')
  {
    OneWaits(s, 0, Key(4, 1));
    OneWaits(s, 1, Key(3, 2));
    forall t, c, s' | t in s.txs ensures !Next(s, Act(t, c), s') {
      OneWaits(s, t, if t == 0 then Key(4, 1) else Key(3, 2));
      assert WaitsFor(s, t, c, 1 - t) || Advance(s.db, s.txs[t], c) == Stuck;
    }
  }

  lemma OneWaits(s: State, t: Tid, k: Key)
    requires s.txs == map[0 := Deleting(1, 3, 2, 4), 1 := Deleting(2, 4, 1, 3)] && Crossed(s.db, 1, 3, 2, 4)
    requires t in s.txs && k == if t == 0 then Key(4, 1) else Key(3, 2)
    ensures WaitsFor(s, t, Child(k), 1 - t)
    ensures forall c | c != Child(k) :: Advance(s.db, s.txs[t], c) == Stuck
  {
    var tx := s.txs[t];
    assert tx.phase == Cascade({}, {k});
    assert k in Apply(s.db, tx.delta).members;
    assert Request(s.db, tx, Child(k)) == Some(ForUpdate(MemberRow(k)));
    assert ForUpdate(MemberRow(k)) in s.txs[1 - t].held;
    assert Clash(ForUpdate(MemberRow(k)), ForUpdate(MemberRow(k)));
  }

  lemma TwoWorkspaces() returns (s: State)
    ensures Reachable(s) && s.txs == map[]
    ensures Crossed(s.db, 1, 3, 2, 4) && Crossed(s.db, 2, 4, 1, 3)
  {
    hide Inv, Reachable, IsRun;
    s := OneWorkspace();
    var db := s.db;
    assert 4 !in s.born && Reserved(Create(2, 4)) !! s.born;
    s := CallAlone(s, Create(2, 4));
    assert s.db.members == db.members[Key(4, 2) := Owner];
    db := s.db;
    s := CallAlone(s, Add(2, 4, 1));
    assert s.db.members == db.members[Key(4, 1) := Member];
    assert s.db.workspaces == {3, 4};
  }
}
