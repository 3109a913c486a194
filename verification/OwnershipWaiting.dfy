/** Who waits for whom on row locks of users, workspaces and memberships: a started workspace call waits
    for account deletions only, and an account deletion never waits for a call that waits for it. Waits
    for channels and messages are the subject of ThreadWaiting. */
module OwnershipWaiting {
  import opened Base
  import opened RowLocks
  import opened Entities
  import opened OwnershipModel
  import opened OwnershipInvariant
  import opened OwnershipRuns
  import opened OwnershipTheorems

  // ---------------------------------------------------------------- which locks a transaction holds

  predicate MayHold(tx: Tx, l: Lock<Row>) {
    match l.row
    case UserRow(u) => if tx.op.DeleteUser? then u == tx.op.user else l.mode == KeyShare
    case WsRow(w) =>
      if tx.op.DeleteUser? then w in tx.delta.goneWs
      else !tx.op.Register? && !tx.op.Create? && w == tx.op.ws
    case MemberRow(k) => k in tx.delta.newMembers || k in tx.delta.goneMembers
  }

  predicate LocksOk(tx: Tx) {
    forall l | l in tx.held :: MayHold(tx, l)
  }

  predicate LocksKnown(s: State) {
    forall t | t in s.txs :: LocksOk(s.txs[t])
  }

  /** Delta only grows, as far as a lock depends on it. */
  lemma DeltaGrows(db: Db, born: set<Id>, tx: Tx, c: Choice)
    requires TxOk(db, born, tx) && Advance(db, tx, c).Continue?
    ensures var d, d' := tx.delta, Advance(db, tx, c).tx.delta;
            d.goneWs <= d'.goneWs && d.newMembers.Keys <= d'.newMembers.Keys && d.goneMembers <= d'.goneMembers
  {
  }

  lemma AdvanceKeepsLocks(db: Db, born: set<Id>, tx: Tx, c: Choice)
    requires TxOk(db, born, tx) && LocksOk(tx) && Advance(db, tx, c).Continue?
    ensures LocksOk(Advance(db, tx, c).tx)
  {
    HeldGrows(db, tx, c);
    DeltaGrows(db, born, tx, c);
    var tx' := Advance(db, tx, c).tx;
    forall l | l in tx'.held ensures MayHold(tx', l) {
      if l in tx.held {
        assert MayHold(tx, l);
      } else {
        NewLockIsNamed(db, born, tx, c);
      }
    }
  }

  lemma NewLockIsNamed(db: Db, born: set<Id>, tx: Tx, c: Choice)
    requires TxOk(db, born, tx) && Advance(db, tx, c).Continue? && Request(db, tx, c).Some?
    requires Request(db, tx, c).value in Advance(db, tx, c).tx.held
    requires Request(db, tx, c).value !in tx.held
    ensures MayHold(Advance(db, tx, c).tx, Request(db, tx, c).value)
  {
  }

  lemma NextKeepsLocks(s: State, l: Label, s': State)
    requires Inv(s) && LocksKnown(s) && Next(s, l, s')
    ensures LocksKnown(s')
  {
    if l.Act? {
      assert TxOk(s.db, s.born, s.txs[l.t]);
      if Advance(s.db, s.txs[l.t], l.choice).Continue? {
        AdvanceKeepsLocks(s.db, s.born, s.txs[l.t], l.choice);
      }
    }
    forall t | t in s'.txs ensures LocksOk(s'.txs[t]) {
      assert t in s.txs && s'.txs[t] == s.txs[t] ==> LocksOk(s.txs[t]);
    }
  }

  lemma {:induction false} LocksKnownAt(ss: seq<State>, ls: seq<Label>, n: nat)
    requires IsRun(ss, ls) && n <= |ls|
    ensures LocksKnown(ss[n])
  {
    hide Next, Inv, LocksKnown;
    if n > 0 {
      LocksKnownAt(ss, ls, n - 1);
      InvAt(ss, ls, n - 1);
      NextKeepsLocks(ss[n - 1], ls[n - 1], ss[n]);
    } else {
      NothingLocked();
    }
  }

  lemma NothingLocked()
    ensures LocksKnown(INIT)
  {
  }

  // ---------------------------------------------------------------- calls other than account deletion

  /** The call works in workspace w and nobody else can: it holds the row, or made the id. */
  predicate Claims(db: Db, tx: Tx, w: Id) {
    if tx.op.Create? then w == tx.op.ws
    else (tx.op.Add? || tx.op.Remove? || tx.op.DeleteWs?) && w == tx.op.ws && HoldsWs(db, tx, w)
  }

  lemma MemberLocksAreClaimed(db: Db, born: set<Id>, tx: Tx, l: Lock<Row>)
    requires TxOk(db, born, tx) && LocksOk(tx) && !tx.op.DeleteUser? && l in tx.held && l.row.MemberRow?
    ensures Claims(db, tx, l.row.key.ws)
  {
    assert MayHold(tx, l);
    if tx.op.DeleteWs? { assert InScope(tx.delta, l.row.key); }
  }

  /** A started workspace call asks for membership rows of its own workspace only, and shares user rows. */
  lemma RequestIsClaimed(db: Db, born: set<Id>, tx: Tx, c: Choice)
    requires TxOk(db, born, tx) && !tx.op.DeleteUser? && Request(db, tx, c).Some?
    ensures var r := Request(db, tx, c).value;
            match r.row
            case UserRow(_) => r.mode == KeyShare
            case WsRow(_) => tx.phase.Begun?
            case MemberRow(k) => Claims(db, tx, k.ws)
  {
    if tx.phase.Cascade? { assert InScope(tx.delta, c.key); }
  }

  lemma ClaimsAreExclusive(s: State, t: Tid, o: Tid, w: Id)
    requires Inv(s) && t in s.txs && o in s.txs && t != o
    requires Claims(s.db, s.txs[t], w)
    ensures !Claims(s.db, s.txs[o], w)
  {
    var a, b := s.txs[t], s.txs[o];
    assert TxOk(s.db, s.born, a) && TxOk(s.db, s.born, b) && Apart(a, b);
    assert a.op.Create? ==> w in Reserved(a.op);
    assert Clash(ForUpdate(WsRow(w)), ForUpdate(WsRow(w)));
  }

  lemma StartedWaits(s: State, t: Tid, c: Choice, o: Tid)
    requires Inv(s) && LocksKnown(s) && t in s.txs && o in s.txs
    requires !s.txs[t].op.DeleteUser? && !s.txs[t].phase.Begun? && WaitsFor(s, t, c, o)
    ensures s.txs[o].op.DeleteUser?
  {
    var a, b := s.txs[t], s.txs[o];
    assert TxOk(s.db, s.born, a) && TxOk(s.db, s.born, b) && LocksOk(b);
    RequestIsClaimed(s.db, s.born, a, c);
    var l :| l in b.held && Clash(Request(s.db, a, c).value, l);
    if !b.op.DeleteUser? {
      assert MayHold(b, l);
      assert l.row.MemberRow?;
      MemberLocksAreClaimed(s.db, s.born, b, l);
      ClaimsAreExclusive(s, t, o, l.row.key.ws);
    }
  }

  /** In every run: beyond its first statement a call waits for account deletions only, as far as users,
      workspaces and memberships go. */
  lemma StartedWaitsForDeletions(ss: seq<State>, ls: seq<Label>, n: nat, t: Tid, c: Choice, o: Tid)
    requires IsRun(ss, ls) && n <= |ls| && t in ss[n].txs && o in ss[n].txs
    requires !ss[n].txs[t].op.DeleteUser? && !ss[n].txs[t].phase.Begun?
    requires WaitsFor(ss[n], t, c, o)
    ensures ss[n].txs[o].op.DeleteUser?
  {
    InvAt(ss, ls, n);
    LocksKnownAt(ss, ls, n);
    StartedWaits(ss[n], t, c, o);
  }

  lemma WhoeverIsWaitedForHasStarted(s: State, t: Tid, c: Choice, o: Tid)
    requires Inv(s) && t in s.txs && o in s.txs && WaitsFor(s, t, c, o)
    ensures !s.txs[o].phase.Begun?
  {
    assert TxOk(s.db, s.born, s.txs[o]);
  }

  /** In every run: of two transactions in a chain of such waits that are waited for, one is an account
      deletion. Among the other calls there is no path of length two. */
  lemma NoChainOfWaits(ss: seq<State>, ls: seq<Label>, n: nat, t: Tid, c: Choice, o: Tid, c': Choice, x: Tid)
    requires IsRun(ss, ls) && n <= |ls|
    requires t in ss[n].txs && o in ss[n].txs && x in ss[n].txs
    requires WaitsFor(ss[n], t, c, o) && WaitsFor(ss[n], o, c', x)
    ensures ss[n].txs[o].op.DeleteUser? || ss[n].txs[x].op.DeleteUser?
  {
    InvAt(ss, ls, n);
    WhoeverIsWaitedForHasStarted(ss[n], t, c, o);
    if !ss[n].txs[o].op.DeleteUser? { StartedWaitsForDeletions(ss, ls, n, o, c', x); }
  }

  // ---------------------------------------------------------------- account deletion

  /** While it locks the owned workspaces: the call that holds one is not about to ask for the user. */
  lemma OwnerIsNotAdded(s: State, d: Tid, c: Choice, b: Tid, c': Choice)
    requires Inv(s) && LocksKnown(s) && d in s.txs && b in s.txs
    requires s.txs[d].op.DeleteUser? && s.txs[d].phase.LockOwned? && !s.txs[b].op.DeleteUser?
    requires WaitsFor(s, d, c, b)
    ensures !WaitsFor(s, b, c', d)
  {
    hide Apart, Faithful, Replay, DbOk, Granted, Verdict, Effect, ListOk;
    var x, y := s.txs[d], s.txs[b];
    assert TxOk(s.db, s.born, x) && TxOk(s.db, s.born, y) && LocksOk(x) && LocksOk(y);
    var l :| l in y.held && Clash(Request(s.db, x, c).value, l);
    assert MayHold(y, l);
    assert Owns(s.db, y.op.ws, x.op.user);
    if Request(s.db, y, c').Some? {
      RequestIsClaimed(s.db, s.born, y, c');
      forall k | k in x.held ensures !Clash(Request(s.db, y, c').value, k) {
        assert MayHold(x, k);
      }
    }
  }

  lemma SameWorkspaceTwice(s: State, d: Tid, b: Tid, k: Key)
    requires Inv(s) && d in s.txs && b in s.txs && d != b
    requires s.txs[d].phase.Cascade? && s.txs[d].op.DeleteUser? && s.txs[b].phase.Cascade? && s.txs[b].op.DeleteWs?
    requires InScope(s.txs[d].delta, k) && InScope(s.txs[b].delta, k)
    ensures k == Key(s.txs[b].op.ws, s.txs[d].op.user)
  {
    var x, y := s.txs[d], s.txs[b];
    assert TxOk(s.db, s.born, x) && TxOk(s.db, s.born, y) && Apart(x, y);
    assert k.ws == y.op.ws && ForUpdate(WsRow(k.ws)) in y.held;
    assert k.ws in x.delta.goneWs ==> Clash(ForUpdate(WsRow(k.ws)), ForUpdate(WsRow(k.ws)));
  }

  lemma RowOfBlocker(s: State, d: Tid, c: Choice, b: Tid)
    requires Inv(s) && LocksKnown(s) && d in s.txs && b in s.txs
    requires s.txs[d].op.DeleteUser? && s.txs[d].phase.Cascade? && !s.txs[b].op.DeleteUser?
    requires WaitsFor(s, d, c, b)
    ensures c.Child? && InScope(s.txs[d].delta, c.key) && c.key in s.txs[b].delta.goneMembers
    ensures s.txs[b].phase.Ready? || (s.txs[b].phase.Cascade? && s.txs[b].op.DeleteWs?)
  {
    hide Apart, Faithful, Replay, DbOk, TxOk, MayHold, Request;
    var x, y := s.txs[d], s.txs[b];
    assert TxOk(s.db, s.born, x) && TxOk(s.db, s.born, y) && LocksOk(y);
    var l :| l in y.held && Clash(Request(s.db, x, c).value, l);
    CascadeAsks(s.db, s.born, x, c);
    HolderDeletes(s.db, s.born, y, l);
  }

  lemma CascadeAsks(db: Db, born: set<Id>, tx: Tx, c: Choice)
    requires TxOk(db, born, tx) && tx.phase.Cascade? && Request(db, tx, c).Some?
    ensures c.Child? && Request(db, tx, c).value.row == MemberRow(c.key)
    ensures InScope(tx.delta, c.key) && c.key in db.members && c.key !in tx.delta.goneMembers
  {
    hide ListOk;
  }

  /** Of the calls other than account deletion, a removal and a workspace deletion lock stored memberships. */
  lemma HolderDeletes(db: Db, born: set<Id>, tx: Tx, l: Lock<Row>)
    requires TxOk(db, born, tx) && MayHold(tx, l) && !tx.op.DeleteUser?
    requires l.row.MemberRow? && l.row.key in db.members
    ensures l.row.key in tx.delta.goneMembers
    ensures tx.phase.Ready? || (tx.phase.Cascade? && tx.op.DeleteWs?)
  {
    hide ListOk;
  }

  /** While it deletes memberships: the call that holds one of them either asks for nothing or
      deletes the workspace, and the two can meet in one membership row only. */
  lemma CascadesMeetOnce(s: State, d: Tid, c: Choice, b: Tid, c': Choice)
    requires Inv(s) && LocksKnown(s) && d in s.txs && b in s.txs
    requires s.txs[d].op.DeleteUser? && s.txs[d].phase.Cascade? && !s.txs[b].op.DeleteUser?
    requires WaitsFor(s, d, c, b)
    ensures !WaitsFor(s, b, c', d)
  {
    hide Apart, Faithful, Replay, DbOk, TxOk, MayHold, Request, InScope;
    RowOfBlocker(s, d, c, b);
    var x, y := s.txs[d], s.txs[b];
    if y.phase.Cascade? && Request(s.db, y, c').Some? {
      assert TxOk(s.db, s.born, x) && TxOk(s.db, s.born, y) && LocksOk(x);
      CascadeAsks(s.db, s.born, y, c');
      forall m | m in x.held ensures m.row != MemberRow(c'.key) {
        if m.row == MemberRow(c'.key) { MeetOnce(s, d, b, c.key, c'.key); }
      }
    } else if Request(s.db, y, c').Some? {
      ReadyAsksNothing(s.db, y, c');
    }
  }

  lemma ReadyAsksNothing(db: Db, tx: Tx, c: Choice)
    ensures tx.phase.Ready? ==> Request(db, tx, c).None?
  {
  }

  /** The row the deletion waits for is not yet its own, and there is no second one in both scopes. */
  lemma MeetOnce(s: State, d: Tid, b: Tid, k: Key, k': Key)
    requires Inv(s) && LocksKnown(s) && d in s.txs && b in s.txs && d != b
    requires s.txs[d].phase.Cascade? && s.txs[d].op.DeleteUser? && s.txs[b].phase.Cascade? && s.txs[b].op.DeleteWs?
    requires InScope(s.txs[d].delta, k) && k in s.txs[b].delta.goneMembers
    requires InScope(s.txs[b].delta, k') && k' in s.db.members && k' !in s.txs[b].delta.goneMembers
    ensures forall m | m in s.txs[d].held :: m.row != MemberRow(k')
  {
    hide Apart, Faithful, Replay, DbOk, ListOk;
    assert TxOk(s.db, s.born, s.txs[d]) && TxOk(s.db, s.born, s.txs[b]) && LocksOk(s.txs[d]);
    SameWorkspaceTwice(s, d, b, k);
    forall m | m in s.txs[d].held && m.row == MemberRow(k') ensures k' == k {
      assert MayHold(s.txs[d], m);
      SameWorkspaceTwice(s, d, b, k');
    }
  }

  /** Whoever an account deletion waits for does not wait for it, unless it is another deletion. */
  lemma BlockerDoesNotWait(s: State, d: Tid, c: Choice, b: Tid, c': Choice)
    requires Inv(s) && LocksKnown(s) && d in s.txs && b in s.txs
    requires s.txs[d].op.DeleteUser? && !s.txs[b].op.DeleteUser?
    requires WaitsFor(s, d, c, b)
    ensures !WaitsFor(s, b, c', d)
  {
    assert TxOk(s.db, s.born, s.txs[d]);
    match s.txs[d].phase
    case LockOwned(_) => OwnerIsNotAdded(s, d, c, b, c');
    case Cascade(_, _) => CascadesMeetOnce(s, d, c, b, c');
    case _ =>
  }

  predicate AtMostOneDeletion(s: State) {
    forall t, o | t in s.txs && o in s.txs && s.txs[t].op.DeleteUser? && s.txs[o].op.DeleteUser? :: t == o
  }

  ghost predicate Waits(s: State, t: Tid, o: Tid) {
    t in s.txs && o in s.txs && exists c :: WaitsFor(s, t, c, o)
  }

  /** The transactions of a cycle in the wait-for graph, each waiting for the next and the last for the first. */
  ghost predicate IsCycle(s: State, p: seq<Tid>) {
    p != [] && forall i | 0 <= i < |p| :: Waits(s, p[i], Following(p, i))
  }

  lemma CycleMember(s: State, p: seq<Tid>, i: nat)
    requires Inv(s) && LocksKnown(s) && IsCycle(s, p) && i < |p|
    ensures p[i] in s.txs && Following(p, i) in s.txs
    ensures s.txs[p[i]].op.DeleteUser? || s.txs[Following(p, i)].op.DeleteUser?
  {
    hide Inv, LocksKnown, WaitsFor;
    assert Waits(s, p[i], Following(p, i));
    var before := if i == 0 then |p| - 1 else i - 1;
    assert Waits(s, p[before], Following(p, before)) && Following(p, before) == p[i];
    var b :| WaitsFor(s, p[before], b, p[i]);
    WhoeverIsWaitedForHasStarted(s, p[before], b, p[i]);
    var c :| WaitsFor(s, p[i], c, Following(p, i));
    if !s.txs[p[i]].op.DeleteUser? { StartedWaits(s, p[i], c, Following(p, i)); }
  }

  /** In every state of every run: whatever else is open, two different account deletions take part
      in every cycle of waits. */
  lemma CyclesHaveTwoDeletions(ss: seq<State>, ls: seq<Label>, n: nat, p: seq<Tid>)
    requires IsRun(ss, ls) && n <= |ls| && IsCycle(ss[n], p)
    ensures exists i, j ::
              && 0 <= i < |p| && 0 <= j < |p| && p[i] != p[j]
              && p[i] in ss[n].txs && p[j] in ss[n].txs
              && ss[n].txs[p[i]].op.DeleteUser? && ss[n].txs[p[j]].op.DeleteUser?
  {
    hide LocksKnown, Inv;
    InvAt(ss, ls, n);
    LocksKnownAt(ss, ls, n);
    var s := ss[n];
    CycleMember(s, p, 0);
    var i := if s.txs[p[0]].op.DeleteUser? then 0 else if |p| == 1 then 0 else 1;
    var j := if i + 1 < |p| then i + 1 else 0;
    var k := if j + 1 < |p| then j + 1 else 0;
    CycleMember(s, p, j);
    assert Waits(s, p[i], p[j]) && Waits(s, p[j], p[k]);
    NotBothWays(s, p[i], p[j]);
    assert p[i] != p[if s.txs[p[j]].op.DeleteUser? then j else k];
  }

  /** With at most one open account deletion the wait-for graph on these rows has no cycle. */
  lemma NoCycleOfWaits(ss: seq<State>, ls: seq<Label>, n: nat, p: seq<Tid>)
    requires IsRun(ss, ls) && n <= |ls| && AtMostOneDeletion(ss[n])
    ensures !IsCycle(ss[n], p)
  {
    if IsCycle(ss[n], p) { CyclesHaveTwoDeletions(ss, ls, n, p); }
  }

  lemma NotBothWays(s: State, d: Tid, b: Tid)
    requires Inv(s) && LocksKnown(s) && Waits(s, d, b)
    ensures s.txs[d].op.DeleteUser? && !s.txs[b].op.DeleteUser? ==> !Waits(s, b, d)
  {
    if s.txs[d].op.DeleteUser? && !s.txs[b].op.DeleteUser? {
      var c :| WaitsFor(s, d, c, b);
      forall c' ensures !WaitsFor(s, b, c', d) { BlockerDoesNotWait(s, d, c, b, c'); }
    }
  }
}
