/** Calls never get stuck on users, workspaces and memberships while at most one account deletion is
    open: whatever has happened, every open call can still be finished. ThreadProgress is the like for
    channels and messages, on which deletions can also meet. */
module OwnershipProgress {
  import opened Base
  import opened Entities
  import opened OwnershipModel
  import opened OwnershipInvariant
  import opened OwnershipRuns
  import opened OwnershipTheorems
  import opened OwnershipWaiting

  /** Steps from any state; a run is a path from INIT. */
  predicate IsPath(ss: seq<State>, ls: seq<Label>) {
    && |ss| == |ls| + 1
    && forall i | 0 <= i < |ls| :: Next(ss[i], ls[i], ss[i + 1])
  }

  predicate OnlyActs(ls: seq<Label>) {
    forall i | 0 <= i < |ls| :: ls[i].Act?
  }

  /** All steps are statements of one call. */
  predicate OnlyActsOf(t: Tid, ls: seq<Label>) {
    forall i | 0 <= i < |ls| :: ls[i].Act? && ls[i].t == t
  }

  lemma JoinPaths(ss: seq<State>, ls: seq<Label>, ss': seq<State>, ls': seq<Label>)
    requires IsPath(ss, ls) && IsPath(ss', ls') && ss[|ls|] == ss'[0]
    ensures IsPath(ss + ss'[1..], ls + ls')
    ensures (ss + ss'[1..])[|ls + ls'|] == ss'[|ls'|]
  {
    var joined := ss + ss'[1..];
    forall i | 0 <= i < |ls + ls'| ensures Next(joined[i], (ls + ls')[i], joined[i + 1]) {
      if i < |ls| {
        assert Next(ss[i], ls[i], ss[i + 1]);
      } else {
        assert Next(ss'[i - |ls|], ls'[i - |ls|], ss'[i - |ls| + 1]);
      }
    }
  }

  /** An open transaction always has a statement to go on with. */
  lemma HasMove(db: Db, born: set<Id>, tx: Tx) returns (c: Choice)
    requires TxOk(db, born, tx)
    ensures !Advance(db, tx, c).Stuck?
  {
    c := Only;
    match tx.phase
    case LockOwned(todo) => if todo != {} { var w :| w in todo; c := Ws(w); }
    case Cascade(pend, rows) =>
      if rows != {} { var k :| k in rows; c := Child(k); }
      else if pend != {} { var p :| p in pend; c := Parent(p); }
    case _ =>
  }

  // ---------------------------------------------------------------- how far a call still has to go

  function Stage(tx: Tx): nat {
    match tx.phase
    case Begun => 9
    case ListMembers => 8
    case CheckActor => 8
    case FindOwned => 8
    case InsertMember => 7
    case DeleteMember => 7
    case DropWorkspace => 7
    case LockOwned(_) => 7
    case CheckUserFk => 6
    case DropUser => 5
    case Cascade(_, _) => if tx.op.DeleteUser? && tx.delta.goneUsers == {} then 6 else 3
    case Answered(_) => 0
    case Ready => 0
  }

  /** Parent rows, and then rows of the running query, still to be visited. */
  function Parents(tx: Tx): set<Row> {
    match tx.phase
    case LockOwned(todo) => set w | w in todo :: WsRow(w)
    case Cascade(pend, _) => pend
    case _ => {}
  }

  function Children(tx: Tx): set<Key> {
    if tx.phase.Cascade? then tx.phase.rows else {}
  }

  lemma AdvanceGetsOn(db: Db, tx: Tx, c: Choice)
    requires Advance(db, tx, c).Continue?
    ensures var tx' := Advance(db, tx, c).tx;
            || Stage(tx') < Stage(tx)
            || (Stage(tx') == Stage(tx) && Parents(tx') < Parents(tx))
            || (Stage(tx') == Stage(tx) && Parents(tx') == Parents(tx) && Children(tx') < Children(tx))
  {
    if tx.phase.LockOwned? && tx.phase.todo != {} {
      var tx' := Advance(db, tx, c).tx;
      assert tx'.phase == LockOwned(tx.phase.todo - {c.ws});
      assert WsRow(c.ws) in Parents(tx) && WsRow(c.ws) !in Parents(tx');
    }
  }

  function After(s: State, t: Tid, m: Move): State
    requires t in s.txs && !m.Stuck?
  {
    match m
    case Continue(tx) => s.(txs := s.txs[t := tx])
    case Return(o) => s.(txs := s.txs - {t}, log := s.log + [Event(s.txs[t].op, o)])
    case Publish(o) =>
      State(Apply(s.db, s.txs[t].delta), s.born + Reserved(s.txs[t].op), s.txs - {t},
            s.log + [Event(s.txs[t].op, o)])
  }

  /** A transaction that nobody stands in the way of takes its next statement. */
  lemma GoOn(s: State, t: Tid, c: Choice) returns (s': State)
    requires Inv(s) && LocksKnown(s) && t in s.txs
    requires !Advance(s.db, s.txs[t], c).Stuck? && Granted(s, t, c)
    ensures Next(s, Act(t, c), s') && Inv(s') && LocksKnown(s')
    ensures s' == After(s, t, Advance(s.db, s.txs[t], c))
  {
    s' := After(s, t, Advance(s.db, s.txs[t], c));
    NextKeepsInv(s, Act(t, c), s');
    NextKeepsLocks(s, Act(t, c), s');
  }

  /** The call t, open in s, has been answered in s', and nothing else has happened to the open calls. */
  ghost predicate Finished(s: State, t: Tid, s': State)
    requires t in s.txs
  {
    && s'.txs == s.txs - {t}
    && (exists o :: s'.log == s.log + [Event(s.txs[t].op, o)])
    && s'.born <= s.born + Reserved(s.txs[t].op)
  }

  /** The call t has gone on from s as far as it could, and waits. */
  ghost predicate Halted(s: State, t: Tid, s': State)
    requires t in s.txs
  {
    && t in s'.txs
    && s' == s.(txs := s.txs[t := s'.txs[t]])
    && s'.txs[t].op == s.txs[t].op
    && s.txs[t].held <= s'.txs[t].held
    && (s'.txs[t].phase.Begun? ==> s' == s)
    && exists o :: Waits(s', t, o)
  }

  lemma HaltedLater(s: State, t: Tid, s1: State, s2: State)
    requires t in s.txs && t in s1.txs && s1 == s.(txs := s.txs[t := s1.txs[t]])
    requires s1.txs[t].op == s.txs[t].op && s.txs[t].held <= s1.txs[t].held && !s1.txs[t].phase.Begun?
    ensures Halted(s1, t, s2) ==> Halted(s, t, s2)
    ensures Finished(s1, t, s2) ==> Finished(s, t, s2)
  {
    assert s1.txs - {t} == s.txs - {t};
    if Halted(s1, t, s2) {
      assert s1.txs[t := s2.txs[t]] == s.txs[t := s2.txs[t]];
    }
  }

  /** Statement by statement, a call on its own gets to its answer or to a lock it has to wait for. */
  lemma {:induction false} RunOn(s: State, t: Tid) returns (ss: seq<State>, ls: seq<Label>)
    requires Inv(s) && LocksKnown(s) && t in s.txs
    ensures IsPath(ss, ls) && ss[0] == s && OnlyActsOf(t, ls)
    ensures Inv(ss[|ls|]) && LocksKnown(ss[|ls|])
    ensures Finished(s, t, ss[|ls|]) || Halted(s, t, ss[|ls|])
    decreases Stage(s.txs[t]), Parents(s.txs[t]), Children(s.txs[t])
  {
    hide Inv, LocksKnown;
    var c := SomeMove(s, t);
    if !Granted(s, t, c) {
      var o :| o in s.txs && WaitsFor(s, t, c, o);
      assert Waits(s, t, o);
      ss, ls := [s], [];
      return;
    }
    var s' := GoOn(s, t, c);
    var m := Advance(s.db, s.txs[t], c);
    ss, ls := [s, s'], [Act(t, c)];
    if m.Continue? {
      AdvanceGetsOn(s.db, s.txs[t], c);
      HeldGrows(s.db, s.txs[t], c);
      NotBegunAgain(s.db, s.txs[t], c);
      var ss', ls' := RunOn(s', t);
      HaltedLater(s, t, s', ss'[|ls'|]);
      JoinPaths(ss, ls, ss', ls');
      ss, ls := ss + ss'[1..], ls + ls';
    } else {
      assert s'.log == s.log + [Event(s.txs[t].op, m.outcome)];
    }
  }

  lemma SomeMove(s: State, t: Tid) returns (c: Choice)
    requires Inv(s) && t in s.txs
    ensures !Advance(s.db, s.txs[t], c).Stuck?
  {
    assert TxOk(s.db, s.born, s.txs[t]);
    c := HasMove(s.db, s.born, s.txs[t]);
  }

  lemma NotBegunAgain(db: Db, tx: Tx, c: Choice)
    ensures Advance(db, tx, c).Continue? ==> !Advance(db, tx, c).tx.phase.Begun?
  {
  }

  /** With no account deletion open, a call past its first statement finishes without anybody else
      taking a step; so does any call while none is past its first statement. */
  lemma FinishOne(s: State, t: Tid) returns (ss: seq<State>, ls: seq<Label>)
    requires Inv(s) && LocksKnown(s) && t in s.txs
    requires forall o | o in s.txs :: !s.txs[o].op.DeleteUser?
    requires s.txs[t].phase.Begun? ==> forall o | o in s.txs :: s.txs[o].phase.Begun?
    ensures IsPath(ss, ls) && ss[0] == s && OnlyActsOf(t, ls)
    ensures Inv(ss[|ls|]) && LocksKnown(ss[|ls|]) && Finished(s, t, ss[|ls|])
  {
    hide Inv, LocksKnown;
    ss, ls := RunOn(s, t);
    var s' := ss[|ls|];
    if Halted(s, t, s') {
      var o :| Waits(s', t, o);
      var c :| WaitsFor(s', t, c, o);
      WhoeverIsWaitedForHasStarted(s', t, c, o);
      if !s'.txs[t].phase.Begun? { StartedWaits(s', t, c, o); }
    }
  }

  /** Whoever the only open account deletion waits for finishes without anybody else taking a step. */
  lemma FinishBlocker(s: State, d: Tid, b: Tid) returns (ss: seq<State>, ls: seq<Label>)
    requires Inv(s) && LocksKnown(s) && AtMostOneDeletion(s)
    requires Waits(s, d, b) && s.txs[d].op.DeleteUser?
    ensures IsPath(ss, ls) && ss[0] == s && OnlyActsOf(b, ls)
    ensures Inv(ss[|ls|]) && LocksKnown(ss[|ls|]) && Finished(s, b, ss[|ls|])
  {
    hide Inv, LocksKnown;
    var c :| WaitsFor(s, d, c, b);
    WhoeverIsWaitedForHasStarted(s, d, c, b);
    ss, ls := RunOn(s, b);
    var s' := ss[|ls|];
    if Halted(s, b, s') {
      var o :| Waits(s', b, o);
      var c' :| WaitsFor(s', b, c', o);
      StartedWaits(s', b, c', o);
      assert WaitsFor(s', d, c, b);
      BlockerDoesNotWait(s', d, c, b, c');
    }
  }

  /** Some open call can be finished. */
  lemma FinishSome(s: State) returns (ss: seq<State>, ls: seq<Label>, t: Tid)
    requires Inv(s) && LocksKnown(s) && AtMostOneDeletion(s) && s.txs != map[]
    ensures IsPath(ss, ls) && ss[0] == s && OnlyActs(ls)
    ensures Inv(ss[|ls|]) && LocksKnown(ss[|ls|]) && AtMostOneDeletion(ss[|ls|])
    ensures t in s.txs && ss[|ls|].txs.Keys == s.txs.Keys - {t} && |ss[|ls|].log| == |s.log| + 1
  {
    hide Inv, LocksKnown;
    if d :| d in s.txs && s.txs[d].op.DeleteUser? {
      t := d;
      ss, ls := RunOn(s, d);
      var s1 := ss[|ls|];
      if Halted(s, d, s1) {
        var b :| Waits(s1, d, b);
        t := b;
        var ss', ls' := FinishBlocker(s1, d, b);
        JoinPaths(ss, ls, ss', ls');
        ss, ls := ss + ss'[1..], ls + ls';
      }
    } else {
      t :| t in s.txs;
      if o :| o in s.txs && !s.txs[o].phase.Begun? { t := o; }
      ss, ls := FinishOne(s, t);
    }
  }

  lemma {:induction false} FinishAll(s: State) returns (ss: seq<State>, ls: seq<Label>)
    requires Inv(s) && LocksKnown(s) && AtMostOneDeletion(s)
    ensures IsPath(ss, ls) && ss[0] == s && OnlyActs(ls)
    ensures ss[|ls|].txs == map[] && |ss[|ls|].log| == |s.log| + |s.txs|
    decreases |s.txs|
  {
    hide Inv, LocksKnown, AtMostOneDeletion;
    if s.txs == map[] {
      ss, ls := [s], [];
    } else {
      var t;
      ss, ls, t := FinishSome(s);
      var s' := ss[|ls|];
      assert s.txs.Keys == s'.txs.Keys + {t};
      assert |s.txs| == |s.txs.Keys| && |s'.txs| == |s'.txs.Keys|;
      var ss', ls' := FinishAll(s');
      JoinPaths(ss, ls, ss', ls');
      ss, ls := ss + ss'[1..], ls + ls';
    }
  }

  /** From every state of every run in which at most one account deletion is open, all open calls can
      be run to their answers, nobody being aborted: a deadlock on the rows of this model needs two open
      account deletions, and two are enough for one. */
  lemma EveryCallCanFinish(ss: seq<State>, ls: seq<Label>) returns (more: seq<State>, acts: seq<Label>)
    requires IsRun(ss, ls) && AtMostOneDeletion(ss[|ls|])
    ensures IsRun(ss + more, ls + acts) && OnlyActs(acts)
    ensures var last := (ss + more)[|ls + acts|];
            last.txs == map[] && |last.log| == |ss[|ls|].log| + |ss[|ls|].txs|
  {
    InvAt(ss, ls, |ls|);
    LocksKnownAt(ss, ls, |ls|);
    var ss';
    ss', acts := FinishAll(ss[|ls|]);
    JoinPaths(ss, ls, ss', acts);
    more := ss'[1..];
  }
}
