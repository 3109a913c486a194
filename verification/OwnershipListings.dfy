/** When the answer of ReadWorkspace is the one it gives alone on the tables it finishes on. */
module OwnershipListings {
  import opened Base
  import opened Entities
  import opened OwnershipModel
  import opened OwnershipInvariant
  import opened OwnershipRuns
  import opened OwnershipTheorems

  // ---------------------------------------------------------------- in the log

  /** Every beginning of the log was the whole log once. */
  lemma {:induction false} LogOnceWas(ss: seq<State>, ls: seq<Label>, n: nat, i: nat) returns (j: nat)
    requires IsRun(ss, ls) && n <= |ls| && i <= |ss[n].log|
    ensures j <= n && ss[j].log == ss[n].log[..i]
  {
    if i == |ss[n].log| {
      j := n;
      assert ss[n].log[..i] == ss[n].log;
    } else {
      assert Next(ss[n - 1], ls[n - 1], ss[n]);
      LogGrowsByOne(ss[n - 1], ls[n - 1], ss[n]);
      assert ss[n].log[..i] == ss[n - 1].log[..i];
      j := LogOnceWas(ss, ls, n - 1, i);
    }
  }

  lemma LogGrowsByOne(s: State, l: Label, s': State)
    requires Next(s, l, s')
    ensures |s.log| <= |s'.log| <= |s.log| + 1 && s'.log[..|s.log|] == s.log
  {
  }

  lemma ExactIff(op: Op, outcome: Outcome, db: Db)
    requires KeysHold(db) && Agrees(op, outcome, db)
    ensures outcome == Verdict(op, db) <==> (outcome.Listed? ==> outcome.list.Keys <= db.users)
  {
    if outcome.Listed? {
      MembersOfContents(db, op.ws);
      var current := CurrentPart(db, outcome.list);
      if outcome.list.Keys <= db.users {
        assert outcome.list == current;
        assert op.actor in current;
      }
      if outcome == Verdict(op, db) {
        forall u | u in outcome.list ensures u in db.users { assert Key(op.ws, u) in db.members; }
      }
    }
  }

  /** In every run a finished call answered exactly what it answers in the replay of the log, if and
      only if all accounts it listed still existed when it finished. All answers but listings are
      therefore exact. */
  lemma AnswerExactIff(ss: seq<State>, ls: seq<Label>, n: nat, i: nat)
    requires IsRun(ss, ls) && n <= |ls| && i < |ss[n].log|
    ensures var e, db := ss[n].log[i], Replay(ss[n].log[..i]);
            e.outcome == Verdict(e.op, db) <==> (e.outcome.Listed? ==> e.outcome.list.Keys <= db.users)
  {
    var j := LogOnceWas(ss, ls, n, i);
    InvAt(ss, ls, n);
    InvAt(ss, ls, j);
    ExactIff(ss[n].log[i].op, ss[n].log[i].outcome, ss[j].db);
  }

  /** What ReadWorkspace is about to return is the current membership exactly when every listed
      account still exists: additions, removals and workspace deletion cannot make it stale. */
  lemma ListingCurrentIff(ss: seq<State>, ls: seq<Label>, n: nat, t: Tid)
    requires IsRun(ss, ls) && n <= |ls| && t in ss[n].txs && ss[n].txs[t].phase.Answered?
    ensures var tx, db := ss[n].txs[t], ss[n].db;
            && tx.op.Read?
            && tx.op.ws in db.workspaces
            && tx.op.actor in tx.phase.list
            && (tx.phase.list == MembersOf(db, tx.op.ws) <==> tx.phase.list.Keys <= db.users)
  {
    hide Next;
    InvAt(ss, ls, n);
    var tx, db := ss[n].txs[t], ss[n].db;
    assert TxOk(db, ss[n].born, tx);
    MembersOfContents(db, tx.op.ws);
    if tx.phase.list == MembersOf(db, tx.op.ws) {
      forall u | u in tx.phase.list ensures u in db.users {
        assert Key(tx.op.ws, u) in db.members;
      }
    }
  }

  // ---------------------------------------------------------------- in the run

  /** The step commits the deletion of the account u. */
  predicate CommitsDeletion(s: State, l: Label, u: Id) {
    l.Act? && l.t in s.txs && s.txs[l.t].op == DeleteUser(u) && s.txs[l.t].phase == Ready
  }

  /** Between the steps j and n an account deletion of a member of w commits. */
  ghost predicate MemberLeaves(ss: seq<State>, ls: seq<Label>, j: nat, n: nat, w: Id)
    requires n < |ls| && |ss| == |ls| + 1
  {
    exists k, u :: j < k < n && CommitsDeletion(ss[k], ls[k], u) && Key(w, u) in ss[k].db.members
  }

  lemma CommittedUsers(db: Db, born: set<Id>, tx: Tx)
    requires TxOk(db, born, tx) && Committing(tx)
    ensures Apply(db, tx.delta).users
            == match tx.op
               case Register(u) => db.users + {u}
               case DeleteUser(u) => db.users - {u}
               case _ => db.users
  {
    if tx.phase == Ready { CommitIsEffect(db, born, tx); }
  }

  /** Users come by registration, under an id never seen before, and go by a committed deletion. */
  lemma UsersAfter(s: State, l: Label, s': State, u: Id)
    requires Inv(s) && Next(s, l, s')
    ensures s.born <= s'.born
    ensures u in s'.db.users && u !in s.db.users ==> u !in s.born
    ensures u !in s'.db.users && u in s.db.users ==> CommitsDeletion(s, l, u)
    ensures CommitsDeletion(s, l, u) ==> u !in s'.db.users
  {
    if l.Act? {
      var tx := s.txs[l.t];
      OnlyCommittingPublish(s.db, tx, l.choice);
      assert TxOk(s.db, s.born, tx);
      hide TxOk, DbOk, Advance, Apply, Faithful, Replay;
      if Committing(tx) {
        CommittedUsers(s.db, s.born, tx);
        assert tx.op.Register? ==> tx.op.user in Reserved(tx.op);
      }
    }
  }

  lemma UsersAfterAt(ss: seq<State>, ls: seq<Label>, n: nat, u: Id)
    requires IsRun(ss, ls) && n < |ls|
    ensures ss[n].born <= ss[n + 1].born && ss[n].db.users <= ss[n].born
    ensures u in ss[n + 1].db.users && u !in ss[n].db.users ==> u !in ss[n].born
    ensures u !in ss[n + 1].db.users && u in ss[n].db.users ==> CommitsDeletion(ss[n], ls[n], u)
    ensures CommitsDeletion(ss[n], ls[n], u) ==> u !in ss[n + 1].db.users
  {
    InvAt(ss, ls, n);
    UsersAfter(ss[n], ls[n], ss[n + 1], u);
  }

  lemma {:induction false} UserLostBetween(ss: seq<State>, ls: seq<Label>, i: nat, n: nat, u: Id) returns (k: nat)
    requires IsRun(ss, ls) && i <= n <= |ls|
    requires u in ss[i].db.users && u !in ss[n].db.users
    ensures i <= k < n && u in ss[k].db.users && CommitsDeletion(ss[k], ls[k], u)
  {
    hide Next, CommitsDeletion;
    k := n - 1;
    UsersAfterAt(ss, ls, k, u);
    if u !in ss[k].db.users { k := UserLostBetween(ss, ls, i, k, u); }
  }

  lemma {:induction false} GoneForGood(ss: seq<State>, ls: seq<Label>, i: nat, n: nat, u: Id)
    requires IsRun(ss, ls) && i <= n <= |ls|
    requires u in ss[i].born && u !in ss[i].db.users
    ensures u in ss[n].born && u !in ss[n].db.users
  {
    hide CommitsDeletion, Next;
    if i < n {
      GoneForGood(ss, ls, i, n - 1, u);
      UsersAfterAt(ss, ls, n - 1, u);
    }
  }

  /** The read t lists the members in step j and answers in step n. */
  ghost predicate ReadsBetween(ss: seq<State>, ls: seq<Label>, j: nat, n: nat, t: Tid) {
    && IsRun(ss, ls) && j < n < |ls|
    && ls[j].Act? && ls[j].t == t && t in ss[j].txs && ss[j].txs[t].phase == ListMembers
    && ls[n].Act? && ls[n].t == t
    && t in ss[j + 1].txs && (forall k | j < k <= n :: t in ss[k].txs && ss[k].txs[t] == ss[j + 1].txs[t])
    && ss[n].txs[t].phase.Answered?
  }

  lemma ListedAt(ss: seq<State>, ls: seq<Label>, j: nat, n: nat, t: Tid, k: nat)
    requires ReadsBetween(ss, ls, j, n, t) && j < k <= n
    ensures var w, list := ss[n].txs[t].op.ws, ss[n].txs[t].phase.list;
            && ss[n].txs[t].op.Read?
            && ListOk(ss[k].db, ss[k].born, w, list)
  {
    InvAt(ss, ls, k);
    assert TxOk(ss[k].db, ss[k].born, ss[k].txs[t]);
    assert ss[k].txs[t] == ss[n].txs[t];
  }

  lemma ListedUsersExisted(ss: seq<State>, ls: seq<Label>, j: nat, n: nat, t: Tid)
    requires ReadsBetween(ss, ls, j, n, t)
    ensures ss[n].txs[t].phase.list.Keys <= ss[j + 1].db.users
  {
    InvAt(ss, ls, j);
    assert Next(ss[j], ls[j], ss[j + 1]);
    assert ss[n].txs[t] == ss[j + 1].txs[t];
    ListedExist(ss[j], t, ls[j].choice, ss[j + 1]);
  }

  lemma ListedExist(s: State, t: Tid, c: Choice, s': State)
    requires Inv(s) && t in s.txs && Next(s, Act(t, c), s') && s.txs[t].phase == ListMembers
    requires t in s'.txs && s'.txs[t].phase.Answered?
    ensures s'.db == s.db && s'.txs[t].phase.list.Keys <= s.db.users
  {
    hide Effect, Verdict, Faithful, Replay, MembersOf, Apart, Reserved;
    var tx := s.txs[t];
    assert TxOk(s.db, s.born, tx);
    assert Apply(s.db, tx.delta) == s.db;
    MembersOfContents(s.db, tx.op.ws);
    forall u | u in s'.txs[t].phase.list ensures u in s.db.users {
      assert Key(tx.op.ws, u) in s.db.members;
    }
  }

  /** A listing is out of date when it is answered if and only if, since it was read, the deletion of
      some member's account has committed. */
  lemma ListingStaleIff(ss: seq<State>, ls: seq<Label>, j: nat, n: nat, t: Tid)
    requires ReadsBetween(ss, ls, j, n, t)
    ensures var op, list := ss[n].txs[t].op, ss[n].txs[t].phase.list;
            && ss[n + 1].log == ss[n].log + [Event(op, Listed(list))]
            && (Listed(list) != Verdict(op, Replay(ss[n].log)) <==> MemberLeaves(ss, ls, j, n, op.ws))
  {
    var op, list, db := ss[n].txs[t].op, ss[n].txs[t].phase.list, ss[n].db;
    ListedAt(ss, ls, j, n, t, n);
    assert Next(ss[n], ls[n], ss[n + 1]);
    InvAt(ss, ls, n);
    CommitAgrees(db, ss[n].born, ss[n].txs[t]);
    ExactIff(op, Listed(list), db);
    if MemberLeaves(ss, ls, j, n, op.ws) {
      var k, u :| j < k < n && CommitsDeletion(ss[k], ls[k], u) && Key(op.ws, u) in ss[k].db.members;
      DepartedIsListed(ss, ls, j, n, t, k, u);
    }
    if u :| u in list && u !in db.users {
      StaleNamesDeparted(ss, ls, j, n, t, u);
    }
  }

  lemma DepartedIsListed(ss: seq<State>, ls: seq<Label>, j: nat, n: nat, t: Tid, k: nat, u: Id)
    requires ReadsBetween(ss, ls, j, n, t) && j < k < n && CommitsDeletion(ss[k], ls[k], u)
    requires ss[n].txs[t].op.Read? && Key(ss[n].txs[t].op.ws, u) in ss[k].db.members
    ensures u in ss[n].txs[t].phase.list && u !in ss[n].db.users
  {
    ListedAt(ss, ls, j, n, t, k);
    KeyUserExists(ss, ls, k, Key(ss[n].txs[t].op.ws, u));
    UsersAfterAt(ss, ls, k, u);
    GoneForGood(ss, ls, k + 1, n, u);
  }

  lemma KeyUserExists(ss: seq<State>, ls: seq<Label>, k: nat, key: Key)
    requires IsRun(ss, ls) && k <= |ls| && key in ss[k].db.members
    ensures key.user in ss[k].db.users
  {
    InvAt(ss, ls, k);
  }

  lemma StaleNamesDeparted(ss: seq<State>, ls: seq<Label>, j: nat, n: nat, t: Tid, u: Id)
    requires ReadsBetween(ss, ls, j, n, t) && ss[n].txs[t].op.Read?
    requires u in ss[n].txs[t].phase.list && u !in ss[n].db.users
    ensures MemberLeaves(ss, ls, j, n, ss[n].txs[t].op.ws)
  {
    ListedUsersExisted(ss, ls, j, n, t);
    var k := UserLostBetween(ss, ls, j + 1, n, u);
    ListedAt(ss, ls, j, n, t, k);
    assert CommitsDeletion(ss[k], ls[k], u) && Key(ss[n].txs[t].op.ws, u) in ss[k].db.members;
  }

  lemma {:induction false} ListedSomewhere(ss: seq<State>, ls: seq<Label>, n: nat, m: nat, t: Tid) returns (j: nat)
    requires IsRun(ss, ls) && n <= m < |ls| && ls[m].Act? && ls[m].t == t
    requires t in ss[n].txs && forall k | n <= k <= m :: t in ss[k].txs && ss[k].txs[t] == ss[n].txs[t]
    requires ss[n].txs[t].phase.Answered?
    ensures ReadsBetween(ss, ls, j, m, t)
  {
    assert n > 0;
    j := n - 1;
    assert Next(ss[j], ls[j], ss[n]);
    AnsweredBefore(ss[j], ls[j], ss[n], t);
    if ss[j].txs[t] == ss[n].txs[t] {
      j := ListedSomewhere(ss, ls, j, m, t);
    }
  }

  lemma AnsweredBefore(s: State, l: Label, s': State, t: Tid)
    requires Next(s, l, s') && t in s'.txs && s'.txs[t].phase.Answered?
    ensures t in s.txs
    ensures s.txs[t] == s'.txs[t] || (l.Act? && l.t == t && s.txs[t].phase == ListMembers)
  {
  }

  /** In every run a call that finishes in step n answers exactly what it answers alone on the tables
      of that moment, unless it is a read and the deletion of some member's account has committed
      between its listing and its answer. */
  lemma AnswersAreExactUnlessMemberLeft(ss: seq<State>, ls: seq<Label>, n: nat, t: Tid, e: Event)
    requires IsRun(ss, ls) && n < |ls| && ls[n].Act? && ls[n].t == t
    requires ss[n + 1].log == ss[n].log + [e]
    ensures e.outcome != Verdict(e.op, Replay(ss[n].log))
            <==> e.op.Read? && exists j :: ReadsBetween(ss, ls, j, n, t) && MemberLeaves(ss, ls, j, n, e.op.ws)
  {
    InvAt(ss, ls, n);
    InvAt(ss, ls, n + 1);
    assert Next(ss[n], ls[n], ss[n + 1]);
    LastAnswer(ss[n], t, ls[n].choice, ss[n + 1], e);
    if ss[n].txs[t].phase.Answered? {
      var j := ListedSomewhere(ss, ls, n, n, t);
      forall i | ReadsBetween(ss, ls, i, n, t)
        ensures e.outcome != Verdict(e.op, Replay(ss[n].log)) <==> MemberLeaves(ss, ls, i, n, e.op.ws)
      {
        ListingStaleIff(ss, ls, i, n, t);
      }
    }
  }

  lemma LastAnswer(s: State, t: Tid, c: Choice, s': State, e: Event)
    requires Inv(s) && Next(s, Act(t, c), s') && s'.log == s.log + [e]
    ensures e.op == s.txs[t].op
    ensures if s.txs[t].phase.Answered? then e.op.Read? && e.outcome == Listed(s.txs[t].phase.list)
            else e.outcome == Verdict(e.op, Replay(s.log))
  {
    hide Faithful, Replay, Apart, Agrees;
    var tx := s.txs[t];
    assert TxOk(s.db, s.born, tx);
    assert s'.log[|s.log|] == e;
    OnlyCommittingPublish(s.db, tx, c);
    if tx.phase == Ready {
      CommitIsEffect(s.db, s.born, tx);
    } else if Advance(s.db, tx, c).Return? {
      ReturnIsVerdict(s.db, s.born, tx, c);
    }
  }

  // ---------------------------------------------------------------- one moment for each call

  /** The statement that lists the members sees the tables of its own moment. */
  lemma ListingIsVerdict(s: State, t: Tid, c: Choice, s': State)
    requires Inv(s) && t in s.txs && Next(s, Act(t, c), s') && s.txs[t].phase == ListMembers
    requires t in s'.txs && s'.txs[t].phase.Answered?
    ensures s'.txs[t].op == s.txs[t].op
    ensures Listed(s'.txs[t].phase.list) == Verdict(s.txs[t].op, s.db)
  {
    hide Effect, Faithful, Replay, Apart, Reserved;
    var tx := s.txs[t];
    assert TxOk(s.db, s.born, tx);
    assert Apply(s.db, tx.delta) == s.db;
    MembersOfContents(s.db, tx.op.ws);
  }

  /** Every call of every run answers what it answers when it runs alone at one moment k while it is
      open: on the tables its listing saw if it is a read, and on those it finishes on otherwise. So
      the calls of a run can be put in an order, each at a moment of its own life, in which all
      answers are exact; for a read that need not be the order of commits. */
  lemma ExactAtOneMoment(ss: seq<State>, ls: seq<Label>, n: nat, t: Tid, e: Event) returns (k: nat)
    requires IsRun(ss, ls) && n < |ls| && ls[n].Act? && ls[n].t == t && ss[n + 1].log == ss[n].log + [e]
    ensures k <= n && forall i | k <= i <= n :: t in ss[i].txs && ss[i].txs[t].op == e.op
    ensures ss[k].db == Replay(ss[k].log)
    ensures e.outcome == Verdict(e.op, ss[k].db)
    ensures !e.op.Read? ==> k == n
  {
    hide Inv, Verdict, Replay;
    assert Next(ss[n], ls[n], ss[n + 1]);
    InvAt(ss, ls, n);
    LastAnswer(ss[n], t, ls[n].choice, ss[n + 1], e);
    k := n;
    if ss[n].txs[t].phase.Answered? {
      k := ListedSomewhere(ss, ls, n, n, t);
      assert Next(ss[k], ls[k], ss[k + 1]);
      InvAt(ss, ls, k);
      ListingIsVerdict(ss[k], t, ls[k].choice, ss[k + 1]);
    }
    TablesAreReplay(ss[k]);
  }

  lemma TablesAreReplay(s: State)
    requires Inv(s)
    ensures s.db == Replay(s.log)
  {
  }
}
