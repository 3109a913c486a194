/** What the run invariant gives: owners are permanent, and checked permissions last. */
module OwnershipTheorems {
  import opened Base
  import opened Entities
  import opened OwnershipModel
  import opened OwnershipInvariant
  import opened OwnershipRuns

  lemma PrefixIsRun(ss: seq<State>, ls: seq<Label>, n: nat)
    requires IsRun(ss, ls) && n <= |ls|
    ensures IsRun(ss[..n + 1], ls[..n])
  {
    forall i | 0 <= i < n ensures Next(ss[..n + 1][i], ls[..n][i], ss[..n + 1][i + 1]) {
      assert Next(ss[i], ls[i], ss[i + 1]);
    }
  }

  lemma InvAt(ss: seq<State>, ls: seq<Label>, n: nat)
    requires IsRun(ss, ls) && n <= |ls|
    ensures Inv(ss[n])
  {
    PrefixIsRun(ss, ls, n);
    RunKeepsInv(ss[..n + 1], ls[..n]);
  }

  // ---------------------------------------------------------------- owners

  /** A workspace that was stored once and is gone is never stored again. */
  ghost predicate Retired(s: State, w: Id) {
    w in s.born && w !in s.db.workspaces
  }

  lemma StepKeepsOwner(s: State, l: Label, s': State, w: Id, u: Id)
    requires Inv(s) && Next(s, l, s')
    ensures Retired(s, w) ==> Retired(s', w)
    ensures Owns(s.db, w, u) ==> Owns(s'.db, w, u) || Retired(s', w)
  {
    if l.Act? {
      OnlyCommittingPublish(s.db, s.txs[l.t], l.choice);
      if Committing(s.txs[l.t]) { CommitKeepsOwner(s.db, s.born, s.txs[l.t], w, u); }
    }
  }

  lemma KeepsOwnerAt(ss: seq<State>, ls: seq<Label>, n: nat, w: Id, u: Id)
    requires IsRun(ss, ls) && n < |ls|
    ensures Retired(ss[n], w) ==> Retired(ss[n + 1], w)
    ensures Owns(ss[n].db, w, u) ==> Owns(ss[n + 1].db, w, u) || Retired(ss[n + 1], w)
  {
    InvAt(ss, ls, n);
    StepKeepsOwner(ss[n], ls[n], ss[n + 1], w, u);
  }

  lemma CommitKeepsOwner(db: Db, born: set<Id>, tx: Tx, w: Id, u: Id)
    requires DbOk(db) && db.workspaces <= born && TxOk(db, born, tx) && Committing(tx)
    ensures w in born && w !in db.workspaces ==> w !in Apply(db, tx.delta).workspaces
    ensures Owns(db, w, u) ==> Owns(Apply(db, tx.delta), w, u) || (w in born && w !in Apply(db, tx.delta).workspaces)
  {
    CommitGuarantee(db, born, tx);
    var db' := Apply(db, tx.delta);
    var k := Key(w, u);
    if Owns(db, w, u) {
      assert k !in db'.members ==> MayDelete(db, db', tx.held, k);
    }
  }

  /** No run of any calls ever removes, demotes or replaces the owner of a workspace that still exists. */
  lemma {:induction false} OwnerNeverChanges(ss: seq<State>, ls: seq<Label>, i: nat, j: nat, w: Id, u: Id)
    requires IsRun(ss, ls) && i <= j <= |ls|
    requires Owns(ss[i].db, w, u) && w in ss[j].db.workspaces
    ensures Owns(ss[j].db, w, u)
  {
    OwnerStaysOrRetires(ss, ls, i, j, w, u);
  }

  lemma {:induction false} OwnerStaysOrRetires(ss: seq<State>, ls: seq<Label>, i: nat, j: nat, w: Id, u: Id)
    requires IsRun(ss, ls) && i <= j <= |ls|
    requires Owns(ss[i].db, w, u)
    ensures Owns(ss[j].db, w, u) || Retired(ss[j], w)
  {
    if i < j {
      OwnerStaysOrRetires(ss, ls, i, j - 1, w, u);
      KeepsOwnerAt(ss, ls, j - 1, w, u);
    }
  }

  /** Whoever a removal is about to take is a plain member. */
  lemma RemovalSparesOwners(ss: seq<State>, ls: seq<Label>, n: nat, t: Tid)
    requires IsRun(ss, ls) && n <= |ls| && t in ss[n].txs
    requires ss[n].txs[t].op.Remove? && ss[n].txs[t].delta != NODELTA
    ensures var k := Key(ss[n].txs[t].op.ws, ss[n].txs[t].op.user);
            && ss[n].txs[t].delta == NODELTA.(goneMembers := {k})
            && k in ss[n].db.members && ss[n].db.members[k] == Member
  {
    InvAt(ss, ls, n);
    var db, tx := ss[n].db, ss[n].txs[t];
    assert TxOk(db, ss[n].born, tx);
    assert Owns(db, tx.op.ws, tx.op.actor);
    assert !Owns(db, tx.op.ws, tx.op.user);
  }

  /** The call has locked the workspace and found its actor to be the owner. */
  predicate Checked(tx: Tx) {
    (tx.op.Add? || tx.op.Remove? || tx.op.DeleteWs?) && !tx.phase.Begun? && !tx.phase.CheckActor?
  }

  /** Until the call ends, whatever other transactions commit meanwhile, its actor stays a
      registered user and the owner. */
  lemma PermissionLasts(ss: seq<State>, ls: seq<Label>, i: nat, j: nat, t: Tid)
    requires IsRun(ss, ls) && i <= j <= |ls|
    requires forall k | i <= k <= j :: t in ss[k].txs
    requires Checked(ss[i].txs[t])
    ensures ss[j].txs[t].op == ss[i].txs[t].op
    ensures ss[i].txs[t].op.actor in ss[j].db.users
    ensures Owns(ss[j].db, ss[i].txs[t].op.ws, ss[i].txs[t].op.actor)
  {
    StaysChecked(ss, ls, i, j, t);
    InvAt(ss, ls, j);
    var tx := ss[j].txs[t];
    assert TxOk(ss[j].db, ss[j].born, tx);
    assert Authorized(ss[j].db, tx);
    assert Key(tx.op.ws, tx.op.actor) in ss[j].db.members;
  }

  lemma {:induction false} StaysChecked(ss: seq<State>, ls: seq<Label>, i: nat, j: nat, t: Tid)
    requires IsRun(ss, ls) && i <= j <= |ls|
    requires forall k | i <= k <= j :: t in ss[k].txs
    requires Checked(ss[i].txs[t])
    ensures ss[j].txs[t].op == ss[i].txs[t].op && Checked(ss[j].txs[t])
  {
    if i < j {
      StaysChecked(ss, ls, i, j - 1, t);
      assert Next(ss[j - 1], ls[j - 1], ss[j]);
      if ls[j - 1].Act? && ls[j - 1].t == t {
        HeldGrowsIfContinues(ss[j - 1].db, ss[j - 1].txs[t], ls[j - 1].choice);
      }
    }
  }

  lemma HeldGrowsIfContinues(db: Db, tx: Tx, c: Choice)
    ensures Advance(db, tx, c).Continue? ==> Advance(db, tx, c).tx.op == tx.op
    ensures Advance(db, tx, c).Continue? && Checked(tx) ==> Checked(Advance(db, tx, c).tx)
  {
  }
}
