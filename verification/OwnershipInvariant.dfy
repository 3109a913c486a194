/** What every reachable state of the concurrent membership model satisfies, and why.

    The proof is rely-guarantee by locks. TxOk says what a transaction may count on at each of its
    statements; Guarantee says what a commit may change, in terms of the locks its transaction
    holds; Stable says that TxOk survives the commit of any transaction with compatible locks. */
module OwnershipInvariant {
  import opened Base
  import opened RowLocks
  import opened Entities
  import opened OwnershipModel

  // ---------------------------------------------------------------- committed tables

  ghost predicate HasOwner(db: Db, w: Id) {
    exists u :: Owns(db, w, u)
  }

  ghost predicate KeysHold(db: Db) {
    forall k | k in db.members :: k.ws in db.workspaces && k.user in db.users
  }

  ghost predicate AtMostOneOwner(db: Db) {
    forall w, u, x | Owns(db, w, u) && Owns(db, w, x) :: u == x
  }

  /** Foreign keys of workspace_members, and exactly one owner per workspace. */
  ghost predicate DbOk(db: Db) {
    && KeysHold(db)
    && AtMostOneOwner(db)
    && forall w | w in db.workspaces :: HasOwner(db, w)
  }

  // ---------------------------------------------------------------- one transaction

  predicate HoldsWs(db: Db, tx: Tx, w: Id) {
    ForUpdate(WsRow(w)) in tx.held && w in db.workspaces
  }

  predicate HoldsUser(db: Db, tx: Tx, u: Id) {
    ForUpdate(UserRow(u)) in tx.held && u in db.users
  }

  /** The workspace row is locked and the actor was found to be its owner. */
  predicate Authorized(db: Db, tx: Tx) {
    && (tx.op.Add? || tx.op.Remove? || tx.op.DeleteWs?)
    && HoldsWs(db, tx, tx.op.ws)
    && Owns(db, tx.op.ws, tx.op.actor)
    && (tx.op.Remove? ==> tx.op.user != tx.op.actor)
  }

  /** Listed members are the current ones, apart from accounts deleted since. */
  ghost predicate ListOk(db: Db, born: set<Id>, w: Id, list: map<Id, Role>) {
    && list.Keys <= born
    && (forall u | u in list && u in db.users :: Key(w, u) in db.members)
    && (forall k | k in db.members && k.ws == w :: k.user in list && list[k.user] == db.members[k])
  }

  predicate InsertedMember(db: Db, tx: Tx) {
    && (tx.op.Create? || tx.op.Add?)
    && var k := NewKey(tx.op);
    && tx.delta == NODELTA.(newWs := if tx.op.Create? then {tx.op.ws} else {}, newMembers := map[k := NewRole(tx.op)])
    && k !in db.members
    && (tx.op.Add? ==> Authorized(db, tx))
  }

  /** DeleteUser while it locks the workspaces its snapshot found. */
  ghost predicate OwnedOk(db: Db, born: set<Id>, tx: Tx, todo: set<Id>) {
    && tx.op.DeleteUser?
    && HoldsUser(db, tx, tx.op.user)
    && tx.delta == NODELTA.(goneWs := tx.delta.goneWs)
    && todo <= born
    && (forall w | w in tx.delta.goneWs :: HoldsWs(db, tx, w) && Owns(db, w, tx.op.user))
    && (forall w | w in todo && w in db.workspaces :: Owns(db, w, tx.op.user))
    && OwnedBy(db, tx.op.user) <= tx.delta.goneWs + todo
  }

  predicate OnlyDeletes(d: Delta) {
    d.newUsers == {} && d.newWs == {} && d.newMembers == map[]
  }

  /** The rows a deleting call has removed, apart from memberships. */
  ghost predicate ParentsOk(db: Db, tx: Tx) {
    && OnlyDeletes(tx.delta)
    && match tx.op
       case DeleteWs(_, w) => Authorized(db, tx) && tx.delta.goneWs == {w} && tx.delta.goneUsers == {}
       case DeleteUser(u) =>
         && HoldsUser(db, tx, u)
         && tx.delta.goneUsers <= {u}
         && tx.delta.goneWs == OwnedBy(db, u)
         && forall w | w in tx.delta.goneWs :: HoldsWs(db, tx, w)
       case _ => false
  }

  predicate InScope(d: Delta, k: Key) { k.ws in d.goneWs || k.user in d.goneUsers }

  /** A parent of k is deleted and the trigger of that parent has started. */
  predicate Due(d: Delta, pend: set<Row>, k: Key) {
    || (k.ws in d.goneWs && WsRow(k.ws) !in pend)
    || (k.user in d.goneUsers && UserRow(k.user) !in pend)
  }

  ghost predicate CascadeOk(db: Db, tx: Tx, pend: set<Row>, rows: set<Key>) {
    && ParentsOk(db, tx)
    && (forall p | p in pend :: (p.WsRow? && p.ws in tx.delta.goneWs) || (p.UserRow? && p.user in tx.delta.goneUsers))
    && (forall k | k in tx.delta.goneMembers ::
          k in db.members && InScope(tx.delta, k) && ForUpdate(MemberRow(k)) in tx.held)
    && (forall k | k in rows :: InScope(tx.delta, k))
    && (forall k | k in db.members && Due(tx.delta, pend, k) :: k in tx.delta.goneMembers || k in rows)
  }

  /** The writes of a transaction that is about to commit. */
  ghost predicate ReadyOk(db: Db, tx: Tx) {
    match tx.op
    case Register(u) => tx.delta == NODELTA.(newUsers := {u})
    case Read(_, _) => false
    case Create(actor, _) => InsertedMember(db, tx) && ForKeyShare(UserRow(actor)) in tx.held && actor in db.users
    case Add(_, _, u) => InsertedMember(db, tx) && ForKeyShare(UserRow(u)) in tx.held && u in db.users
    case Remove(_, w, u) =>
      && Authorized(db, tx)
      && tx.delta == NODELTA.(goneMembers := {Key(w, u)})
      && Key(w, u) in db.members && ForUpdate(MemberRow(Key(w, u))) in tx.held
    case DeleteWs(_, _) => CascadeOk(db, tx, {}, {})
    case DeleteUser(u) => CascadeOk(db, tx, {}, {}) && tx.delta.goneUsers == {u}
  }

  ghost predicate TxOk(db: Db, born: set<Id>, tx: Tx) {
    && Reserved(tx.op) !! born
    && match tx.phase
       case Begun => tx.held == {} && tx.delta == NODELTA
       case ListMembers => tx.op.Read? && tx.delta == NODELTA && HoldsWs(db, tx, tx.op.ws)
       case Answered(list) =>
         && tx.op.Read? && tx.delta == NODELTA && HoldsWs(db, tx, tx.op.ws)
         && ListOk(db, born, tx.op.ws, list) && tx.op.actor in list
       case CheckActor =>
         (tx.op.Add? || tx.op.Remove? || tx.op.DeleteWs?) && tx.delta == NODELTA && HoldsWs(db, tx, tx.op.ws)
       case InsertMember =>
         || (tx.op.Create? && tx.delta == NODELTA.(newWs := {tx.op.ws}))
         || (tx.op.Add? && tx.delta == NODELTA && Authorized(db, tx))
       case CheckUserFk => InsertedMember(db, tx)
       case DeleteMember => tx.op.Remove? && tx.delta == NODELTA && Authorized(db, tx)
       case DropWorkspace => tx.op.DeleteWs? && tx.delta == NODELTA && Authorized(db, tx)
       case FindOwned => tx.op.DeleteUser? && tx.delta == NODELTA && HoldsUser(db, tx, tx.op.user)
       case LockOwned(todo) => OwnedOk(db, born, tx, todo)
       case Cascade(pend, rows) => CascadeOk(db, tx, pend, rows)
       case DropUser => tx.op.DeleteUser? && CascadeOk(db, tx, {}, {}) && tx.delta.goneUsers == {}
       case Ready => ReadyOk(db, tx)
  }

  // ---------------------------------------------------------------- the sequential calls

  lemma MembersOfContents(db: Db, w: Id)
    ensures forall u :: u in MembersOf(db, w) <==> Key(w, u) in db.members
    ensures forall u | u in MembersOf(db, w) :: MembersOf(db, w)[u] == db.members[Key(w, u)]
  {
    forall u | Key(w, u) in db.members ensures u in MembersOf(db, w) {
      assert Key(w, u).user == u;
    }
  }

  lemma OwnedByContents(db: Db, u: Id)
    ensures forall w :: w in OwnedBy(db, u) <==> Owns(db, w, u)
  {
    forall w | Owns(db, w, u) ensures w in OwnedBy(db, u) {
      assert Key(w, u).ws == w;
    }
  }

  /** Every call that runs alone keeps the keys and the single owner. */
  lemma EffectKeepsDbOk(op: Op, db: Db)
    requires DbOk(db)
    requires op.Create? ==> op.ws !in db.workspaces
    ensures DbOk(Effect(op, db))
  {
    var db' := Effect(op, db);
    if op.DeleteUser? { OwnedByContents(db, op.user); }
    forall w, u | Owns(db', w, u)
      ensures Owns(db, w, u) || (op.Create? && w == op.ws && w !in db.workspaces && u == op.actor)
    {
      assert Key(w, u) in db'.members;
    }
    forall w | w in db'.workspaces ensures HasOwner(db', w) {
      if op.Create? && w !in db.workspaces {
        assert Owns(db', w, op.actor);
      } else {
        var u :| Owns(db, w, u);
        assert Owns(db', w, u);
      }
    }
  }

  // ---------------------------------------------------------------- commits

  /** The commit of a ready transaction is the sequential effect of its call on the tables of that moment. */
  lemma CommitIsEffect(db: Db, born: set<Id>, tx: Tx)
    requires TxOk(db, born, tx) && tx.phase == Ready
    ensures Verdict(tx.op, db) == Done
    ensures Apply(db, tx.delta) == Effect(tx.op, db)
  {
    match tx.op
    case Register(_) =>
    case Remove(_, _, _) => RemoveIsEffect(db, tx);
    case DeleteUser(_) => DeleteIsEffect(db, tx);
    case DeleteWs(_, _) => DeleteIsEffect(db, tx);
    case _ => InsertIsEffect(db, tx);
  }

  lemma InsertIsEffect(db: Db, tx: Tx)
    requires (tx.op.Create? || tx.op.Add?) && ReadyOk(db, tx)
    ensures Verdict(tx.op, db) == Done
    ensures Apply(db, tx.delta) == Effect(tx.op, db)
  {
  }

  lemma RemoveIsEffect(db: Db, tx: Tx)
    requires tx.op.Remove? && ReadyOk(db, tx)
    ensures Verdict(tx.op, db) == Done
    ensures Apply(db, tx.delta) == Effect(tx.op, db)
  {
  }

  lemma DeleteIsEffect(db: Db, tx: Tx)
    requires (tx.op.DeleteUser? || tx.op.DeleteWs?) && ReadyOk(db, tx)
    ensures Verdict(tx.op, db) == Done
    ensures Apply(db, tx.delta) == Effect(tx.op, db)
  {
    DeletedMembers(db, tx);
  }

  lemma DeletedMembers(db: Db, tx: Tx)
    requires CascadeOk(db, tx, {}, {})
    ensures forall k | k in db.members :: k in tx.delta.goneMembers <==> InScope(tx.delta, k)
  {
    forall k | k in db.members && InScope(tx.delta, k) ensures k in tx.delta.goneMembers {
      assert Due(tx.delta, {}, k);
    }
  }

  /** What a commit changes is covered by the locks of its transaction and its fresh ids. */
  ghost predicate Guarantee(db: Db, db': Db, held: set<Lock<Row>>, ids: set<Id>) {
    && (forall u | u in db.users && u !in db'.users :: ForUpdate(UserRow(u)) in held)
    && (forall u | u in db'.users && u !in db.users :: u in ids)
    && (forall w | w in db.workspaces && w !in db'.workspaces :: ForUpdate(WsRow(w)) in held)
    && (forall w | w in db'.workspaces && w !in db.workspaces :: w in ids)
    && (forall k | k in db.members && k !in db'.members :: MayDelete(db, db', held, k))
    && (forall k | k in db'.members && k !in db.members :: MayInsert(held, ids, k))
    && (forall k | k in db.members && k in db'.members :: db'.members[k] == db.members[k])
  }

  ghost predicate MayDelete(db: Db, db': Db, held: set<Lock<Row>>, k: Key)
    requires k in db.members
  {
    && ForUpdate(MemberRow(k)) in held
    && (k.user in db'.users ==> ForUpdate(WsRow(k.ws)) in held)
    && (db.members[k] == Owner ==> ForUpdate(WsRow(k.ws)) in held && k.ws !in db'.workspaces)
  }

  ghost predicate MayInsert(held: set<Lock<Row>>, ids: set<Id>, k: Key) {
    && ForKeyShare(UserRow(k.user)) in held
    && (ForUpdate(WsRow(k.ws)) in held || k.ws in ids)
  }

  lemma CommitGuarantee(db: Db, born: set<Id>, tx: Tx)
    requires DbOk(db) && TxOk(db, born, tx) && (tx.phase == Ready || tx.phase.Answered?)
    ensures Guarantee(db, Apply(db, tx.delta), tx.held, Reserved(tx.op))
  {
    match tx.op
    case Register(_) =>
    case DeleteUser(u) => DeleterGuarantee(db, tx);
    case DeleteWs(_, w) => DeleterGuarantee(db, tx);
    case Read(_, _) => assert Apply(db, tx.delta) == db;
    case Remove(_, _, _) => RemoveGuarantee(db, tx);
    case _ => InsertGuarantee(db, tx);
  }

  lemma InsertGuarantee(db: Db, tx: Tx)
    requires (tx.op.Create? || tx.op.Add?) && ReadyOk(db, tx)
    ensures Guarantee(db, Apply(db, tx.delta), tx.held, Reserved(tx.op))
  {
  }

  lemma RemoveGuarantee(db: Db, tx: Tx)
    requires DbOk(db) && tx.op.Remove? && ReadyOk(db, tx)
    ensures Guarantee(db, Apply(db, tx.delta), tx.held, Reserved(tx.op))
  {
    var Remove(actor, w, u) := tx.op;
    var db' := Apply(db, tx.delta);
    assert Owns(db, w, actor) && !Owns(db, w, u);
    forall k | k in db.members && k !in db'.members ensures MayDelete(db, db', tx.held, k) {
      assert k == Key(w, u);
    }
  }

  lemma DeleterGuarantee(db: Db, tx: Tx)
    requires DbOk(db) && CascadeOk(db, tx, {}, {})
    ensures Guarantee(db, Apply(db, tx.delta), tx.held, Reserved(tx.op))
  {
    var db' := Apply(db, tx.delta);
    if tx.op.DeleteUser? { OwnedByContents(db, tx.op.user); }
    forall k | k in db.members && k !in db'.members ensures MayDelete(db, db', tx.held, k) {
      assert k in tx.delta.goneMembers && InScope(tx.delta, k);
      if db.members[k] == Owner { assert Owns(db, k.ws, k.user); }
    }
  }

  // ---------------------------------------------------------------- stability

  lemma HoldsStable(db: Db, db': Db, held: set<Lock<Row>>, ids: set<Id>, b: Tx)
    requires Guarantee(db, db', held, ids) && Compatible(held, b.held)
    ensures forall w | HoldsWs(db, b, w) :: HoldsWs(db', b, w)
    ensures forall u | HoldsUser(db, b, u) :: HoldsUser(db', b, u)
    ensures forall u | ForKeyShare(UserRow(u)) in b.held && u in db.users :: u in db'.users
    ensures forall w, u | HoldsWs(db, b, w) && Owns(db, w, u) :: Owns(db', w, u)
    ensures Authorized(db, b) ==> Authorized(db', b)
  {
  }

  /** While b holds the row of w, nobody else adds a member to w; while it holds the row of u
      exclusively, nobody else gives u a membership. */
  lemma NoNewRows(db: Db, db': Db, held: set<Lock<Row>>, ids: set<Id>, b: Tx, born: set<Id>)
    requires Guarantee(db, db', held, ids) && Compatible(held, b.held)
    requires ids !! born && db.workspaces <= born
    ensures forall k | k in db'.members && HoldsWs(db, b, k.ws) :: k in db.members
    ensures forall k | k in db'.members && HoldsUser(db, b, k.user) :: k in db.members
  {
    forall k | k in db'.members && HoldsUser(db, b, k.user) ensures k in db.members {
      if k !in db.members {
        assert Clash(ForKeyShare(UserRow(k.user)), ForUpdate(UserRow(k.user)));
      }
    }
  }

  lemma StableInsert(db: Db, db': Db, held: set<Lock<Row>>, ids: set<Id>, b: Tx, born: set<Id>)
    requires Guarantee(db, db', held, ids) && Compatible(held, b.held)
    requires KeysHold(db) && KeysHold(db')
    requires ids !! born && db.workspaces <= born && ids !! Reserved(b.op) && Reserved(b.op) !! born
    requires InsertedMember(db, b)
    ensures InsertedMember(db', b)
  {
    HoldsStable(db, db', held, ids, b);
    NoNewRows(db, db', held, ids, b, born);
  }

  lemma StableList(db: Db, db': Db, held: set<Lock<Row>>, ids: set<Id>, b: Tx, born: set<Id>, list: map<Id, Role>)
    requires Guarantee(db, db', held, ids) && Compatible(held, b.held)
    requires ids !! born && db.workspaces <= born && KeysHold(db)
    requires b.op.Read? && HoldsWs(db, b, b.op.ws) && ListOk(db, born, b.op.ws, list)
    ensures ListOk(db', born + ids, b.op.ws, list)
  {
    NoNewRows(db, db', held, ids, b, born);
    var w := b.op.ws;
    forall u | u in list && u in db'.users ensures Key(w, u) in db'.members {
      assert u in db.users;
      var k := Key(w, u);
      assert k in db.members && Clash(ForUpdate(WsRow(w)), ForUpdate(WsRow(w)));
    }
  }

  lemma StableOwned(db: Db, db': Db, held: set<Lock<Row>>, ids: set<Id>, b: Tx, born: set<Id>, todo: set<Id>)
    requires Guarantee(db, db', held, ids) && Compatible(held, b.held)
    requires ids !! born && db.workspaces <= born
    requires OwnedOk(db, born, b, todo)
    ensures OwnedOk(db', born + ids, b, todo)
  {
    HoldsStable(db, db', held, ids, b);
    NoNewRows(db, db', held, ids, b, born);
    OwnedByContents(db, b.op.user);
    OwnedByContents(db', b.op.user);
    forall w | w in OwnedBy(db', b.op.user) ensures w in OwnedBy(db, b.op.user) {
      assert Key(w, b.op.user) in db.members;
    }
    forall w | w in todo && w in db'.workspaces ensures Owns(db', w, b.op.user) {
      assert w in db.workspaces;
    }
  }

  lemma StableParents(db: Db, db': Db, held: set<Lock<Row>>, ids: set<Id>, b: Tx, born: set<Id>)
    requires Guarantee(db, db', held, ids) && Compatible(held, b.held)
    requires ids !! born && db.workspaces <= born
    requires ParentsOk(db, b)
    ensures ParentsOk(db', b)
  {
    HoldsStable(db, db', held, ids, b);
    if b.op.DeleteUser? {
      NoNewRows(db, db', held, ids, b, born);
      OwnedByContents(db, b.op.user);
      OwnedByContents(db', b.op.user);
      forall w | w in OwnedBy(db', b.op.user) ensures w in OwnedBy(db, b.op.user) {
        assert Key(w, b.op.user) in db.members;
      }
      assert OwnedBy(db', b.op.user) == OwnedBy(db, b.op.user);
    }
  }

  lemma StableCascade(db: Db, db': Db, held: set<Lock<Row>>, ids: set<Id>, b: Tx, born: set<Id>,
                      pend: set<Row>, rows: set<Key>)
    requires Guarantee(db, db', held, ids) && Compatible(held, b.held)
    requires ids !! born && db.workspaces <= born
    requires CascadeOk(db, b, pend, rows)
    ensures CascadeOk(db', b, pend, rows)
  {
    StableParents(db, db', held, ids, b, born);
    NoNewRows(db, db', held, ids, b, born);
    forall k | k in b.delta.goneMembers ensures k in db'.members {
      assert Clash(ForUpdate(MemberRow(k)), ForUpdate(MemberRow(k)));
    }
    forall k | k in db'.members && Due(b.delta, pend, k) ensures k in db.members {
      if k.ws in b.delta.goneWs {
        assert HoldsWs(db, b, k.ws);
      } else {
        assert HoldsUser(db, b, k.user);
      }
    }
  }

  /** What transaction b counts on survives the commit of any transaction whose locks are compatible with b's. */
  lemma Stable(db: Db, db': Db, held: set<Lock<Row>>, ids: set<Id>, b: Tx, born: set<Id>)
    requires Guarantee(db, db', held, ids) && Compatible(held, b.held)
    requires KeysHold(db) && KeysHold(db')
    requires ids !! born && db.workspaces <= born && ids !! Reserved(b.op)
    requires TxOk(db, born, b)
    ensures TxOk(db', born + ids, b)
  {
    HoldsStable(db, db', held, ids, b);
    match b.phase
    case Answered(list) => StableList(db, db', held, ids, b, born, list);
    case CheckUserFk => StableInsert(db, db', held, ids, b, born);
    case LockOwned(todo) => StableOwned(db, db', held, ids, b, born, todo);
    case Cascade(pend, rows) => StableCascade(db, db', held, ids, b, born, pend, rows);
    case DropUser => StableCascade(db, db', held, ids, b, born, {}, {});
    case Ready => StableReady(db, db', held, ids, b, born);
    case _ =>
  }

  lemma StableReady(db: Db, db': Db, held: set<Lock<Row>>, ids: set<Id>, b: Tx, born: set<Id>)
    requires Guarantee(db, db', held, ids) && Compatible(held, b.held)
    requires KeysHold(db) && KeysHold(db')
    requires ids !! born && db.workspaces <= born && ids !! Reserved(b.op) && Reserved(b.op) !! born
    requires ReadyOk(db, b)
    ensures ReadyOk(db', b)
  {
    HoldsStable(db, db', held, ids, b);
    match b.op
    case Create(_, _) => StableInsert(db, db', held, ids, b, born);
    case Add(_, _, _) => StableInsert(db, db', held, ids, b, born);
    case Remove(_, w, u) =>
      var k := Key(w, u);
      assert Clash(ForUpdate(MemberRow(k)), ForUpdate(MemberRow(k)));
    case DeleteWs(_, _) => StableCascade(db, db', held, ids, b, born, {}, {});
    case DeleteUser(_) => StableCascade(db, db', held, ids, b, born, {}, {});
    case _ =>
  }
}
