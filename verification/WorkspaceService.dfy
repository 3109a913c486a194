/** The workspace service: transactional methods on the full schema, each proved to do what the
    sequential call of the concurrent model says. */
module WorkspaceService {
  import opened Base
  import opened Entities
  import opened Schema
  import opened Soundness
  import opened Closures
  import opened Statements
  import opened Transactions
  import opened Services
  import opened Projection
  import opened Survivors
  import opened ThreadProjection
  import opened Text
  import M = OwnershipModel
  import T = ThreadModel

  datatype Summary = Summary(user: Id, role: Role)

  /** The zero value of a membership row that was never scanned. */
  const NOBODY := Summary(NIL, Member)

  datatype Workspace = Workspace(id: Id, name: string, members: seq<Summary>, createdAt: nat)

  /** How a service error names the sequential outcome. */
  function KindOf(o: M.Outcome): Kind {
    match o
    case NoWorkspace => WorkspaceNotFound
    case Forbidden => Kind.Forbidden
    case AlreadyMember => Kind.AlreadyMember
    case OwnerRemoval => Kind.OwnerRemoval
    case NoMember => MemberNotFound
    case NoUser => UserNotFound
    case _ => Internal
  }

  /** The result agrees with the sequential call; an Internal error may take its place unless the
      environment is steady. */
  predicate Answers<T>(steady: bool, o: M.Outcome, r: Result<T, ServiceError>) {
    && (r.Success? ==> o.Done? || o.Listed?)
    && (r.Failure? ==> r.error.kind == Internal || (!o.Done? && !o.Listed? && r.error.kind == KindOf(o)))
    && (steady ==> (r.Success? <==> o.Done? || o.Listed?))
    && (steady && r.Failure? ==> r.error == ServiceError(KindOf(o), false))
  }

  lemma NotBegun<T>(o: M.Outcome)
    ensures Answers<T>(false, o, Failure(ServiceError(Internal, false)))
  {
  }

  /** What the method body found, after the deferred function. */
  lemma Concluded<T>(steady: bool, o: M.Outcome, b: Result<T, Kind>, r: Result<T, ServiceError>)
    requires b.Success? ==> o.Done? || o.Listed?
    requires b.Failure? ==> b.error == Internal || (!o.Done? && !o.Listed? && b.error == KindOf(o))
    requires steady ==> (b.Success? <==> o.Done? || o.Listed?) && b != Failure(Internal)
    requires b.Success? ==> r == Success(b.value)
    requires b.Failure? ==> r.Failure? && r.error.kind == b.error && (steady ==> !r.error.rollbackFailed)
    ensures Answers(steady, o, r)
  {
  }

  // ---------------------------------------------------------------- the answers, in plain tables

  lemma AddAnswers(steady: bool, t: Tables, w: Id, actor: Id, user: Id, r: Result<Summary, ServiceError>)
    requires MemberKeys(t) && Answers(steady, M.Verdict(M.Add(actor, w, user), Memberships(t)), r)
    ensures var owner := Key(w, actor) in t.members && t.members[Key(w, actor)] == Owner;
            && FailsIff(steady, r, WorkspaceNotFound, w !in t.workspaces)
            && FailsIff(steady, r, Kind.Forbidden, w in t.workspaces && !owner)
            && FailsIff(steady, r, Kind.AlreadyMember, owner && Key(w, user) in t.members)
            && FailsIff(steady, r, UserNotFound, owner && Key(w, user) !in t.members && user !in t.users)
            && SucceedsIff(steady, r, owner && Key(w, user) !in t.members && user in t.users)
  {
  }

  lemma RemoveAnswers(steady: bool, t: Tables, w: Id, actor: Id, user: Id, r: Result<Unit, ServiceError>)
    requires MemberKeys(t) && Answers(steady, M.Verdict(M.Remove(actor, w, user), Memberships(t)), r)
    ensures var owner := Key(w, actor) in t.members && t.members[Key(w, actor)] == Owner;
            && FailsIff(steady, r, WorkspaceNotFound, w !in t.workspaces)
            && FailsIff(steady, r, Kind.Forbidden, w in t.workspaces && !owner)
            && FailsIff(steady, r, Kind.OwnerRemoval, owner && user == actor)
            && FailsIff(steady, r, MemberNotFound, owner && user != actor && Key(w, user) !in t.members)
            && SucceedsIff(steady, r, owner && user != actor && Key(w, user) in t.members)
  {
  }

  lemma DeleteAnswers(steady: bool, t: Tables, w: Id, actor: Id, r: Result<Unit, ServiceError>)
    requires MemberKeys(t) && Answers(steady, M.Verdict(M.DeleteWs(actor, w), Memberships(t)), r)
    ensures var owner := Key(w, actor) in t.members && t.members[Key(w, actor)] == Owner;
            && FailsIff(steady, r, WorkspaceNotFound, w !in t.workspaces)
            && FailsIff(steady, r, Kind.Forbidden, w in t.workspaces && !owner)
            && SucceedsIff(steady, r, owner)
  {
  }

  lemma ReadAnswers(steady: bool, t: Tables, w: Id, actor: Id, r: Result<Workspace, ServiceError>)
    requires MemberKeys(t) && Answers(steady, M.Verdict(M.Read(actor, w), Memberships(t)), r)
    ensures
            && FailsIff(steady, r, WorkspaceNotFound, w !in t.workspaces)
            && FailsIff(steady, r, Kind.Forbidden, w in t.workspaces && Key(w, actor) !in t.members)
            && SucceedsIff(steady, r, Key(w, actor) in t.members)
  {
  }

  // ---------------------------------------------------------------- what the effects keep

  /** The tables with a new workspace and its owner. */
  function Created(t: Tables, id: Id, info: WorkspaceInfo, actor: Id): Tables {
    t.(workspaces := t.workspaces[id := info], members := t.members[Key(id, actor) := Owner])
  }

  lemma CreatedIs(t: Tables, id: Id, info: WorkspaceInfo, actor: Id)
    ensures Created(t, id, info, actor).workspaces == t.workspaces[id := info]
    ensures Created(t, id, info, actor).members == t.members[Key(id, actor) := Owner]
    ensures var t' := Created(t, id, info, actor); t' == t.(workspaces := t'.workspaces, members := t'.members)
  {
  }

  lemma JoinedIs(t: Tables, k: Key)
    ensures Joined(t, k).members == t.members[k := Member] && Joined(t, k) == t.(members := Joined(t, k).members)
  {
  }

  lemma WorkspaceIsNew(t: Tables, id: Id)
    requires Intact(t) && id !in t.workspaces
    ensures forall k | k in t.members :: k.ws != id
  {
  }

  lemma CreateKeepsIntact(t: Tables, id: Id, info: WorkspaceInfo, actor: Id)
    requires Intact(t) && id !in t.workspaces && actor in t.users
    ensures Intact(Created(t, id, info, actor))
  {
    hide Intact;
    var t1 := t.(workspaces := t.workspaces[id := info]);
    InsertWorkspaceKeeps(t, id, info);
    WorkspaceIsNew(t, id);
    assert InsertMember(t1, Key(id, actor), Owner) == Success(Created(t, id, info, actor));
    InsertMemberKeeps(t1, Key(id, actor), Owner);
  }

  lemma MembersGrowOwned(t: Tables, t': Tables, id: Id, actor: Id)
    requires EveryWorkspaceOwned(t)
    requires forall k | k in t.members :: k in t'.members && t'.members[k] == t.members[k]
    requires forall w | w in t'.workspaces ::
               || w in t.workspaces
               || (w == id && Key(id, actor) in t'.members && t'.members[Key(id, actor)] == Owner)
    ensures EveryWorkspaceOwned(t')
  {
    forall w | w in t'.workspaces ensures Schema.Owned(t', w) {
      if w in t.workspaces {
        var u :| Key(w, u) in t.members && t.members[Key(w, u)] == Owner;
        assert t'.members[Key(w, u)] == Owner;
      }
    }
  }

  lemma CreateKeepsSound(t: Tables, id: Id, info: WorkspaceInfo, actor: Id)
    requires Sound(t) && id !in t.workspaces && actor in t.users
    ensures Sound(Created(t, id, info, actor))
  {
    hide Sound, Intact, EveryWorkspaceOwned, AccountsMatch, Prune;
    hide CountsOk, SeatKeys, MessageKeys, MemberKeys, IdentityKeys, NobodyWritesToThemselves;
    SoundParts(t);
    NewWorkspace(t, id);
    CreateKeepsIntact(t, id, info, actor);
    MembersGrowOwned(t, Created(t, id, info, actor), id, actor);
    SameUsersSound(t, Created(t, id, info, actor));
  }

  /** The tables with a new plain member. */
  function Joined(t: Tables, k: Key): Tables {
    t.(members := t.members[k := Member])
  }

  lemma AddKeepsIntact(t: Tables, k: Key)
    requires Intact(t) && k !in t.members && k.ws in t.workspaces && k.user in t.users
    ensures Intact(Joined(t, k))
  {
    assert InsertMember(t, k, Member) == Success(Joined(t, k));
    InsertMemberKeeps(t, k, Member);
  }

  lemma AddKeepsSound(t: Tables, k: Key)
    requires Sound(t) && k !in t.members && k.ws in t.workspaces && k.user in t.users
    ensures Sound(Joined(t, k))
  {
    hide Sound, Intact, EveryWorkspaceOwned, AccountsMatch, Prune;
    hide CountsOk, SeatKeys, MessageKeys, MemberKeys, IdentityKeys, NobodyWritesToThemselves;
    SoundParts(t);
    AddKeepsIntact(t, k);
    MembersGrowOwned(t, Joined(t, k), NIL, NIL);
    SameUsersSound(t, Joined(t, k));
  }

  /** Deleting rows other than users and identities keeps users and identities matched. */
  lemma PruneKeepsAccounts(t: Tables, gone: set<Row>)
    requires forall u :: UserRow(u) !in gone
    requires forall i :: IdentityRow(i) !in gone
    ensures Prune(t, gone).users == t.users && Prune(t, gone).identities == t.identities
    ensures Prune(t, gone).directs == t.directs
  {
  }

  lemma PruneKeepsOwned(t: Tables, gone: set<Row>)
    requires EveryWorkspaceOwned(t)
    requires forall k | k in t.members && t.members[k] == Owner && MemberRow(k) in gone :: WorkspaceRow(k.ws) in gone
    ensures EveryWorkspaceOwned(Prune(t, gone))
  {
    var t' := Prune(t, gone);
    forall w | w in t'.workspaces ensures Schema.Owned(t', w) {
      var u :| Key(w, u) in t.members && t.members[Key(w, u)] == Owner;
      assert t'.members[Key(w, u)] == Owner;
    }
  }

  lemma RemoveKeepsSound(t: Tables, k: Key)
    requires Sound(t) && k in t.members && t.members[k] != Owner
    ensures Sound(Prune(t, MemberRows(t, k)))
  {
    hide Sound, Intact, EveryWorkspaceOwned, AccountsMatch, Prune;
    hide CountsOk, SeatKeys, MessageKeys, MemberKeys, IdentityKeys, NobodyWritesToThemselves;
    SoundParts(t);
    MemberCascade(t, k);
    MemberRowsContents(t, k);
    NoUsersUnrestricted(t, MemberRows(t, k));
    PruneKeepsIntact(t, {MemberRow(k)});
    PruneKeepsAccounts(t, MemberRows(t, k));
    PruneKeepsOwned(t, MemberRows(t, k));
    SameUsersSound(t, Prune(t, MemberRows(t, k)));
  }

  lemma NewWorkspace(t: Tables, id: Id)
    requires Sound(t) && id !in t.workspaces
    ensures id !in t.workspaces && forall k | k in t.members :: k.ws != id
  {
    hide Intact, EveryWorkspaceOwned, AccountsMatch;
    WorkspaceIsNew(t, id);
  }

  /** Whoever the owner removes is a member and not an owner. */
  lemma RemovedWasMember(t: Tables, w: Id, actor: Id, user: Id)
    requires Sound(t) && M.Verdict(M.Remove(actor, w, user), Memberships(t)) == M.Done
    ensures Key(w, user) in t.members && t.members[Key(w, user)] == Member
  {
    hide EveryWorkspaceOwned, AccountsMatch;
  }

  lemma OneMember(t: Tables, k: Key)
    ensures Existing(t, {MemberRow(k)}) == if k in t.members then {MemberRow(k)} else {}
    ensures !UserInUse(t, Existing(t, {MemberRow(k)}))
  {
  }

  /** Under the workspace lock and the owner check, the insert fails exactly as the sequential call says. */
  lemma AddOutcome(t: Tables, w: Id, actor: Id, user: Id)
    requires w in t.workspaces && M.Owns(Memberships(t), w, actor)
    ensures var o, outcome := M.Verdict(M.Add(actor, w, user), Memberships(t)), InsertMember(t, Key(w, user), Member);
            && (outcome == Failure(Unique("workspace_members_pkey")) ==> o == M.AlreadyMember)
            && (outcome == Failure(ForeignKey("workspace_members_user_id_fkey")) ==> o == M.NoUser)
            && (outcome.Failure? ==>
                  outcome.error in {Unique("workspace_members_pkey"), ForeignKey("workspace_members_user_id_fkey")})
            && (outcome.Success? ==> o == M.Done && outcome.value == Joined(t, Key(w, user)))
  {
  }

  /** The checks before the insert fail as the sequential call says. */
  lemma AuthorizeOutcome(t: Tables, op: M.Op)
    requires op.Add? || op.Remove? || op.DeleteWs?
    ensures op.ws !in t.workspaces ==> M.Verdict(op, Memberships(t)) == M.NoWorkspace
    ensures op.ws in t.workspaces && !M.Owns(Memberships(t), op.ws, op.actor) ==>
              M.Verdict(op, Memberships(t)) == M.Forbidden
    ensures KindOf(M.NoWorkspace) == WorkspaceNotFound && KindOf(M.Forbidden) == Kind.Forbidden
    ensures KindOf(M.AlreadyMember) == Kind.AlreadyMember && KindOf(M.NoUser) == UserNotFound
  {
  }

  lemma AddProjects(t: Tables, w: Id, actor: Id, user: Id)
    requires M.Verdict(M.Add(actor, w, user), Memberships(t)) == M.Done
    ensures Key(w, user) !in t.members && w in t.workspaces && user in t.users
    ensures Memberships(Joined(t, Key(w, user))) == M.Effect(M.Add(actor, w, user), Memberships(t))
  {
  }

  lemma CreateProjects(t: Tables, id: Id, info: WorkspaceInfo, actor: Id)
    requires actor in t.users
    ensures M.Verdict(M.Create(actor, id), Memberships(t)) == M.Done
    ensures Memberships(Created(t, id, info, actor)) == M.Effect(M.Create(actor, id), Memberships(t))
  {
  }

  lemma CreateRefused(t: Tables, id: Id, actor: Id)
    requires actor !in t.users
    ensures M.Verdict(M.Create(actor, id), Memberships(t)) == M.NoUser
    ensures T.Verdict(T.MakeWorkspace(actor, id), Threads(t)) == T.NoUser
  {
    hide HasOwner, OwnerOf;
  }

  lemma DeleteKeepsSound(t: Tables, ws: set<Id>)
    requires Sound(t)
    ensures Sound(Prune(t, WorkspaceRows(t, ws)))
  {
    hide Sound, Intact, EveryWorkspaceOwned, AccountsMatch, Prune;
    hide CountsOk, SeatKeys, MessageKeys, MemberKeys, IdentityKeys, NobodyWritesToThemselves;
    SoundParts(t);
    WorkspaceCascade(t, ws);
    WorkspaceRowsContents(t, ws);
    NoUsersUnrestricted(t, WorkspaceRows(t, ws));
    PruneKeepsIntact(t, WsSeeds(ws));
    PruneKeepsAccounts(t, WorkspaceRows(t, ws));
    PruneKeepsOwned(t, WorkspaceRows(t, ws));
    SameUsersSound(t, Prune(t, WorkspaceRows(t, ws)));
  }

  // ---------------------------------------------------------------- in the thread model

  lemma CreateThreads(t: Tables, id: Id, info: WorkspaceInfo, actor: Id)
    requires Sound(t) && id !in t.workspaces && actor in t.users
    ensures Threads(Created(t, id, info, actor)) == T.Effect(T.MakeWorkspace(actor, id), Threads(t))
  {
    hide Sound, Threads, T.Effect;
    SoundParts(t);
    WorkspaceProjects(t, id, info, actor);
  }

  lemma AddThreads(t: Tables, k: Key)
    requires Sound(t) && k !in t.members
    ensures Threads(Joined(t, k)) == Threads(t)
  {
    hide Sound, Threads;
    SoundParts(t);
    PlainMemberThreads(t, k);
  }

  lemma RemoveThreads(t: Tables, k: Key)
    requires Sound(t) && Sound(Prune(t, MemberRows(t, k))) && k in t.members && t.members[k] != Owner
    ensures Threads(Prune(t, MemberRows(t, k))) == Threads(t)
  {
    hide *;
    SoundParts(t);
    SoundParts(Prune(t, MemberRows(t, k)));
    RemoveMemberThreads(t, k);
  }

  lemma DeleteThreads(t: Tables, actor: Id, w: Id)
    requires Sound(t) && Sound(Prune(t, WorkspaceRows(t, {w})))
    requires M.Verdict(M.DeleteWs(actor, w), Memberships(t)) == M.Done
    ensures Threads(Prune(t, WorkspaceRows(t, {w}))) == T.Effect(T.DropWorkspace(actor, w), Threads(t))
  {
    hide Sound, Threads, T.Effect, Prune, WorkspaceRows;
    SoundParts(t);
    SoundParts(Prune(t, WorkspaceRows(t, {w})));
    DeleteWorkspaceThreads(t, actor, w);
  }

  // ---------------------------------------------------------------- queries

  /** ListWorkspaceMembers: the rows of one workspace, ORDER BY user_id. */
  predicate ListsMembers(t: Tables, w: Id, rows: seq<Summary>) {
    && (forall i, j | 0 <= i < j < |rows| :: rows[i].user < rows[j].user)
    && (forall i | 0 <= i < |rows| ::
          Key(w, rows[i].user) in t.members && t.members[Key(w, rows[i].user)] == rows[i].role)
    && (forall k | k in t.members && k.ws == w :: exists i :: 0 <= i < |rows| && rows[i].user == k.user)
  }

  /** What ReadWorkspace returns. */
  predicate Shows(t: Tables, w: Id, shown: Workspace) {
    && w in t.workspaces
    && shown.id == w && WorkspaceInfo(shown.name, shown.createdAt) == t.workspaces[w]
    && ListsMembers(t, w, shown.members)
  }

  /** The rows are those of the sequential listing. */
  predicate SameList(list: map<Id, Role>, rows: seq<Summary>) {
    && (forall i | 0 <= i < |rows| :: rows[i].user in list && list[rows[i].user] == rows[i].role)
    && (forall u | u in list :: exists i :: 0 <= i < |rows| && rows[i].user == u)
  }

  lemma ShowsListing(t: Tables, w: Id, actor: Id, shown: Workspace)
    requires Shows(t, w, shown) && M.Verdict(M.Read(actor, w), Memberships(t)).Listed?
    ensures SameList(M.Verdict(M.Read(actor, w), Memberships(t)).list, shown.members)
  {
    var rows, list := shown.members, M.Verdict(M.Read(actor, w), Memberships(t)).list;
    assert list == M.MembersOf(Memberships(t), w);
    forall u | u in list ensures exists i :: 0 <= i < |rows| && rows[i].user == u {
      assert Key(w, u) in t.members && Key(w, u).ws == w;
    }
  }

  class Service {
    const database: Database

    constructor (database: Database)
      ensures this.database == database
    {
      this.database := database;
    }

    method CreateWorkspace(name: string, actor: Id, id: Id, now: nat) returns (r: Result<Workspace, ServiceError>)
      requires Sound(database.tables) && id !in database.tables.workspaces
      modifies database
      ensures Sound(database.tables) && database.open == old(database.open)
      ensures r.Failure? ==> database.tables == old(database.tables)
      ensures TrimSpace(name) == "" ==> r == Failure(ServiceError(InvalidName, false))
      ensures TrimSpace(name) != "" && actor == NIL ==> r == Failure(ServiceError(InvalidId, false))
      ensures TrimSpace(name) != "" && actor != NIL ==>
                && (r.Success? ==> M.Verdict(M.Create(actor, id), Memberships(old(database.tables))) == M.Done)
                && (r.Failure? ==> r.error.kind == Internal)
                && (database.steady ==> (r.Success? <==> actor in old(database.tables).users))
      ensures actor !in old(database.tables).users ==>
                && M.Verdict(M.Create(actor, id), Memberships(old(database.tables))) == M.NoUser
                && T.Verdict(T.MakeWorkspace(actor, id), Threads(old(database.tables))) == T.NoUser
      ensures r.Success? ==>
                && database.tables == Created(old(database.tables), id, WorkspaceInfo(TrimSpace(name), now), actor)
                && Memberships(database.tables) == M.Effect(M.Create(actor, id), Memberships(old(database.tables)))
                && Threads(database.tables) == T.Effect(T.MakeWorkspace(actor, id), Threads(old(database.tables)))
                && r.value == Workspace(id, TrimSpace(name), [Summary(actor, Owner)], now)
      ensures r.Success? ==>
                var t, t' := old(database.tables), database.tables;
                && actor in t.users
                && t'.workspaces == t.workspaces[id := WorkspaceInfo(TrimSpace(name), now)]
                && t'.members == t.members[Key(id, actor) := Owner]
                && t' == t.(workspaces := t'.workspaces, members := t'.members)
    {
      hide *;
      if actor !in database.tables.users { CreateRefused(database.tables, id, actor); }
      var trimmed := TrimSpace(name);
      if trimmed == "" { return Failure(ServiceError(InvalidName, false)); }
      if actor == NIL { return Failure(ServiceError(InvalidId, false)); }
      ghost var t := database.tables;
      NewWorkspace(t, id);
      var began := BeginTx(database);
      if began.Failure? { return Failure(ServiceError(Internal, false)); }
      var tx := began.value;
      var b := CreateInTx(tx, trimmed, actor, id, now);
      if b.Success? {
        CreateKeepsSound(t, id, WorkspaceInfo(trimmed, now), actor);
        CreateProjects(t, id, WorkspaceInfo(trimmed, now), actor);
        CreatedIs(t, id, WorkspaceInfo(trimmed, now), actor);
        CreateThreads(t, id, WorkspaceInfo(trimmed, now), actor);
      }
      r := Finish(tx, b);
    }

    /** A failed owner insert other than the foreign key to users is not returned; the commit that
        follows it runs on an aborted transaction and fails. */
    method CreateInTx(tx: Transaction, name: string, actor: Id, id: Id, now: nat) returns (r: Result<Workspace, Kind>)
      requires tx.db == database && tx.status == Open && tx.work == database.tables && database.open > 0
      requires id !in database.tables.workspaces && forall k | k in database.tables.members :: k.ws != id
      modifies tx, database
      ensures r.Success? ==> tx.status == Closed
      ensures database.open == old(database.open) - (if tx.status == Closed then 1 else 0)
      ensures r.Failure? ==> database.tables == old(database.tables) && r.error == Internal
      ensures database.steady ==> (r.Success? <==> actor in old(database.tables).users)
      ensures r.Success? ==>
                && actor in old(database.tables).users
                && database.tables == Created(old(database.tables), id, WorkspaceInfo(name, now), actor)
                && r.value == Workspace(id, name, [Summary(actor, Owner)], now)
    {
      var row := WorkspaceInfo(name, now);
      var created := tx.Execute(InsertWorkspace(tx.work, id, row));
      if created.Failure? { return Failure(Internal); }
      var inserted := tx.Execute(InsertMember(tx.work, Key(id, actor), Owner));
      var owner := NOBODY;
      match inserted {
        case Failure(e) => if e == ForeignKey("workspace_members_user_id_fkey") { return Failure(Internal); }
        case Success(_) => owner := Summary(actor, Owner);
      }
      assert inserted.Success? ==> tx.work == Created(database.tables, id, row, actor);
      var committed := tx.Commit();
      if committed.Failure? { return Failure(Internal); }
      r := Success(Workspace(id, row.name, [owner], row.createdAt));
    }

    /** The first statements of the owner-only methods: lock the workspace row, then check its owner. */
    method Authorize(tx: Transaction, w: Id, actor: Id) returns (r: Result<Unit, Kind>)
      requires tx.db == database && tx.status == Open && tx.work == database.tables
      modifies tx
      ensures tx.work == old(tx.work) && tx.status != Closed
      ensures r.Success? ==> tx.status == Open && w in tx.work.workspaces && M.Owns(Memberships(tx.work), w, actor)
      ensures r.Failure? ==>
                || r.error == Internal
                || (r.error == WorkspaceNotFound && w !in tx.work.workspaces)
                || (r.error == Kind.Forbidden && w in tx.work.workspaces && !M.Owns(Memberships(tx.work), w, actor))
      ensures database.steady && r.Failure? ==> r.error != Internal
    {
      var q := tx.Query();
      if q.Failure? { return Failure(Internal); }
      if w !in tx.work.workspaces { return Failure(WorkspaceNotFound); }
      q := tx.Query();
      if q.Failure? { return Failure(Internal); }
      if Key(w, actor) !in tx.work.members { return Failure(Kind.Forbidden); }
      if tx.work.members[Key(w, actor)] != Owner { return Failure(Kind.Forbidden); }
      return Success(Unit);
    }

    method AddWorkspaceMember(w: Id, actor: Id, user: Id) returns (r: Result<Summary, ServiceError>)
      requires Sound(database.tables)
      modifies database
      ensures Sound(database.tables) && database.open == old(database.open)
      ensures r.Failure? ==> database.tables == old(database.tables)
      ensures w == NIL || actor == NIL || user == NIL ==> r == Failure(ServiceError(InvalidId, false))
      ensures w != NIL && actor != NIL && user != NIL ==>
                Answers(database.steady, M.Verdict(M.Add(actor, w, user), Memberships(old(database.tables))), r)
      ensures w != NIL && actor != NIL && user != NIL ==>
                var t := old(database.tables);
                var owner := Key(w, actor) in t.members && t.members[Key(w, actor)] == Owner;
                && FailsIff(database.steady, r, WorkspaceNotFound, w !in t.workspaces)
                && FailsIff(database.steady, r, Kind.Forbidden, w in t.workspaces && !owner)
                && FailsIff(database.steady, r, Kind.AlreadyMember, owner && Key(w, user) in t.members)
                && FailsIff(database.steady, r, UserNotFound, owner && Key(w, user) !in t.members && user !in t.users)
                && SucceedsIff(database.steady, r, owner && Key(w, user) !in t.members && user in t.users)
      ensures r.Success? ==>
                && database.tables == Joined(old(database.tables), Key(w, user))
                && Memberships(database.tables) == M.Effect(M.Add(actor, w, user), Memberships(old(database.tables)))
                && Threads(database.tables) == Threads(old(database.tables))
                && r.value == Summary(user, Member)
      ensures r.Success? ==>
                var t, t' := old(database.tables), database.tables;
                t'.members == t.members[Key(w, user) := Member] && t' == t.(members := t'.members)
    {
      hide *;
      if w == NIL || actor == NIL || user == NIL { return Failure(ServiceError(InvalidId, false)); }
      ghost var t := database.tables;
      ghost var o := M.Verdict(M.Add(actor, w, user), Memberships(t));
      SoundParts(t);
      var began := BeginTx(database);
      if began.Failure? {
        NotBegun<Summary>(o);
        r := Failure(ServiceError(Internal, false));
        AddAnswers(database.steady, t, w, actor, user, r);
        return;
      }
      var tx := began.value;
      var b := AddInTx(tx, w, actor, user);
      if b.Success? {
        AddProjects(t, w, actor, user);
        AddKeepsSound(t, Key(w, user));
        JoinedIs(t, Key(w, user));
        AddThreads(t, Key(w, user));
      }
      r := Finish(tx, b);
      Concluded(database.steady, o, b, r);
      AddAnswers(database.steady, t, w, actor, user, r);
    }

    method AddInTx(tx: Transaction, w: Id, actor: Id, user: Id) returns (r: Result<Summary, Kind>)
      requires tx.db == database && tx.status == Open && tx.work == database.tables && database.open > 0
      modifies tx, database
      ensures r.Success? ==> tx.status == Closed
      ensures database.open == old(database.open) - (if tx.status == Closed then 1 else 0)
      ensures r.Failure? ==> database.tables == old(database.tables)
      ensures var o := M.Verdict(M.Add(actor, w, user), Memberships(old(database.tables)));
              && (r.Success? ==> o == M.Done && r.value == Summary(user, Member))
              && (r.Failure? ==> r.error == Internal || (!o.Done? && !o.Listed? && r.error == KindOf(o)))
              && (database.steady ==> (r.Success? <==> o == M.Done) && r != Failure(Internal))
      ensures r.Success? ==>
                database.tables == Joined(old(database.tables), Key(w, user))
    {
      hide *;
      AuthorizeOutcome(tx.work, M.Add(actor, w, user));
      var a := Authorize(tx, w, actor);
      if a.Failure? { return Failure(a.error); }
      AddOutcome(tx.work, w, actor, user);
      var inserted := tx.Execute(InsertMember(tx.work, Key(w, user), Member));
      match inserted {
        case Success(_) =>
        case Failure(e) =>
          if e == Unique("workspace_members_pkey") { return Failure(Kind.AlreadyMember); }
          if e == ForeignKey("workspace_members_user_id_fkey") { return Failure(UserNotFound); }
          return Failure(Internal);
      }
      var committed := tx.Commit();
      if committed.Failure? { return Failure(Internal); }
      r := Success(Summary(user, Member));
    }

    method RemoveWorkspaceMember(w: Id, actor: Id, user: Id) returns (r: Result<Unit, ServiceError>)
      requires Sound(database.tables)
      modifies database
      ensures Sound(database.tables) && database.open == old(database.open)
      ensures r.Failure? ==> database.tables == old(database.tables)
      ensures w == NIL || actor == NIL || user == NIL ==> r == Failure(ServiceError(InvalidId, false))
      ensures w != NIL && actor != NIL && user != NIL ==>
                Answers(database.steady, M.Verdict(M.Remove(actor, w, user), Memberships(old(database.tables))), r)
      ensures w != NIL && actor != NIL && user != NIL ==>
                var t := old(database.tables);
                var owner := Key(w, actor) in t.members && t.members[Key(w, actor)] == Owner;
                && FailsIff(database.steady, r, WorkspaceNotFound, w !in t.workspaces)
                && FailsIff(database.steady, r, Kind.Forbidden, w in t.workspaces && !owner)
                && FailsIff(database.steady, r, Kind.OwnerRemoval, owner && user == actor)
                && FailsIff(database.steady, r, MemberNotFound, owner && user != actor && Key(w, user) !in t.members)
                && SucceedsIff(database.steady, r, owner && user != actor && Key(w, user) in t.members)
      ensures r.Success? ==>
                var t := old(database.tables);
                && database.tables == Prune(t, MemberRows(t, Key(w, user)))
                && Memberships(database.tables) == M.Effect(M.Remove(actor, w, user), Memberships(t))
                && Threads(database.tables) == Threads(t)
      ensures r.Success? ==> MemberGone(old(database.tables), database.tables, Key(w, user))
    {
      hide *;
      if w == NIL || actor == NIL || user == NIL { return Failure(ServiceError(InvalidId, false)); }
      ghost var t := database.tables;
      ghost var o := M.Verdict(M.Remove(actor, w, user), Memberships(t));
      SoundParts(t);
      var began := BeginTx(database);
      if began.Failure? {
        NotBegun<Unit>(o);
        r := Failure(ServiceError(Internal, false));
        RemoveAnswers(database.steady, t, w, actor, user, r);
        return;
      }
      var tx := began.value;
      var b := RemoveInTx(tx, w, actor, user);
      if b.Success? {
        RemoveProjects(t, actor, Key(w, user));
        RemovedWasMember(t, w, actor, user);
        RemoveKeepsSound(t, Key(w, user));
        MemberRowsLeave(t, Key(w, user));
        RemoveThreads(t, Key(w, user));
      }
      r := Finish(tx, b);
      Concluded(database.steady, o, b, r);
      RemoveAnswers(database.steady, t, w, actor, user, r);
    }

    method RemoveInTx(tx: Transaction, w: Id, actor: Id, user: Id) returns (r: Result<Unit, Kind>)
      requires tx.db == database && tx.status == Open && tx.work == database.tables && database.open > 0
      requires CountsOk(database.tables.messages)
      modifies tx, database
      ensures r.Success? ==> tx.status == Closed
      ensures database.open == old(database.open) - (if tx.status == Closed then 1 else 0)
      ensures r.Failure? ==> database.tables == old(database.tables)
      ensures var o := M.Verdict(M.Remove(actor, w, user), Memberships(old(database.tables)));
              && (r.Success? ==> o == M.Done)
              && (r.Failure? ==> r.error == Internal || (!o.Done? && !o.Listed? && r.error == KindOf(o)))
              && (database.steady ==> (r.Success? <==> o == M.Done) && r != Failure(Internal))
      ensures r.Success? ==>
                database.tables == Prune(old(database.tables), MemberRows(old(database.tables), Key(w, user)))
    {
      hide Prune, Cascaded, MemberRows, CountsOk, UserInUse, Present, Existing;
      ghost var t := database.tables;
      var k := Key(w, user);
      var a := Authorize(tx, w, actor);
      if a.Failure? { return Failure(a.error); }
      if user == actor { return Failure(Kind.OwnerRemoval); }
      MemberCascade(t, k);
      OneMember(t, k);
      var removed := tx.DeleteRows({MemberRow(k)});
      if removed.Failure? { return Failure(Internal); }
      if removed.value == 0 { return Failure(MemberNotFound); }
      var committed := tx.Commit();
      if committed.Failure? { return Failure(Internal); }
      r := Success(Unit);
    }

    /** The owner may delete a workspace in which other members remain. */
    method DeleteWorkspace(w: Id, actor: Id) returns (r: Result<Unit, ServiceError>)
      requires Sound(database.tables)
      modifies database
      ensures Sound(database.tables) && database.open == old(database.open)
      ensures r.Failure? ==> database.tables == old(database.tables)
      ensures w == NIL || actor == NIL ==> r == Failure(ServiceError(InvalidId, false))
      ensures w != NIL && actor != NIL ==>
                Answers(database.steady, M.Verdict(M.DeleteWs(actor, w), Memberships(old(database.tables))), r)
      ensures w != NIL && actor != NIL ==>
                var t := old(database.tables);
                var owner := Key(w, actor) in t.members && t.members[Key(w, actor)] == Owner;
                && FailsIff(database.steady, r, WorkspaceNotFound, w !in t.workspaces)
                && FailsIff(database.steady, r, Kind.Forbidden, w in t.workspaces && !owner)
                && SucceedsIff(database.steady, r, owner)
      ensures r.Success? ==>
                var t := old(database.tables);
                && database.tables == Prune(t, WorkspaceRows(t, {w}))
                && Memberships(database.tables) == M.Effect(M.DeleteWs(actor, w), Memberships(t))
                && Threads(database.tables) == T.Effect(T.DropWorkspace(actor, w), Threads(t))
      ensures r.Success? ==> WorkspacesGone(old(database.tables), database.tables, {w})
    {
      hide *;
      if w == NIL || actor == NIL { return Failure(ServiceError(InvalidId, false)); }
      ghost var t := database.tables;
      ghost var o := M.Verdict(M.DeleteWs(actor, w), Memberships(t));
      SoundParts(t);
      var began := BeginTx(database);
      if began.Failure? {
        NotBegun<Unit>(o);
        r := Failure(ServiceError(Internal, false));
        DeleteAnswers(database.steady, t, w, actor, r);
        return;
      }
      var tx := began.value;
      var b := DeleteInTx(tx, w, actor);
      if b.Success? {
        DeleteWorkspaceProjects(t, actor, w);
        DeleteKeepsSound(t, {w});
        WorkspaceRowsLeave(t, {w});
        DeleteThreads(t, actor, w);
      }
      r := Finish(tx, b);
      Concluded(database.steady, o, b, r);
      DeleteAnswers(database.steady, t, w, actor, r);
    }

    method DeleteInTx(tx: Transaction, w: Id, actor: Id) returns (r: Result<Unit, Kind>)
      requires tx.db == database && tx.status == Open && tx.work == database.tables && database.open > 0
      requires CountsOk(database.tables.messages) && SeatKeys(database.tables)
      modifies tx, database
      ensures r.Success? ==> tx.status == Closed
      ensures database.open == old(database.open) - (if tx.status == Closed then 1 else 0)
      ensures r.Failure? ==> database.tables == old(database.tables)
      ensures var o := M.Verdict(M.DeleteWs(actor, w), Memberships(old(database.tables)));
              && (r.Success? ==> o == M.Done)
              && (r.Failure? ==> r.error == Internal || (!o.Done? && !o.Listed? && r.error == KindOf(o)))
              && (database.steady ==> (r.Success? <==> o == M.Done) && r != Failure(Internal))
      ensures r.Success? ==>
                database.tables == Prune(old(database.tables), WorkspaceRows(old(database.tables), {w}))
    {
      hide Prune, Cascaded, WorkspaceRows, CountsOk, SeatKeys;
      ghost var t := database.tables;
      var a := Authorize(tx, w, actor);
      if a.Failure? { return Failure(a.error); }
      WorkspaceCascade(t, {w});
      assert WsSeeds({w}) == {WorkspaceRow(w)} == Existing(t, {WorkspaceRow(w)});
      var removed := tx.DeleteRows({WorkspaceRow(w)});
      if removed.Failure? { return Failure(Internal); }
      if removed.value == 0 { return Failure(WorkspaceNotFound); }
      var committed := tx.Commit();
      if committed.Failure? { return Failure(Internal); }
      r := Success(Unit);
    }

    method ListWorkspaceMembers(tx: Transaction, w: Id) returns (r: Result<seq<Summary>, SqlError>)
      requires tx.status == Open
      modifies tx
      ensures tx.work == old(tx.work) && tx.status != Closed
      ensures r.Success? ==> tx.status == Open && ListsMembers(tx.work, w, r.value)
      ensures tx.db.steady ==> r.Success?
    {
      var q := tx.Query();
      if q.Failure? { return Failure(q.error); }
      var rows := SortMembers(tx.work, w);
      r := Success(rows);
    }

    /** Membership is read under the workspace lock, and only a member is answered. */
    method ReadWorkspace(w: Id, actor: Id) returns (r: Result<Workspace, ServiceError>)
      requires Sound(database.tables)
      modifies database
      ensures database.tables == old(database.tables) && database.open == old(database.open)
      ensures w == NIL || actor == NIL ==> r == Failure(ServiceError(InvalidId, false))
      ensures w != NIL && actor != NIL ==>
                Answers(database.steady, M.Verdict(M.Read(actor, w), Memberships(database.tables)), r)
      ensures w != NIL && actor != NIL ==>
                var t := database.tables;
                && FailsIff(database.steady, r, WorkspaceNotFound, w !in t.workspaces)
                && FailsIff(database.steady, r, Kind.Forbidden, w in t.workspaces && Key(w, actor) !in t.members)
                && SucceedsIff(database.steady, r, Key(w, actor) in t.members)
      ensures r.Success? ==>
                var o := M.Verdict(M.Read(actor, w), Memberships(database.tables));
                Shows(database.tables, w, r.value) && o.Listed? && SameList(o.list, r.value.members)
    {
      hide *;
      if w == NIL || actor == NIL { return Failure(ServiceError(InvalidId, false)); }
      ghost var t := database.tables;
      SoundParts(t);
      ghost var o := M.Verdict(M.Read(actor, w), Memberships(database.tables));
      var began := BeginTx(database);
      if began.Failure? {
        NotBegun<Workspace>(o);
        r := Failure(ServiceError(Internal, false));
        ReadAnswers(database.steady, t, w, actor, r);
        return;
      }
      var tx := began.value;
      var b := ReadInTx(tx, w, actor);
      if b.Success? { ShowsListing(t, w, actor, b.value); }
      r := Finish(tx, b);
      Concluded(database.steady, o, b, r);
      ReadAnswers(database.steady, t, w, actor, r);
    }

    method ReadInTx(tx: Transaction, w: Id, actor: Id) returns (r: Result<Workspace, Kind>)
      requires tx.db == database && tx.status == Open && tx.work == database.tables && database.open > 0
      modifies tx, database
      ensures r.Success? ==> tx.status == Closed
      ensures database.open == old(database.open) - (if tx.status == Closed then 1 else 0)
      ensures database.tables == old(database.tables)
      ensures var o := M.Verdict(M.Read(actor, w), Memberships(database.tables));
              && (r.Success? ==> o.Listed?)
              && (r.Failure? ==> r.error == Internal || (!o.Done? && !o.Listed? && r.error == KindOf(o)))
              && (database.steady ==> (r.Success? <==> o.Listed?) && r != Failure(Internal))
      ensures r.Success? ==> Shows(database.tables, w, r.value)
    {
      var q := tx.Query();
      if q.Failure? { return Failure(Internal); }
      if w !in tx.work.workspaces { return Failure(WorkspaceNotFound); }
      var listed := ListWorkspaceMembers(tx, w);
      if listed.Failure? { return Failure(Internal); }
      var members := listed.value;
      var isMember := false;
      var i := 0;
      while i < |members| && !isMember
        invariant 0 <= i <= |members|
        invariant isMember ==> exists j :: 0 <= j < |members| && members[j].user == actor
        invariant !isMember ==> forall j | 0 <= j < i :: members[j].user != actor
        decreases |members| - i, !isMember
      {
        if members[i].user == actor { isMember := true; } else { i := i + 1; }
      }
      assert isMember <==> Key(w, actor) in tx.work.members;
      if !isMember { return Failure(Kind.Forbidden); }
      var row := tx.work.workspaces[w];
      var committed := tx.Commit();
      if committed.Failure? { return Failure(Internal); }
      r := Success(Workspace(w, row.name, members, row.createdAt));
    }
  }

  /** rows is the beginning of the listing and rest the users still to be listed. */
  predicate ListsPart(t: Tables, w: Id, rows: seq<Summary>, rest: set<Id>) {
    && (forall i, j | 0 <= i < j < |rows| :: rows[i].user < rows[j].user)
    && (forall i, u | 0 <= i < |rows| && u in rest :: rows[i].user < u)
    && (forall i | 0 <= i < |rows| ::
          Key(w, rows[i].user) in t.members && t.members[Key(w, rows[i].user)] == rows[i].role)
    && (forall u | u in rest :: Key(w, u) in t.members)
    && (forall k | k in t.members && k.ws == w ::
          k.user in rest || exists i :: 0 <= i < |rows| && rows[i].user == k.user)
  }

  lemma ListsNext(t: Tables, w: Id, rows: seq<Summary>, rest: set<Id>, u: Id)
    requires ListsPart(t, w, rows, rest) && u in rest && forall y | y in rest :: u <= y
    ensures ListsPart(t, w, rows + [Summary(u, t.members[Key(w, u)])], rest - {u})
  {
    var rows' := rows + [Summary(u, t.members[Key(w, u)])];
    forall k | k in t.members && k.ws == w
      ensures k.user in rest - {u} || exists i :: 0 <= i < |rows'| && rows'[i].user == k.user
    {
      if k.user == u {
        assert rows'[|rows|].user == k.user;
      } else if k.user !in rest {
        var i :| 0 <= i < |rows| && rows[i].user == k.user;
        assert rows'[i].user == k.user;
      }
    }
  }

  method SortMembers(t: Tables, w: Id) returns (rows: seq<Summary>)
    ensures ListsMembers(t, w, rows)
  {
    rows := [];
    var rest := set k | k in t.members && k.ws == w :: k.user;
    while rest != {}
      invariant ListsPart(t, w, rows, rest)
      decreases rest
    {
      var u := Least(rest);
      ListsNext(t, w, rows, rest, u);
      rows := rows + [Summary(u, t.members[Key(w, u)])];
      rest := rest - {u};
    }
  }

  method Least(s: set<Id>) returns (x: Id)
    requires s != {}
    ensures x in s && forall y | y in s :: x <= y
  {
    x :| x in s;
    var rest := s - {x};
    while rest != {}
      invariant x in s && rest <= s
      invariant forall y | y in s && y !in rest :: x <= y
      decreases rest
    {
      var y :| y in rest;
      rest := rest - {y};
      if y < x { x := y; }
    }
  }
}
