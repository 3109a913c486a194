/** The user service: registration with an external identity, identity lookup, account deletion. */
module UserService {
  import opened Base
  import opened Reachability
  import opened Entities
  import opened Schema
  import opened Soundness
  import opened Survivors
  import opened Closures
  import opened Statements
  import opened Transactions
  import opened Services
  import opened Projection
  import opened ThreadProjection
  import opened Text
  import M = OwnershipModel
  import T = ThreadModel

  /** The input, and the time at which its transaction begins. */
  datatype Registration = Registration(email: string, userName: string, displayName: string,
                                       issuer: string, subject: string, now: nat)

  /** What the service returns: the stored row with its id. */
  datatype Account = Account(id: Id, profile: User)

  /** The profile stored for an input: trimmed fields. */
  function ProfileOf(input: Registration): User {
    User(TrimSpace(input.email), TrimSpace(input.userName), TrimSpace(input.displayName), input.now)
  }

  /** The tables with a new user and the identity exactly as it was passed in, blanks included. */
  function Registered(t: Tables, id: Id, identity: Id, input: Registration): Tables {
    t.(users := t.users[id := ProfileOf(input)],
    identities := t.identities[identity := Identity(id, input.issuer, input.subject)])
  }

  predicate EmailUsed(t: Tables, email: string) { exists u :: u in t.users && t.users[u].email == email }

  predicate UserNameUsed(t: Tables, userName: string) { exists u :: u in t.users && t.users[u].userName == userName }

  predicate IdentityUsed(t: Tables, issuer: string, subject: string) {
    exists i :: i in t.identities && t.identities[i].issuer == issuer && t.identities[i].subject == subject
  }

  /** Why a registration is refused, if it is: blank fields first, then conflicts. */
  function Refusal(t: Tables, input: Registration): Option<Kind> {
    if TrimSpace(input.email) == "" then Some(InvalidEmail)
    else if TrimSpace(input.userName) == "" then Some(InvalidUserName)
    else if TrimSpace(input.displayName) == "" then Some(InvalidDisplayName)
    else if TrimSpace(input.issuer) == "" || TrimSpace(input.subject) == "" then Some(InvalidIdentity)
    else if EmailUsed(t, TrimSpace(input.email)) then Some(EmailTaken)
    else if UserNameUsed(t, TrimSpace(input.userName)) then Some(UserNameTaken)
    else if IdentityUsed(t, input.issuer, input.subject) then Some(IdentityTaken)
    else None
  }

  /** Blank fields are refused first, in the order of the checks. */
  lemma RefusalOrder(t: Tables, input: Registration)
    ensures TrimSpace(input.email) == "" ==> Refusal(t, input) == Some(InvalidEmail)
    ensures TrimSpace(input.email) != "" && TrimSpace(input.userName) == "" ==>
              Refusal(t, input) == Some(InvalidUserName)
    ensures TrimSpace(input.email) != "" && TrimSpace(input.userName) != "" && TrimSpace(input.displayName) == "" ==>
              Refusal(t, input) == Some(InvalidDisplayName)
    ensures TrimSpace(input.email) != "" && TrimSpace(input.userName) != "" && TrimSpace(input.displayName) != ""
            && (TrimSpace(input.issuer) == "" || TrimSpace(input.subject) == "") ==>
              Refusal(t, input) == Some(InvalidIdentity)
  {
  }

  predicate Filled(input: Registration) {
    && TrimSpace(input.email) != "" && TrimSpace(input.userName) != "" && TrimSpace(input.displayName) != ""
    && TrimSpace(input.issuer) != "" && TrimSpace(input.subject) != ""
  }

  lemma IsFilled(input: Registration)
    requires TrimSpace(input.email) != "" && TrimSpace(input.userName) != "" && TrimSpace(input.displayName) != ""
    requires TrimSpace(input.issuer) != "" && TrimSpace(input.subject) != ""
    ensures Filled(input)
  {
  }

  /** The user insert stops exactly the registrations whose email or user name is taken. */
  lemma UserInsert(t: Tables, id: Id, identity: Id, input: Registration)
    requires Filled(input) && id !in t.users
    ensures var stored := InsertUser(t, id, ProfileOf(input));
            && (stored == Failure(Unique("users_email_unique")) ==> Refusal(t, input) == Some(EmailTaken))
            && (stored == Failure(Unique("users_user_name_unique")) ==> Refusal(t, input) == Some(UserNameTaken))
            && (stored.Failure? ==> stored.error in {Unique("users_email_unique"), Unique("users_user_name_unique")})
  {
  }

  /** The identity insert stops exactly those whose identity is taken. */
  lemma IdentityInsert(t: Tables, id: Id, identity: Id, input: Registration)
    requires Filled(input) && id !in t.users && identity !in t.identities
    requires InsertUser(t, id, ProfileOf(input)).Success?
    ensures var t1 := InsertUser(t, id, ProfileOf(input)).value;
            var mapped := InsertIdentity(t1, identity, Identity(id, input.issuer, input.subject));
            && (mapped.Failure? ==> mapped.error == Unique("user_identities_identity_unique")
                                    && Refusal(t, input) == Some(IdentityTaken))
            && (mapped.Success? ==> mapped.value == Registered(t, id, identity, input) && Refusal(t, input) == None)
  {
  }

  /** The answers of a registration, in plain tables: blanks first, then email, user name and identity. */
  predicate RegistrationAnswered(steady: bool, t: Tables, input: Registration, r: Result<Account, ServiceError>) {
    var email, userName, displayName := TrimSpace(input.email), TrimSpace(input.userName), TrimSpace(input.displayName);
    var blank := TrimSpace(input.issuer) == "" || TrimSpace(input.subject) == "";
    var filled := email != "" && userName != "" && displayName != "" && !blank;
    var emailUsed := exists u :: u in t.users && t.users[u].email == email;
    var nameUsed := exists u :: u in t.users && t.users[u].userName == userName;
    var identityUsed := exists i :: i in t.identities && t.identities[i].issuer == input.issuer
                                    && t.identities[i].subject == input.subject;
    && FailsIff(steady, r, InvalidEmail, email == "")
    && FailsIff(steady, r, InvalidUserName, email != "" && userName == "")
    && FailsIff(steady, r, InvalidDisplayName, email != "" && userName != "" && displayName == "")
    && FailsIff(steady, r, InvalidIdentity, email != "" && userName != "" && displayName != "" && blank)
    && FailsIff(steady, r, EmailTaken, filled && emailUsed)
    && FailsIff(steady, r, UserNameTaken, filled && !emailUsed && nameUsed)
    && FailsIff(steady, r, IdentityTaken, filled && !emailUsed && !nameUsed && identityUsed)
    && SucceedsIff(steady, r, filled && !emailUsed && !nameUsed && !identityUsed)
  }

  lemma RegistrationAnswers(steady: bool, t: Tables, input: Registration, r: Result<Account, ServiceError>)
    requires r.Failure? ==> r.error.kind == Internal || Refusal(t, input) == Some(r.error.kind)
    requires r.Success? ==> Refusal(t, input) == None
    requires steady ==> (r.Success? <==> Refusal(t, input) == None)
    requires steady && r.Failure? ==> Refusal(t, input) == Some(r.error.kind) && !r.error.rollbackFailed
    ensures RegistrationAnswered(steady, t, input, r)
  {
    hide TrimSpace;
  }

  lemma RegisteredIs(t: Tables, id: Id, identity: Id, input: Registration)
    ensures var t', profile := Registered(t, id, identity, input), ProfileOf(input);
            && profile.email == TrimSpace(input.email)
            && profile.userName == TrimSpace(input.userName)
            && profile.displayName == TrimSpace(input.displayName)
            && profile.createdAt == input.now
            && t'.users == t.users[id := profile]
            && t'.identities == t.identities[identity := Identity(id, input.issuer, input.subject)]
            && t' == t.(users := t'.users, identities := t'.identities)
  {
    hide TrimSpace;
  }

  /** The user an external identity belongs to. */
  ghost predicate ResolvesTo(t: Tables, issuer: string, subject: string, u: Id) {
    exists i ::
      i in t.identities && t.identities[i] == Identity(u, issuer, subject) && u in t.users
  }

  // ---------------------------------------------------------------- accounts and identities

  lemma RegisteredIntact(t: Tables, id: Id, identity: Id, input: Registration)
    requires Intact(t) && Refusal(t, input) == None && id !in t.users && identity !in t.identities
    ensures Intact(Registered(t, id, identity, input))
  {
    hide Intact;
    var t1 := t.(users := t.users[id := ProfileOf(input)]);
    assert InsertUser(t, id, ProfileOf(input)) == Success(t1);
    InsertUserKeeps(t, id, ProfileOf(input));
    assert InsertIdentity(t1, identity, Identity(id, input.issuer, input.subject))
        == Success(Registered(t, id, identity, input));
    InsertIdentityKeeps(t1, identity, Identity(id, input.issuer, input.subject));
  }

  lemma RegisteredMatch(t: Tables, id: Id, identity: Id, input: Registration)
    requires IdentityKeys(t) && AccountsMatch(t) && id !in t.users && identity !in t.identities
    ensures AccountsMatch(Registered(t, id, identity, input))
  {
    var t' := Registered(t, id, identity, input);
    forall u | u in t'.users ensures Known(t', u) {
      if u == id {
        assert t'.identities[identity].user == id;
      } else {
        var i :| i in t.identities && t.identities[i].user == u;
        assert t'.identities[i].user == u;
      }
    }
  }

  lemma RegisteredSound(t: Tables, id: Id, identity: Id, input: Registration)
    requires Sound(t) && Refusal(t, input) == None && id !in t.users && identity !in t.identities
    ensures Sound(Registered(t, id, identity, input))
  {
    SoundParts(t);
    var t' := Registered(t, id, identity, input);
    assert EveryWorkspaceOwned(t') by {
      forall w | w in t'.workspaces ensures Schema.Owned(t', w) { assert Schema.Owned(t, w); }
    }
    hide Intact, EveryWorkspaceOwned, AccountsMatch, Refusal;
    RegisteredIntact(t, id, identity, input);
    RegisteredMatch(t, id, identity, input);
  }

  /** An external identity resolves to at most one user, and each user is resolved by exactly one. */
  lemma AccountsAreBijective(t: Tables, u: Id)
    requires Sound(t) && u in t.users
    ensures exists issuer, subject :: ResolvesTo(t, issuer, subject, u)
    ensures forall a, b, c, d | ResolvesTo(t, a, b, u) && ResolvesTo(t, c, d, u) :: a == c && b == d
    ensures forall issuer, subject, x, y |
              ResolvesTo(t, issuer, subject, x) && ResolvesTo(t, issuer, subject, y) :: x == y
  {
    SoundParts(t);
    hide Sound, Intact, EveryWorkspaceOwned;
    assert Known(t, u);
    var i :| i in t.identities && t.identities[i].user == u;
    assert ResolvesTo(t, t.identities[i].issuer, t.identities[i].subject, u);
  }

  /** After registration the identity, looked up exactly as it was passed in, gives the new user. */
  lemma RegisteredResolves(t: Tables, id: Id, identity: Id, input: Registration)
    ensures ResolvesTo(Registered(t, id, identity, input), input.issuer, input.subject, id)
  {
    assert Registered(t, id, identity, input).identities[identity] == Identity(id, input.issuer, input.subject);
  }

  /** A later registration leaves every identity with its user. */
  lemma RegistrationKeepsIdentities(t: Tables, id: Id, identity: Id, input: Registration,
                                    issuer: string, subject: string, u: Id)
    requires id !in t.users && identity !in t.identities && ResolvesTo(t, issuer, subject, u)
    ensures ResolvesTo(Registered(t, id, identity, input), issuer, subject, u)
  {
    var i :| i in t.identities && t.identities[i] == Identity(u, issuer, subject);
    assert Registered(t, id, identity, input).identities[i] == Identity(u, issuer, subject);
  }

  // ---------------------------------------------------------------- deletion

  /** Everything an account deletion removes. */
  ghost function AccountRows(t: Tables, u: Id): set<Row> {
    WorkspaceRows(t, OwnedWorkspaces(t, u)) + UserRows(t, u)
  }

  /** No direct message names the user, and every channel message the user wrote goes with the
      workspaces the user owns. */
  ghost predicate Deletable(t: Tables, u: Id) {
    && u in t.users
    && (forall d | d in t.directs :: t.directs[d].author != u && t.directs[d].recipient != u)
    && (forall m | m in t.messages && t.messages[m].author == u ::
          m in ThreadsUnder(t, ChannelsOf(t, OwnedWorkspaces(t, u))))
  }

  ghost function WithoutOwned(t: Tables, u: Id): Tables {
    Prune(t, WorkspaceRows(t, OwnedWorkspaces(t, u)))
  }

  lemma WithoutOwnedCounts(t: Tables, u: Id)
    requires CountsOk(t.messages)
    ensures CountsOk(WithoutOwned(t, u).messages)
  {
    WithoutKeepsCounts(t.messages, MessagesIn(WorkspaceRows(t, OwnedWorkspaces(t, u))));
  }

  /** After the owned workspaces are gone, the RESTRICT keys let the user go exactly when the
      account was deletable to begin with. */
  lemma RestrictedIff(t: Tables, u: Id)
    requires u in t.users
    ensures Restricted(WithoutOwned(t, u), u) <==> !Deletable(t, u)
  {
    var ws := OwnedWorkspaces(t, u);
    var gone := WorkspaceRows(t, ws);
    WorkspaceRowsContents(t, ws);
    var under := ThreadsUnder(t, ChannelsOf(t, ws));
    forall m | m in t.messages ensures m in WithoutOwned(t, u).messages <==> m !in under {
      PruneContents(t, gone, MessageRow(m));
    }
    hide WorkspaceRows, ThreadsUnder, ChannelsOf, OwnedWorkspaces;
    if m :| m in t.messages && t.messages[m].author == u && m !in under {
      assert WithoutOwned(t, u).messages[m].author == u;
    }
  }

  /** The second statement removes what is left of the account rows. */
  lemma AccountPrune(t: Tables, u: Id)
    requires SeatKeys(t)
    ensures var t1 := WithoutOwned(t, u); Prune(t1, Cascaded(t1, {UserRow(u)})) == Prune(t, AccountRows(t, u))
  {
    var a := WorkspaceRows(t, OwnedWorkspaces(t, u));
    var t1 := WithoutOwned(t, u);
    WorkspaceCascade(t, OwnedWorkspaces(t, u));
    PruneKeepsSeats(t, WsSeeds(OwnedWorkspaces(t, u)));
    UserCascade(t1, u);
    PruneTwice(t, a, UserRows(t1, u));
    LeftUserRows(t, a, u);
  }

  lemma LeftUserRows(t: Tables, a: set<Row>, u: Id)
    ensures a + UserRows(Prune(t, a), u) == a + UserRows(t, u)
  {
    forall r ensures r in a + UserRows(Prune(t, a), u) <==> r in a + UserRows(t, u) {
      PruneContents(t, a, r);
    }
  }

  /** The two deletes together remove what one cascade from the owned workspaces and the user would. */
  lemma AccountRowsAreOneCascade(t: Tables, u: Id)
    requires SeatKeys(t)
    ensures AccountRows(t, u) == Cascaded(t, WsSeeds(OwnedWorkspaces(t, u)) + {UserRow(u)})
  {
    WorkspaceCascade(t, OwnedWorkspaces(t, u));
    UserCascade(t, u);
    ReachUnion(Edges(t), WsSeeds(OwnedWorkspaces(t, u)), {UserRow(u)});
  }

  lemma DeletedIntact(t: Tables, u: Id)
    requires Intact(t) && SeatKeys(t) && Deletable(t, u)
    ensures Intact(Prune(t, AccountRows(t, u)))
  {
    var ws := OwnedWorkspaces(t, u);
    var t1 := WithoutOwned(t, u);
    assert Intact(t1) && SeatKeys(t1) by {
      WorkspaceCascade(t, ws);
      WorkspaceRowsContents(t, ws);
      hide Intact;
      NoUsersUnrestricted(t, WorkspaceRows(t, ws));
      PruneKeepsIntact(t, WsSeeds(ws));
      PruneKeepsSeats(t, WsSeeds(ws));
    }
    RestrictedIff(t, u);
    UserCascade(t1, u);
    UserRowsContents(t1, u);
    OneUserUnrestricted(t1, UserRows(t1, u), u);
    hide Intact, Unrestricted;
    PruneKeepsIntact(t1, {UserRow(u)});
    AccountPrune(t, u);
  }

  lemma OneUserUnrestricted(t: Tables, gone: set<Row>, u: Id)
    requires !Restricted(t, u) && forall x :: UserRow(x) in gone <==> x == u
    ensures Unrestricted(t, gone)
  {
  }

  lemma AccountRowsContents(t: Tables, u: Id)
    ensures forall x :: UserRow(x) in AccountRows(t, u) <==> x == u
    ensures forall i :: IdentityRow(i) in AccountRows(t, u) <==> i in t.identities && t.identities[i].user == u
    ensures forall w :: WorkspaceRow(w) in AccountRows(t, u) <==> w in OwnedWorkspaces(t, u)
    ensures forall k :: MemberRow(k) in AccountRows(t, u)
                        <==> k in t.members && (k.ws in OwnedWorkspaces(t, u) || k.user == u)
  {
    WorkspaceRowsContents(t, OwnedWorkspaces(t, u));
    UserRowsContents(t, u);
  }

  lemma DeletedMatch(t: Tables, u: Id)
    requires AccountsMatch(t)
    ensures AccountsMatch(Prune(t, AccountRows(t, u)))
  {
    AccountRowsContents(t, u);
    var t' := Prune(t, AccountRows(t, u));
    forall x | x in t'.users ensures Known(t', x) {
      assert Known(t, x);
      var i :| i in t.identities && t.identities[i].user == x;
      assert t'.identities[i].user == x;
    }
  }

  lemma DeletedOwned(t: Tables, u: Id)
    requires EveryWorkspaceOwned(t)
    ensures EveryWorkspaceOwned(Prune(t, AccountRows(t, u)))
  {
    AccountRowsContents(t, u);
    var t' := Prune(t, AccountRows(t, u));
    forall w | w in t'.workspaces ensures Schema.Owned(t', w) {
      var x :| Key(w, x) in t.members && t.members[Key(w, x)] == Owner;
      assert Key(w, x).user == u ==> Key(w, x).ws in OwnedWorkspaces(t, u);
      assert t'.members[Key(w, x)] == Owner;
    }
  }

  /** Deleting an account keeps every key, every count, every remaining owner and the match of
      users and identities. */
  lemma DeletedSound(t: Tables, u: Id)
    requires Sound(t) && Deletable(t, u)
    ensures Sound(Prune(t, AccountRows(t, u)))
  {
    SoundParts(t);
    hide Sound, Deletable;
    DeletedIntact(t, u);
    DeletedMatch(t, u);
    DeletedOwned(t, u);
    AssembleSound(t, Prune(t, AccountRows(t, u)));
  }

  /** Deleting one account leaves every other user's identity as it was. */
  lemma DeletionKeepsOtherIdentities(t: Tables, gone: Id, issuer: string, subject: string, u: Id)
    requires u != gone && ResolvesTo(t, issuer, subject, u)
    ensures ResolvesTo(Prune(t, AccountRows(t, gone)), issuer, subject, u)
  {
    AccountRowsContents(t, gone);
    var i :| i in t.identities && t.identities[i] == Identity(u, issuer, subject) && u in t.users;
    assert Prune(t, AccountRows(t, gone)).identities[i] == Identity(u, issuer, subject);
  }

  class Service {
    const database: Database

    constructor (database: Database)
      ensures this.database == database
    {
      this.database := database;
    }

    /** Profile and identity are stored together or not at all. */
    method CreateUser(input: Registration, id: Id, identity: Id) returns (r: Result<Account, ServiceError>)
      requires Sound(database.tables) && id !in database.tables.users && identity !in database.tables.identities
      modifies database
      ensures Sound(database.tables) && database.open == old(database.open)
      ensures r.Failure? ==> database.tables == old(database.tables)
      ensures r.Failure? ==> r.error.kind == Internal || Refusal(old(database.tables), input) == Some(r.error.kind)
      ensures database.steady ==> (r.Success? <==> Refusal(old(database.tables), input) == None)
      ensures database.steady && r.Failure? ==> Refusal(old(database.tables), input) == Some(r.error.kind)
      ensures RegistrationAnswered(database.steady, old(database.tables), input, r)
      ensures r.Success? ==>
                var t, t' := old(database.tables), database.tables;
                && r.value.id == id
                && r.value.profile.email == TrimSpace(input.email)
                && r.value.profile.userName == TrimSpace(input.userName)
                && r.value.profile.displayName == TrimSpace(input.displayName)
                && r.value.profile.createdAt == input.now
                && t'.users == t.users[id := r.value.profile]
                && t'.identities == t.identities[identity := Identity(id, input.issuer, input.subject)]
                && t' == t.(users := t'.users, identities := t'.identities)
      ensures r.Success? ==>
                && r.value == Account(id, ProfileOf(input))
                && database.tables == Registered(old(database.tables), id, identity, input)
                && Memberships(database.tables) == M.Effect(M.Register(id), Memberships(old(database.tables)))
                && Threads(database.tables) == T.Effect(T.Register(id), Threads(old(database.tables)))
    {
      hide *;
      ghost var t := database.tables;
      RefusalOrder(t, input);
      if TrimSpace(input.email) == "" {
        r := Failure(ServiceError(InvalidEmail, false));
      } else if TrimSpace(input.userName) == "" {
        r := Failure(ServiceError(InvalidUserName, false));
      } else if TrimSpace(input.displayName) == "" {
        r := Failure(ServiceError(InvalidDisplayName, false));
      } else if TrimSpace(input.issuer) == "" || TrimSpace(input.subject) == "" {
        r := Failure(ServiceError(InvalidIdentity, false));
      } else {
        IsFilled(input);
        r := CreateFilled(input, id, identity);
      }
      RegistrationAnswers(database.steady, t, input, r);
      RegisteredIs(t, id, identity, input);
    }

    method CreateFilled(input: Registration, id: Id, identity: Id) returns (r: Result<Account, ServiceError>)
      requires Sound(database.tables) && id !in database.tables.users && identity !in database.tables.identities
      requires Filled(input)
      modifies database
      ensures Sound(database.tables) && database.open == old(database.open)
      ensures r.Failure? ==> database.tables == old(database.tables)
      ensures r.Failure? ==> r.error.kind == Internal || Refusal(old(database.tables), input) == Some(r.error.kind)
      ensures database.steady ==> (r.Success? <==> Refusal(old(database.tables), input) == None)
      ensures database.steady && r.Failure? ==>
                Refusal(old(database.tables), input) == Some(r.error.kind) && !r.error.rollbackFailed
      ensures r.Success? ==>
                && Refusal(old(database.tables), input) == None
                && r.value == Account(id, ProfileOf(input))
                && database.tables == Registered(old(database.tables), id, identity, input)
                && Memberships(database.tables) == M.Effect(M.Register(id), Memberships(old(database.tables)))
                && Threads(database.tables) == T.Effect(T.Register(id), Threads(old(database.tables)))
    {
      hide *;
      ghost var t := database.tables;
      var began := BeginTx(database);
      if began.Failure? { return Failure(ServiceError(Internal, false)); }
      var tx := began.value;
      var b := CreateInTx(tx, input, id, identity);
      if b.Success? {
        RegisteredSound(t, id, identity, input);
        RegisteredProjects(t, id, identity, input);
      }
      r := Finish(tx, b);
    }

    method CreateInTx(tx: Transaction, input: Registration, id: Id, identity: Id) returns (r: Result<Account, Kind>)
      requires tx.db == database && tx.status == Open && tx.work == database.tables && database.open > 0
      requires id !in database.tables.users && identity !in database.tables.identities
      requires Filled(input)
      modifies tx, database
      ensures r.Success? ==> tx.status == Closed
      ensures database.open == old(database.open) - (if tx.status == Closed then 1 else 0)
      ensures r.Failure? ==> database.tables == old(database.tables)
      ensures r.Failure? ==> r.error == Internal || Refusal(old(database.tables), input) == Some(r.error)
      ensures database.steady ==> r != Failure(Internal)
      ensures r.Success? ==>
                && Refusal(old(database.tables), input) == None
                && r.value == Account(id, ProfileOf(input))
                && database.tables == Registered(old(database.tables), id, identity, input)
    {
      hide *;
      ghost var t := database.tables;
      UserInsert(t, id, identity, input);
      if InsertUser(t, id, ProfileOf(input)).Success? { IdentityInsert(t, id, identity, input); }
      var profile := ProfileOf(input);
      var stored := tx.Execute(InsertUser(tx.work, id, profile));
      match stored {
        case Success(_) =>
        case Failure(e) =>
          if e == Unique("users_email_unique") { return Failure(EmailTaken); }
          if e == Unique("users_user_name_unique") { return Failure(UserNameTaken); }
          return Failure(Internal);
      }
      var mapped := tx.Execute(InsertIdentity(tx.work, identity, Identity(id, input.issuer, input.subject)));
      match mapped {
        case Success(_) =>
        case Failure(e) =>
          if e == Unique("user_identities_identity_unique") { return Failure(IdentityTaken); }
          return Failure(Internal);
      }
      var committed := tx.Commit();
      if committed.Failure? { return Failure(Internal); }
      r := Success(Account(id, profile));
    }

    /** The raw issuer and subject of the token are compared. */
    method ReadUserByIdentity(issuer: string, subject: string) returns (r: Result<Account, Kind>)
      requires Sound(database.tables)
      ensures var t := database.tables;
              && (r.Success? ==> ResolvesTo(t, issuer, subject, r.value.id) && r.value.profile == t.users[r.value.id])
              && (r.Success? ==>
                    exists i :: i in t.identities && t.identities[i] == Identity(r.value.id, issuer, subject))
              && (r == Failure(UserNotFound) ==>
                    forall i | i in t.identities ::
                      t.identities[i].issuer != issuer || t.identities[i].subject != subject)
              && (r.Failure? ==> r.error == Internal || r.error == UserNotFound)
              && (r == Failure(UserNotFound) ==> forall u :: !ResolvesTo(t, issuer, subject, u))
      ensures database.steady ==> r != Failure(Internal)
    {
      SoundParts(database.tables);
      hide Sound, Intact, AccountsMatch, EveryWorkspaceOwned;
      var q := Ask(database);
      if q.Failure? { return Failure(Internal); }
      var t := database.tables;
      if i :| i in t.identities && t.identities[i].issuer == issuer && t.identities[i].subject == subject {
        var u := t.identities[i].user;
        assert t.identities[i] == Identity(u, issuer, subject);
        r := Success(Account(u, t.users[u]));
      } else {
        r := Failure(UserNotFound);
      }
    }

    /** Lock the user, delete the workspaces the user owns, delete the user. */
    method DeleteUser(actor: Id, user: Id) returns (r: Result<Unit, ServiceError>)
      requires Sound(database.tables)
      modifies database
      ensures Sound(database.tables) && database.open == old(database.open)
      ensures r.Failure? ==> database.tables == old(database.tables)
      ensures actor != user ==> r == Failure(ServiceError(Kind.Forbidden, false))
      ensures r.Failure? && r.error.kind == UserNotFound ==> actor == user && user !in old(database.tables).users
      ensures r.Failure? ==> r.error.kind in {Kind.Forbidden, UserNotFound, Internal}
      ensures r.Failure? && r.error.kind == Kind.Forbidden ==> actor != user
      ensures FailsIff(database.steady, r, Kind.Forbidden, actor != user)
      ensures FailsIff(database.steady, r, UserNotFound, actor == user && user !in old(database.tables).users)
      ensures SucceedsIff(database.steady, r, actor == user && Deletable(old(database.tables), user))
      ensures user !in old(database.tables).users ==>
                && M.Verdict(M.DeleteUser(user), Memberships(old(database.tables))) == M.NoUser
                && T.Verdict(T.DropUser(user), Threads(old(database.tables))) == T.NoUser
      ensures r.Success? ==> AccountGone(old(database.tables), database.tables, user)
      ensures r.Success? ==>
                && actor == user
                && Deletable(old(database.tables), user)
                && database.tables == Prune(old(database.tables), AccountRows(old(database.tables), user))
                && Memberships(database.tables) == M.Effect(M.DeleteUser(user), Memberships(old(database.tables)))
                && Threads(database.tables) == T.Effect(T.DropUser(user), Threads(old(database.tables)))
    {
      hide *;
      ghost var t := database.tables;
      SoundParts(t);
      if user !in t.users { NoSuchUser(t, user); }
      if actor != user {
        r := Failure(ServiceError(Kind.Forbidden, false));
      } else {
        r := DeleteOwn(user);
      }
      Fails(database.steady, r, Kind.Forbidden, actor != user);
      Fails(database.steady, r, UserNotFound, actor == user && user !in t.users);
      Succeeds(database.steady, r, actor == user && Deletable(t, user));
      if r.Success? { AccountLeaves(t, user); }
    }

    method DeleteOwn(user: Id) returns (r: Result<Unit, ServiceError>)
      requires Sound(database.tables)
      modifies database
      ensures Sound(database.tables) && database.open == old(database.open)
      ensures r.Failure? ==> database.tables == old(database.tables)
      ensures r.Failure? ==> r.error.kind == Internal || r.error.kind == UserNotFound
      ensures r.Failure? && r.error.kind == UserNotFound ==> user !in old(database.tables).users
      ensures database.steady ==>
                && (r.Success? <==> Deletable(old(database.tables), user))
                && (user !in old(database.tables).users ==> r == Failure(ServiceError(UserNotFound, false)))
      ensures r.Success? ==>
                && Deletable(old(database.tables), user)
                && database.tables == Prune(old(database.tables), AccountRows(old(database.tables), user))
                && Memberships(database.tables) == M.Effect(M.DeleteUser(user), Memberships(old(database.tables)))
                && Threads(database.tables) == T.Effect(T.DropUser(user), Threads(old(database.tables)))
    {
      hide *;
      ghost var t := database.tables;
      SoundParts(t);
      NotDeletable(t, user);
      var began := BeginTx(database);
      if began.Failure? { return Failure(ServiceError(Internal, false)); }
      var tx := began.value;
      var b := DeleteInTx(tx, user);
      if b.Success? {
        DeletedSound(t, user);
        AccountProjects(t, user);
        AccountThreads(t, user);
      }
      r := Finish(tx, b);
    }

    method DeleteInTx(tx: Transaction, user: Id) returns (r: Result<Unit, Kind>)
      requires tx.db == database && tx.status == Open && tx.work == database.tables && database.open > 0
      requires CountsOk(database.tables.messages) && SeatKeys(database.tables) && MemberKeys(database.tables)
      modifies tx, database
      ensures r.Success? ==> tx.status == Closed
      ensures database.open == old(database.open) - (if tx.status == Closed then 1 else 0)
      ensures r.Failure? ==> database.tables == old(database.tables)
      ensures r.Failure? ==> r.error == Internal || (r.error == UserNotFound && user !in old(database.tables).users)
      ensures database.steady ==> (r.Success? <==> Deletable(old(database.tables), user))
      ensures database.steady && user !in old(database.tables).users ==> r == Failure(UserNotFound)
      ensures r.Success? ==>
                && Deletable(old(database.tables), user)
                && database.tables == Prune(old(database.tables), AccountRows(old(database.tables), user))
    {
      hide *;
      ghost var t := database.tables;
      var q := tx.Query();
      if q.Failure? {
        NotDeletable(t, user);
        return Failure(Internal);
      }
      NotDeletable(t, user);
      if user !in tx.work.users { return Failure(UserNotFound); }
      var owned := WsSeeds(OwnedWorkspaces(tx.work, user));
      FirstDelete(t, user);
      var emptied := tx.DeleteRows(owned);
      if emptied.Failure? { return Failure(Internal); }
      SecondDelete(t, user);
      var removed := tx.DeleteRows({UserRow(user)});
      if removed.Failure? { return Failure(Internal); }
      if removed.value == 0 { return Failure(UserNotFound); }
      var committed := tx.Commit();
      if committed.Failure? { return Failure(Internal); }
      r := Success(Unit);
    }
  }

  lemma NoSuchUser(t: Tables, u: Id)
    requires u !in t.users
    ensures M.Verdict(M.DeleteUser(u), Memberships(t)) == M.NoUser
    ensures T.Verdict(T.DropUser(u), Threads(t)) == T.NoUser
  {
    hide Owners, ChannelWorkspaces, T.WithoutWorkspaces, T.OwnedBy, T.WrittenBy, M.MembersOf;
  }

  lemma OwnedIs(t: Tables, u: Id)
    requires MemberKeys(t)
    ensures OwnedWorkspaces(t, u)
            == set w | w in t.workspaces && Key(w, u) in t.members && t.members[Key(w, u)] == Owner
  {
    forall w ensures w in OwnedWorkspaces(t, u)
                     <==> w in t.workspaces && Key(w, u) in t.members && t.members[Key(w, u)] == Owner
    {
      OwnedHas(t, u, w);
    }
  }

  lemma OwnedHas(t: Tables, u: Id, w: Id)
    requires MemberKeys(t)
    ensures w in OwnedWorkspaces(t, u) <==> Key(w, u) in t.members && t.members[Key(w, u)] == Owner
    ensures w in OwnedWorkspaces(t, u) ==> w in t.workspaces
  {
    assert Key(w, u).user == u && Key(w, u).ws == w;
  }

  lemma AccountLeaves(t: Tables, u: Id)
    requires MessageKeys(t) && SeatKeys(t) && MemberKeys(t)
    ensures AccountGone(t, Prune(t, AccountRows(t, u)), u)
  {
    hide AccountGone, MessageKeys, SeatKeys, Prune, WorkspaceRows, UserRows;
    var owned := OwnedWorkspaces(t, u);
    OwnedIs(t, u);
    AccountRowsLeave(t, u, owned);
  }

  /** The message is in a channel of a workspace the user owns. */
  predicate InOwnWorkspace(t: Tables, u: Id, m: Id) {
    && m in t.messages && t.messages[m].channel in t.channels
    && var k := Key(t.channels[t.messages[m].channel].ws, u); k in t.members && t.members[k] == Owner
  }

  /** Following thread_root_id from the message leads to one there. */
  ghost predicate LeadsToOwn(t: Tables, u: Id, m: Id) {
    exists x, steps: nat :: LeadsTo(t, m, x, steps) && InOwnWorkspace(t, u, x)
  }

  /** An account can be deleted exactly when no direct message names it and every channel message its
      user wrote leads to a workspace the user owns. */
  lemma DeletableInTables(t: Tables, u: Id)
    ensures Deletable(t, u)
            <==> && u in t.users
                 && (forall d | d in t.directs :: t.directs[d].author != u && t.directs[d].recipient != u)
                 && (forall m | m in t.messages && t.messages[m].author == u :: LeadsToOwn(t, u, m))
  {
    hide ThreadsUnder, LeadsToOwn, ChannelsOf, OwnedWorkspaces;
    forall m ensures m in ThreadsUnder(t, ChannelsOf(t, OwnedWorkspaces(t, u))) <==> LeadsToOwn(t, u, m) {
      GoesIffLeads(t, u, m);
    }
  }

  lemma GoesIffLeads(t: Tables, u: Id, m: Id)
    ensures m in ThreadsUnder(t, ChannelsOf(t, OwnedWorkspaces(t, u))) <==> LeadsToOwn(t, u, m)
  {
    hide LeadsTo, InOwnWorkspace, PostedIn, ChannelsOf, OwnedWorkspaces, Reach;
    var first := PostedIn(t.messages, ChannelsOf(t, OwnedWorkspaces(t, u)));
    forall x ensures x in first <==> InOwnWorkspace(t, u, x) { OwnFirst(t, u, x); }
    if LeadsToOwn(t, u, m) {
      var x, steps: nat :| LeadsTo(t, m, x, steps) && InOwnWorkspace(t, u, x);
      ChainIsReached(t, m, x, steps, first);
    }
    if m in Reach(ThreadEdges(t.messages), first) {
      var x, steps := ReachedLeads(t, m, first);
      assert LeadsTo(t, m, x, steps) && InOwnWorkspace(t, u, x);
    }
  }

  lemma OwnFirst(t: Tables, u: Id, x: Id)
    ensures x in PostedIn(t.messages, ChannelsOf(t, OwnedWorkspaces(t, u))) <==> InOwnWorkspace(t, u, x)
  {
  }

  lemma NotDeletable(t: Tables, u: Id)
    ensures u !in t.users ==> !Deletable(t, u)
  {
  }

  /** The first statement removes the owned workspaces, and no RESTRICT key stands in its way. */
  lemma FirstDelete(t: Tables, u: Id)
    requires CountsOk(t.messages) && SeatKeys(t) && MemberKeys(t) && u in t.users
    ensures var owned := Existing(t, WsSeeds(OwnedWorkspaces(t, u)));
            !UserInUse(t, owned) && Prune(t, Cascaded(t, owned)) == WithoutOwned(t, u)
    ensures CountsOk(WithoutOwned(t, u).messages)
  {
    OwnedAreStored(t, u);
    WorkspaceCascade(t, OwnedWorkspaces(t, u));
    WithoutOwnedCounts(t, u);
    hide Prune, Cascaded, WorkspaceRows, CountsOk, SeatKeys, MemberKeys, OwnedWorkspaces;
  }

  /** The second one removes the user, unless a RESTRICT key of what is left forbids it. */
  lemma SecondDelete(t: Tables, u: Id)
    requires SeatKeys(t) && u in t.users
    ensures var t1 := WithoutOwned(t, u);
            && Existing(t1, {UserRow(u)}) == {UserRow(u)}
            && (UserInUse(t1, {UserRow(u)}) <==> !Deletable(t, u))
            && Prune(t1, Cascaded(t1, {UserRow(u)})) == Prune(t, AccountRows(t, u))
  {
    hide WithoutOwned, Prune, Cascaded, AccountRows, Deletable, Restricted, SeatKeys;
    UserStays(t, u);
    RestrictedIff(t, u);
    AccountPrune(t, u);
    var t1 := WithoutOwned(t, u);
    assert UserInUse(t1, {UserRow(u)}) <==> Restricted(t1, u) by {
      assert UserRow(u) in {UserRow(u)};
    }
  }

  lemma AccountProjects(t: Tables, u: Id)
    requires Deletable(t, u)
    ensures Memberships(Prune(t, AccountRows(t, u))) == M.Effect(M.DeleteUser(u), Memberships(t))
  {
    DeleteUserProjects(t, u);
  }

  lemma AccountThreads(t: Tables, u: Id)
    requires Sound(t) && Deletable(t, u) && Sound(Prune(t, AccountRows(t, u)))
    ensures Threads(Prune(t, AccountRows(t, u))) == T.Effect(T.DropUser(u), Threads(t))
  {
    hide Sound, Threads, T.Effect, Prune, Deletable, T.Verdict;
    SoundParts(t);
    SoundParts(Prune(t, AccountRows(t, u)));
    DeletableIff(t, u);
    DeleteUserThreads(t, u);
  }

  /** An account can be deleted exactly when no direct message names it and the thread model, run alone,
      lets it go. */
  lemma DeletableIff(t: Tables, u: Id)
    requires Sound(t)
    ensures Deletable(t, u)
            <==> T.Verdict(T.DropUser(u), Threads(t)) == T.Done
                 && forall d | d in t.directs :: t.directs[d].author != u && t.directs[d].recipient != u
  {
    hide Sound, Threads, T.Verdict, ThreadsUnder, ChannelsOf, OwnedWorkspaces;
    hide MemberKeys, EveryWorkspaceOwned, AccountsMatch, Intact, CountsOk, MessageKeys, SeatKeys, IdentityKeys;
    SoundParts(t);
    DropUserVerdictIff(t, u);
  }

  lemma RegisteredProjects(t: Tables, id: Id, identity: Id, input: Registration)
    ensures Memberships(Registered(t, id, identity, input)) == M.Effect(M.Register(id), Memberships(t))
    ensures Threads(Registered(t, id, identity, input)) == T.Effect(T.Register(id), Threads(t))
  {
    SameOwners(t, Registered(t, id, identity, input));
    hide Owners;
  }

  /** The owned-workspaces query joins with workspaces; every owner row has its workspace. */
  lemma OwnedAreStored(t: Tables, u: Id)
    requires MemberKeys(t)
    ensures Existing(t, WsSeeds(OwnedWorkspaces(t, u))) == WsSeeds(OwnedWorkspaces(t, u))
  {
  }

  lemma UserStays(t: Tables, u: Id)
    requires u in t.users
    ensures u in WithoutOwned(t, u).users
  {
    WorkspaceRowsContents(t, OwnedWorkspaces(t, u));
  }
}
