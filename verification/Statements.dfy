/** The INSERT and UPDATE statements with the constraints they run into, in the order PostgreSQL
    checks them: CHECK constraints and unique indexes while the row is stored, foreign keys after. */
module Statements {
  import opened Base
  import opened Entities
  import opened Schema

  datatype SqlError =
    | Unique(constraint: string)
    | ForeignKey(constraint: string)
    | CheckFailed
    | Lost       // the statement failed for a reason outside the tables: timeout, deadlock, lost connection
    | TxAborted  // an earlier statement of the transaction failed, or a commit turned into a rollback
    | TxClosed   // the transaction was committed or rolled back before

  function InsertUser(t: Tables, id: Id, u: User): Result<Tables, SqlError> {
    if id in t.users then Failure(Unique("users_pkey"))
    else if exists x :: x in t.users && t.users[x].email == u.email then Failure(Unique("users_email_unique"))
    else if exists x :: x in t.users && t.users[x].userName == u.userName then Failure(Unique("users_user_name_unique"))
    else Success(t.(users := t.users[id := u]))
  }

  function InsertIdentity(t: Tables, id: Id, i: Identity): Result<Tables, SqlError> {
    if id in t.identities then Failure(Unique("user_identities_pkey"))
    else if exists x :: x in t.identities && t.identities[x].issuer == i.issuer && t.identities[x].subject == i.subject
    then Failure(Unique("user_identities_identity_unique"))
    else if i.user !in t.users then Failure(ForeignKey("user_identities_user_id_fkey"))
    else Success(t.(identities := t.identities[id := i]))
  }

  function InsertWorkspace(t: Tables, id: Id, info: WorkspaceInfo): Result<Tables, SqlError> {
    if id in t.workspaces then Failure(Unique("workspaces_pkey"))
    else Success(t.(workspaces := t.workspaces[id := info]))
  }

  function InsertMember(t: Tables, k: Key, role: Role): Result<Tables, SqlError> {
    if k in t.members then Failure(Unique("workspace_members_pkey"))
    else if role == Owner && exists x :: x in t.members && x.ws == k.ws && t.members[x] == Owner
    then Failure(Unique("workspace_members_single_owner_idx"))
    else if k.ws !in t.workspaces then Failure(ForeignKey("workspace_members_workspace_id_fkey"))
    else if k.user !in t.users then Failure(ForeignKey("workspace_members_user_id_fkey"))
    else Success(t.(members := t.members[k := role]))
  }

  function InsertChannel(t: Tables, id: Id, c: Channel): Result<Tables, SqlError> {
    if id in t.channels then Failure(Unique("channels_pkey"))
    else if exists x :: x in t.channels && t.channels[x] == c then Failure(Unique("channels_workspace_name_unique"))
    else if c.ws !in t.workspaces then Failure(ForeignKey("channels_workspace_id_fkey"))
    else Success(t.(channels := t.channels[id := c]))
  }

  /** ON CONFLICT DO NOTHING: an existing membership is success without a change. */
  function InsertSeat(t: Tables, ws: Id, s: Seat): Result<Tables, SqlError> {
    if s in t.seats then Success(t)
    else if s.user !in t.users then Failure(ForeignKey("channel_members_user_id_fkey"))
    else if s.channel !in t.channels || t.channels[s.channel].ws != ws
    then Failure(ForeignKey("channel_members_workspace_channel_fkey"))
    else if Key(ws, s.user) !in t.members then Failure(ForeignKey("channel_members_workspace_member_fkey"))
    else Success(t.(seats := t.seats[s := ws]))
  }

  /** The AFTER INSERT trigger adds one to the root of a reply. */
  function InsertMessage(t: Tables, id: Id, m: Message): Result<Tables, SqlError> {
    if m.body == "" then Failure(CheckFailed)
    else if id in t.messages then Failure(Unique("messages_pkey"))
    else if m.author !in t.users then Failure(ForeignKey("channel_messages_author_id_fkey"))
    else if m.channel !in t.channels then Failure(ForeignKey("channel_messages_channel_id_fkey"))
    else if m.root.Some? && m.root.value !in t.messages then Failure(ForeignKey("channel_messages_thread_root_id_fkey"))
    else Success(t.(messages := Posted(t.messages, id, m)))
  }

  function InsertDirect(t: Tables, id: Id, d: Direct): Result<Tables, SqlError> {
    if d.body == "" then Failure(CheckFailed)
    else if id in t.directs then Failure(Unique("direct_messages_pkey"))
    else if d.author !in t.users then Failure(ForeignKey("direct_messages_author_id_fkey"))
    else if d.recipient !in t.users then Failure(ForeignKey("direct_messages_recipient_id_fkey"))
    else Success(t.(directs := t.directs[id := d]))
  }

  // ---------------------------------------------------------------- what each keeps

  /** NewV7 gives an id that no row has. */
  predicate FreshId(t: Tables, id: Id) {
    && id !in t.users && id !in t.identities && id !in t.workspaces && id !in t.channels
    && id !in t.messages && id !in t.directs
  }

  lemma InsertUserKeeps(t: Tables, id: Id, u: User)
    requires Intact(t) && InsertUser(t, id, u).Success?
    ensures Intact(InsertUser(t, id, u).value)
  {
  }

  lemma InsertIdentityKeys(t: Tables, id: Id, i: Identity)
    requires IdentityKeys(t) && InsertIdentity(t, id, i).Success?
    ensures IdentityKeys(InsertIdentity(t, id, i).value)
  {
  }

  lemma OnlyIdentitiesChange(t: Tables, t': Tables)
    requires Intact(t) && t' == t.(identities := t'.identities) && IdentityKeys(t')
    ensures Intact(t')
  {
    hide IdentityKeys, CountsOk, Forest;
  }

  /** Mapping an identity keeps every key. */
  lemma InsertIdentityKeeps(t: Tables, id: Id, i: Identity)
    requires Intact(t) && InsertIdentity(t, id, i).Success?
    ensures Intact(InsertIdentity(t, id, i).value)
  {
    hide UserKeys, IdentityKeys, MemberKeys, ChannelKeys, SeatKeys, MessageKeys, DirectKeys;
    InsertIdentityKeys(t, id, i);
    OnlyIdentitiesChange(t, InsertIdentity(t, id, i).value);
  }

  lemma InsertWorkspaceKeeps(t: Tables, id: Id, info: WorkspaceInfo)
    requires Intact(t) && InsertWorkspace(t, id, info).Success?
    ensures Intact(InsertWorkspace(t, id, info).value)
  {
  }

  lemma InsertMemberKeys(t: Tables, k: Key, role: Role)
    requires MemberKeys(t) && SeatKeys(t) && InsertMember(t, k, role).Success?
    ensures MemberKeys(InsertMember(t, k, role).value) && SeatKeys(InsertMember(t, k, role).value)
  {
  }

  lemma OnlyMembersChange(t: Tables, t': Tables)
    requires Intact(t) && t' == t.(members := t'.members) && MemberKeys(t') && SeatKeys(t')
    ensures Intact(t')
  {
    hide MemberKeys, SeatKeys, CountsOk, Forest;
  }

  /** An accepted membership keeps every key, the single owner included. */
  lemma InsertMemberKeeps(t: Tables, k: Key, role: Role)
    requires Intact(t) && InsertMember(t, k, role).Success?
    ensures Intact(InsertMember(t, k, role).value)
  {
    hide UserKeys, IdentityKeys, MemberKeys, ChannelKeys, SeatKeys, MessageKeys, DirectKeys;
    InsertMemberKeys(t, k, role);
    OnlyMembersChange(t, InsertMember(t, k, role).value);
  }

  lemma InsertChannelKeys(t: Tables, id: Id, c: Channel)
    requires ChannelKeys(t) && SeatKeys(t) && MessageKeys(t) && InsertChannel(t, id, c).Success?
    ensures ChannelKeys(InsertChannel(t, id, c).value) && SeatKeys(InsertChannel(t, id, c).value)
    ensures MessageKeys(InsertChannel(t, id, c).value)
  {
    hide CountsOk, Forest;
  }

  lemma OnlyChannelsChange(t: Tables, t': Tables)
    requires Intact(t) && t' == t.(channels := t'.channels) && ChannelKeys(t') && SeatKeys(t') && MessageKeys(t')
    ensures Intact(t')
  {
    hide ChannelKeys, SeatKeys, MessageKeys;
  }

  /** Creating a channel keeps every key. */
  lemma InsertChannelKeeps(t: Tables, id: Id, c: Channel)
    requires Intact(t) && InsertChannel(t, id, c).Success?
    ensures Intact(InsertChannel(t, id, c).value)
  {
    hide UserKeys, IdentityKeys, MemberKeys, ChannelKeys, SeatKeys, MessageKeys, DirectKeys;
    InsertChannelKeys(t, id, c);
    OnlyChannelsChange(t, InsertChannel(t, id, c).value);
  }

  /** Adding a channel member keeps every key: whoever is in a channel is in its workspace. */
  lemma InsertSeatKeeps(t: Tables, ws: Id, s: Seat)
    requires Intact(t) && InsertSeat(t, ws, s).Success?
    ensures Intact(InsertSeat(t, ws, s).value)
    ensures s in InsertSeat(t, ws, s).value.seats
  {
    InsertSeatKeys(t, ws, s);
    OnlySeatsChange(t, InsertSeat(t, ws, s).value);
  }

  lemma InsertSeatKeys(t: Tables, ws: Id, s: Seat)
    requires SeatKeys(t) && InsertSeat(t, ws, s).Success?
    ensures var t' := InsertSeat(t, ws, s).value; SeatKeys(t') && t' == t.(seats := t'.seats)
  {
  }

  lemma OnlySeatsChange(t: Tables, t': Tables)
    requires Intact(t) && t' == t.(seats := t'.seats) && SeatKeys(t')
    ensures Intact(t')
  {
  }

  lemma ForestPosted(msgs: map<Id, Message>, id: Id, m: Message)
    requires Forest(msgs) && id !in msgs && m.root != Some(id)
    requires m.root.Some? ==> m.root.value in msgs
    requires forall x | x in msgs :: msgs[x].root != Some(id)
    ensures Forest(Posted(msgs, id, m))
  {
    var rank :| Ranks(msgs, rank);
    var top := if m.root.Some? && m.root.value in rank then rank[m.root.value] + 1 else 1;
    var rank' := if m.root.Some? && m.root.value !in rank then rank[m.root.value := 0][id := top] else rank[id := top];
    assert Ranks(Posted(msgs, id, m), rank');
  }

  lemma OnlyMessagesChange(t: Tables, t': Tables)
    requires Intact(t) && t' == t.(messages := t'.messages) && MessageKeys(t')
    ensures Intact(t')
  {
  }

  lemma InsertMessageKeys(t: Tables, id: Id, m: Message)
    requires MessageKeys(t) && m.count == 0 && m.root != Some(id)
    requires InsertMessage(t, id, m).Success?
    ensures MessageKeys(InsertMessage(t, id, m).value)
  {
    PostedKeepsCounts(t.messages, id, m);
    ForestPosted(t.messages, id, m);
  }

  /** Posting keeps every key, the reply counts and the acyclic threads. */
  lemma InsertMessageKeeps(t: Tables, id: Id, m: Message)
    requires Intact(t) && m.count == 0 && m.root != Some(id)
    requires InsertMessage(t, id, m).Success?
    ensures Intact(InsertMessage(t, id, m).value)
  {
    InsertMessageKeys(t, id, m);
    OnlyMessagesChange(t, InsertMessage(t, id, m).value);
  }

  function UpdateMessage(t: Tables, id: Id, body: string, now: nat): Tables
    requires id in t.messages
  {
    t.(messages := t.messages[id := t.messages[id].(body := body, updatedAt := now)])
  }

  lemma UpdateMessageKeys(t: Tables, id: Id, body: string, now: nat)
    requires MessageKeys(t) && id in t.messages && body != ""
    ensures MessageKeys(UpdateMessage(t, id, body, now))
  {
    var t' := UpdateMessage(t, id, body, now);
    forall m ensures Replies(t'.messages, m) == Replies(t.messages, m) {
      RepliesSameRoots(t.messages, t'.messages, m);
    }
    var rank :| Ranks(t.messages, rank);
    assert Ranks(t'.messages, rank);
  }

  /** Editing a body keeps every key and leaves counts and threads alone. */
  lemma UpdateMessageKeeps(t: Tables, id: Id, body: string, now: nat)
    requires Intact(t) && id in t.messages && body != ""
    ensures Intact(UpdateMessage(t, id, body, now))
  {
    UpdateMessageKeys(t, id, body, now);
    OnlyMessagesChange(t, UpdateMessage(t, id, body, now));
  }

  /** What the RESTRICT foreign keys to users forbid. */
  predicate Restricted(t: Tables, u: Id) {
    || (exists m :: m in t.messages && t.messages[m].author == u)
    || (exists d :: d in t.directs && (t.directs[d].author == u || t.directs[d].recipient == u))
  }
}
