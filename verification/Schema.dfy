/** The eight tables, their keys, and the foreign keys that cascade. */
module Schema {
  import opened Base
  import opened Reachability
  import opened Entities

  datatype User = User(email: string, userName: string, displayName: string, createdAt: nat)

  datatype WorkspaceInfo = WorkspaceInfo(name: string, createdAt: nat)

  datatype Identity = Identity(user: Id, issuer: string, subject: string)

  datatype Channel = Channel(ws: Id, name: string)

  /** Primary key of channel_members; the row itself adds the workspace. */
  datatype Seat = Seat(channel: Id, user: Id)

  datatype Direct = Direct(author: Id, recipient: Id, body: string, createdAt: nat, updatedAt: nat)

  datatype Tables = Tables(
    users: map<Id, User>,
    identities: map<Id, Identity>,
    workspaces: map<Id, WorkspaceInfo>,
    members: map<Key, Role>,
    channels: map<Id, Channel>,
    seats: map<Seat, Id>,
    messages: map<Id, Message>,
    directs: map<Id, Direct>)

  const EMPTY := Tables(map[], map[], map[], map[], map[], map[], map[], map[])

  // ---------------------------------------------------------------- rows and cascade edges

  datatype Row =
    | UserRow(user: Id)
    | IdentityRow(identity: Id)
    | WorkspaceRow(ws: Id)
    | MemberRow(member: Key)
    | ChannelRow(channel: Id)
    | SeatRow(seat: Seat)
    | MessageRow(message: Id)

  predicate Present(t: Tables, r: Row) {
    match r
    case UserRow(u) => u in t.users
    case IdentityRow(i) => i in t.identities
    case WorkspaceRow(w) => w in t.workspaces
    case MemberRow(k) => k in t.members
    case ChannelRow(c) => c in t.channels
    case SeatRow(s) => s in t.seats
    case MessageRow(m) => m in t.messages
  }

  /** The rows r refers to by a foreign key declared ON DELETE CASCADE. */
  function Parents(t: Tables, r: Row): set<Row>
    requires Present(t, r)
  {
    match r
    case UserRow(_) => {}
    case IdentityRow(i) => {UserRow(t.identities[i].user)}
    case WorkspaceRow(_) => {}
    case MemberRow(k) => {WorkspaceRow(k.ws), UserRow(k.user)}
    case ChannelRow(c) => {WorkspaceRow(t.channels[c].ws)}
    case SeatRow(s) => {UserRow(s.user), ChannelRow(s.channel), MemberRow(Key(t.seats[s], s.user))}
    case MessageRow(m) =>
      {ChannelRow(t.messages[m].channel)}
      + if t.messages[m].root.Some? then {MessageRow(t.messages[m].root.value)} else {}
  }

  /** The foreign keys declared ON DELETE CASCADE. */
  datatype ForeignKey =
    | IdentityUser
    | MemberWorkspace
    | MemberUser
    | ChannelWorkspace
    | SeatUser
    | SeatChannel
    | SeatMember
    | MessageChannel
    | MessageRoot

  /** The row that r refers to by this key, if it has the key and a value in it. */
  function Referenced(t: Tables, r: Row, key: ForeignKey): Option<Row>
    requires Present(t, r)
  {
    match (r, key)
    case (IdentityRow(i), IdentityUser) => Some(UserRow(t.identities[i].user))
    case (MemberRow(k), MemberWorkspace) => Some(WorkspaceRow(k.ws))
    case (MemberRow(k), MemberUser) => Some(UserRow(k.user))
    case (ChannelRow(c), ChannelWorkspace) => Some(WorkspaceRow(t.channels[c].ws))
    case (SeatRow(s), SeatUser) => Some(UserRow(s.user))
    case (SeatRow(s), SeatChannel) => Some(ChannelRow(s.channel))
    case (SeatRow(s), SeatMember) => Some(MemberRow(Key(t.seats[s], s.user)))
    case (MessageRow(m), MessageChannel) => Some(ChannelRow(t.messages[m].channel))
    case (MessageRow(m), MessageRoot) =>
      if t.messages[m].root.Some? then Some(MessageRow(t.messages[m].root.value)) else None
    case _ => None
  }

  /** The keys that refer to rows of p's table. */
  function KeysOn(p: Row): set<ForeignKey> {
    match p
    case UserRow(_) => {IdentityUser, MemberUser, SeatUser}
    case WorkspaceRow(_) => {MemberWorkspace, ChannelWorkspace}
    case MemberRow(_) => {SeatMember}
    case ChannelRow(_) => {SeatChannel, MessageChannel}
    case MessageRow(_) => {MessageRoot}
    case _ => {}
  }

  /** The parents of a row are what its keys refer to, each by a key on its own table. */
  lemma ParentsAreReferenced(t: Tables, r: Row, p: Row)
    requires Present(t, r)
    ensures p in Parents(t, r) <==> exists key :: Referenced(t, r, key) == Some(p)
    ensures forall key | Referenced(t, r, key) == Some(p) :: key in KeysOn(p)
  {
    match r
    case UserRow(_) =>
    case IdentityRow(i) => assert Referenced(t, r, IdentityUser).Some?;
    case WorkspaceRow(_) =>
    case MemberRow(k) => assert Referenced(t, r, MemberWorkspace).Some? && Referenced(t, r, MemberUser).Some?;
    case ChannelRow(c) => assert Referenced(t, r, ChannelWorkspace).Some?;
    case SeatRow(s) =>
      assert Referenced(t, r, SeatUser).Some? && Referenced(t, r, SeatChannel).Some?;
      assert Referenced(t, r, SeatMember).Some?;
    case MessageRow(m) =>
      assert Referenced(t, r, MessageChannel).Some?;
      assert Referenced(t, r, MessageRoot).Some? <==> t.messages[m].root.Some?;
  }

  function PeopleRows(t: Tables): (r: set<Row>)
    ensures forall x :: x in r <==> Present(t, x) && (x.UserRow? || x.IdentityRow? || x.MemberRow? || x.SeatRow?)
  {
    (set u | u in t.users :: UserRow(u))
    + (set i | i in t.identities :: IdentityRow(i))
    + (set k | k in t.members :: MemberRow(k))
    + (set s | s in t.seats :: SeatRow(s))
  }

  function ContentRows(t: Tables): (r: set<Row>)
    ensures forall x :: x in r <==> Present(t, x) && (x.WorkspaceRow? || x.ChannelRow? || x.MessageRow?)
  {
    (set w | w in t.workspaces :: WorkspaceRow(w))
    + (set c | c in t.channels :: ChannelRow(c))
    + (set m | m in t.messages :: MessageRow(m))
  }

  function Rows(t: Tables): (r: set<Row>)
    ensures forall x :: x in r <==> Present(t, x)
  {
    PeopleRows(t) + ContentRows(t)
  }

  function Edges(t: Tables): set<(Row, Row)> {
    set c, p | c in Rows(t) && p in Parents(t, c) :: (p, c)
  }

  lemma EdgesContents(t: Tables, p: Row, c: Row)
    ensures (p, c) in Edges(t) <==> Present(t, c) && p in Parents(t, c)
  {
  }

  /** The rows a cascade from seeds removes. */
  ghost function Cascaded(t: Tables, seeds: set<Row>): set<Row> {
    Reach(Edges(t), seeds)
  }

  function MessagesIn(rows: set<Row>): set<Id> {
    set r | r in rows && r.MessageRow? :: r.message
  }

  /** The tables with rows taken out, before any trigger runs. */
  function Strip(t: Tables, gone: set<Row>): Tables {
    Tables(
      map u | u in t.users && UserRow(u) !in gone :: t.users[u],
      map i | i in t.identities && IdentityRow(i) !in gone :: t.identities[i],
      map w | w in t.workspaces && WorkspaceRow(w) !in gone :: t.workspaces[w],
      map k | k in t.members && MemberRow(k) !in gone :: t.members[k],
      map c | c in t.channels && ChannelRow(c) !in gone :: t.channels[c],
      map s | s in t.seats && SeatRow(s) !in gone :: t.seats[s],
      t.messages - MessagesIn(gone),
      t.directs)
  }

  /** The tables with rows taken out, and the reply counts of the messages that are left corrected. */
  function Prune(t: Tables, gone: set<Row>): Tables {
    Strip(t, gone).(messages := Without(t.messages, MessagesIn(gone)))
  }

  /** From t to t' whole rows have gone and nothing else has changed, but for counts of messages. */
  ghost predicate OnlyRowsGone(t: Tables, t': Tables) {
    && (forall u | u in t'.users :: u in t.users && t'.users[u] == t.users[u])
    && (forall i | i in t'.identities :: i in t.identities && t'.identities[i] == t.identities[i])
    && (forall w | w in t'.workspaces :: w in t.workspaces && t'.workspaces[w] == t.workspaces[w])
    && (forall k | k in t'.members :: k in t.members && t'.members[k] == t.members[k])
    && (forall c | c in t'.channels :: c in t.channels && t'.channels[c] == t.channels[c])
    && (forall s | s in t'.seats :: s in t.seats && t'.seats[s] == t.seats[s])
    && (forall m | m in t'.messages ::
          m in t.messages && t'.messages[m] == t.messages[m].(count := t'.messages[m].count))
    && t'.directs == t.directs
  }

  lemma PruneTakesOnlyRows(t: Tables, gone: set<Row>)
    ensures OnlyRowsGone(t, Prune(t, gone))
  {
  }

  // ---------------------------------------------------------------- integrity

  ghost predicate IdentityKeys(t: Tables) {
    && (forall i | i in t.identities :: t.identities[i].user in t.users)
    && (forall i, j | i in t.identities && j in t.identities
                      && t.identities[i].issuer == t.identities[j].issuer
                      && t.identities[i].subject == t.identities[j].subject :: i == j)
  }

  ghost predicate UserKeys(t: Tables) {
    && (forall u, x | u in t.users && x in t.users && t.users[u].email == t.users[x].email :: u == x)
    && (forall u, x | u in t.users && x in t.users && t.users[u].userName == t.users[x].userName :: u == x)
  }

  ghost predicate MemberKeys(t: Tables) {
    && (forall k | k in t.members :: k.ws in t.workspaces && k.user in t.users)
    && (forall k, x | k in t.members && x in t.members && k.ws == x.ws
                      && t.members[k] == Owner && t.members[x] == Owner :: k == x)
  }

  ghost predicate ChannelKeys(t: Tables) {
    && (forall c | c in t.channels :: t.channels[c].ws in t.workspaces)
    && (forall c, x | c in t.channels && x in t.channels && t.channels[c] == t.channels[x] :: c == x)
  }

  /** A channel member is a user, and a member of that channel's workspace. */
  ghost predicate SeatKeys(t: Tables) {
    forall s | s in t.seats ::
      && s.user in t.users
      && s.channel in t.channels && t.channels[s.channel].ws == t.seats[s]
      && Key(t.seats[s], s.user) in t.members
  }

  ghost predicate MessageKeys(t: Tables) {
    && (forall m | m in t.messages ::
          && t.messages[m].author in t.users
          && t.messages[m].channel in t.channels
          && (t.messages[m].root.Some? ==> t.messages[m].root.value in t.messages)
          && t.messages[m].body != "")
    && CountsOk(t.messages)
    && Forest(t.messages)
  }

  ghost predicate DirectKeys(t: Tables) {
    forall d | d in t.directs ::
      t.directs[d].author in t.users && t.directs[d].recipient in t.users && t.directs[d].body != ""
  }

  /** Every primary, unique and foreign key and every CHECK of the eight tables, the exactness of the
      reply counts and the absence of thread cycles. */
  ghost predicate Intact(t: Tables) {
    && UserKeys(t) && IdentityKeys(t) && MemberKeys(t) && ChannelKeys(t) && SeatKeys(t)
    && MessageKeys(t) && DirectKeys(t)
  }

  ghost predicate Owned(t: Tables, w: Id) {
    exists u :: Key(w, u) in t.members && t.members[Key(w, u)] == Owner
  }

  ghost predicate Known(t: Tables, u: Id) {
    exists i :: i in t.identities && t.identities[i].user == u
  }

  ghost predicate OneIdentity(t: Tables) {
    forall i, j | i in t.identities && j in t.identities && t.identities[i].user == t.identities[j].user :: i == j
  }

  ghost predicate EveryWorkspaceOwned(t: Tables) {
    forall w | w in t.workspaces :: Owned(t, w)
  }

  /** Users and external identities correspond one to one. */
  ghost predicate AccountsMatch(t: Tables) {
    && (forall u | u in t.users :: Known(t, u))
    && OneIdentity(t)
  }

  predicate NobodyWritesToThemselves(t: Tables) {
    forall d | d in t.directs :: t.directs[d].author != t.directs[d].recipient
  }

  /** What the services add to the schema. */
  ghost predicate Sound(t: Tables) {
    && Intact(t)
    && EveryWorkspaceOwned(t)
    && AccountsMatch(t)
    && NobodyWritesToThemselves(t)
  }

  /** Freshly migrated tables. */
  lemma EmptyIsSound()
    ensures Sound(EMPTY)
  {
    assert Ranks(EMPTY.messages, map[]);
  }

  // ---------------------------------------------------------------- pruning

  lemma StripTwiceAccounts(t: Tables, a: set<Row>, b: set<Row>)
    ensures Strip(Strip(t, a), b).users == Strip(t, a + b).users
    ensures Strip(Strip(t, a), b).identities == Strip(t, a + b).identities
    ensures Strip(Strip(t, a), b).workspaces == Strip(t, a + b).workspaces
  {
  }

  lemma StripTwiceChannels(t: Tables, a: set<Row>, b: set<Row>)
    ensures Strip(Strip(t, a), b).members == Strip(t, a + b).members
    ensures Strip(Strip(t, a), b).channels == Strip(t, a + b).channels
    ensures Strip(Strip(t, a), b).seats == Strip(t, a + b).seats
  {
  }

  lemma StripTwice(t: Tables, a: set<Row>, b: set<Row>)
    ensures Strip(Strip(t, a), b) == Strip(t, a + b)
  {
    StripTwiceAccounts(t, a, b);
    StripTwiceChannels(t, a, b);
    assert MessagesIn(a + b) == MessagesIn(a) + MessagesIn(b);
    assert (t.messages - MessagesIn(a)) - MessagesIn(b) == t.messages - MessagesIn(a + b);
  }

  lemma PruneContents(t: Tables, gone: set<Row>, r: Row)
    ensures Present(Prune(t, gone), r) <==> Present(t, r) && r !in gone
    ensures Present(Prune(t, gone), r) ==> Parents(Prune(t, gone), r) == Parents(t, r)
  {
    if r.MessageRow? { assert r.message in MessagesIn(gone) <==> r in gone; }
  }

  /** A cascade takes every row that refers to a row it takes. */
  lemma CascadeTakesChildren(t: Tables, seeds: set<Row>, r: Row, p: Row)
    requires Present(t, r) && p in Parents(t, r) && p in Cascaded(t, seeds)
    ensures r in Cascaded(t, seeds)
  {
    EdgesContents(t, p, r);
    assert (p, r) in Edges(t) && (p, r).0 in Cascaded(t, seeds);
  }

  lemma ForestWithout(msgs: map<Id, Message>, gone: set<Id>)
    requires Forest(msgs)
    ensures Forest(Without(msgs, gone))
  {
    var rank :| Ranks(msgs, rank);
    assert Ranks(Without(msgs, gone), rank);
  }

  /** Nothing that stays refers, by a RESTRICT foreign key, to a user that goes. */
  predicate Unrestricted(t: Tables, gone: set<Row>) {
    && (forall m | m in t.messages && MessageRow(m) !in gone :: UserRow(t.messages[m].author) !in gone)
    && (forall d | d in t.directs ::
          UserRow(t.directs[d].author) !in gone && UserRow(t.directs[d].recipient) !in gone)
  }

  lemma ParentsStay(t: Tables, seeds: set<Row>, r: Row)
    requires Present(t, r) && r !in Cascaded(t, seeds)
    ensures forall p | p in Parents(t, r) :: p !in Cascaded(t, seeds)
  {
    forall p | p in Parents(t, r) ensures p !in Cascaded(t, seeds) {
      if p in Cascaded(t, seeds) { CascadeTakesChildren(t, seeds, r, p); }
    }
  }

  lemma PruneKeepsSeats(t: Tables, seeds: set<Row>)
    requires SeatKeys(t)
    ensures SeatKeys(Prune(t, Cascaded(t, seeds)))
  {
    hide Cascaded;
    var gone := Cascaded(t, seeds);
    forall s | s in t.seats && SeatRow(s) !in gone
      ensures UserRow(s.user) !in gone && ChannelRow(s.channel) !in gone && MemberRow(Key(t.seats[s], s.user)) !in gone
    {
      ParentsStay(t, seeds, SeatRow(s));
    }
  }

  lemma PruneKeepsMembers(t: Tables, seeds: set<Row>)
    requires MemberKeys(t) && ChannelKeys(t) && IdentityKeys(t)
    ensures MemberKeys(Prune(t, Cascaded(t, seeds)))
    ensures ChannelKeys(Prune(t, Cascaded(t, seeds)))
    ensures IdentityKeys(Prune(t, Cascaded(t, seeds)))
  {
    hide Cascaded;
    var gone := Cascaded(t, seeds);
    forall k | k in t.members && MemberRow(k) !in gone ensures WorkspaceRow(k.ws) !in gone && UserRow(k.user) !in gone {
      ParentsStay(t, seeds, MemberRow(k));
    }
    forall c | c in t.channels && ChannelRow(c) !in gone ensures WorkspaceRow(t.channels[c].ws) !in gone {
      ParentsStay(t, seeds, ChannelRow(c));
    }
    forall i | i in t.identities && IdentityRow(i) !in gone ensures UserRow(t.identities[i].user) !in gone {
      ParentsStay(t, seeds, IdentityRow(i));
    }
  }

  lemma PruneKeepsMessage(t: Tables, seeds: set<Row>, m: Id)
    requires MessageKeys(t) && Unrestricted(t, Cascaded(t, seeds))
    requires m in t.messages && MessageRow(m) !in Cascaded(t, seeds)
    ensures UserRow(t.messages[m].author) !in Cascaded(t, seeds)
    ensures ChannelRow(t.messages[m].channel) !in Cascaded(t, seeds)
    ensures t.messages[m].root.Some? ==>
              t.messages[m].root.value in t.messages && t.messages[m].root.value !in MessagesIn(Cascaded(t, seeds))
  {
    hide Cascaded, CountsOk, Forest;
    ParentsStay(t, seeds, MessageRow(m));
    assert ChannelRow(t.messages[m].channel) in Parents(t, MessageRow(m));
    if t.messages[m].root.Some? {
      assert MessageRow(t.messages[m].root.value) in Parents(t, MessageRow(m));
    }
  }

  lemma PruneKeepsMessages(t: Tables, seeds: set<Row>)
    requires MessageKeys(t) && DirectKeys(t) && Unrestricted(t, Cascaded(t, seeds))
    ensures MessageKeys(Prune(t, Cascaded(t, seeds)))
    ensures DirectKeys(Prune(t, Cascaded(t, seeds)))
  {
    hide Cascaded, CountsOk, Forest, MessagesIn;
    var gone := Cascaded(t, seeds);
    WithoutKeepsCounts(t.messages, MessagesIn(gone));
    ForestWithout(t.messages, MessagesIn(gone));
    forall m | m in t.messages && m !in MessagesIn(gone)
      ensures UserRow(t.messages[m].author) !in gone && ChannelRow(t.messages[m].channel) !in gone
      ensures t.messages[m].root.Some? ==>
                t.messages[m].root.value in t.messages && t.messages[m].root.value !in MessagesIn(gone)
    {
      PruneContents(t, gone, MessageRow(m));
      PruneKeepsMessage(t, seeds, m);
    }
  }

  /** A delete cascade that no RESTRICT key forbids keeps every key and every count. */
  lemma PruneKeepsIntact(t: Tables, seeds: set<Row>)
    requires Intact(t) && Unrestricted(t, Cascaded(t, seeds))
    ensures Intact(Prune(t, Cascaded(t, seeds)))
  {
    PruneKeepsSeats(t, seeds);
    PruneKeepsMembers(t, seeds);
    PruneKeepsMessages(t, seeds);
  }
}
