/** What each delete of the services leaves, table by table: which rows, and that they are as they were. */
module Survivors {
  import opened Base
  import opened Reachability
  import opened Entities
  import opened Schema
  import opened Closures

  // ---------------------------------------------------------------- in plain tables

  /** Of the messages, those in first are gone, and whatever replied to one that is gone. The others are
      as they were, but for the count, which is the number of replies that are left. */
  ghost predicate ThreadsCut(msgs: map<Id, Message>, msgs': map<Id, Message>, first: set<Id>) {
    && (forall m | m in msgs ::
          m !in msgs' <==> m in first || (msgs[m].root.Some? && msgs[m].root.value !in msgs'))
    && (forall m | m in msgs' ::
          && m in msgs
          && msgs'[m] == msgs[m].(count := msgs'[m].count)
          && msgs'[m].count == |Replies(msgs', m)|)
  }

  /** The membership k is gone, and the user's places in channels of that workspace. */
  ghost predicate MemberGone(t: Tables, t': Tables, k: Key) {
    && t'.members == t.members - {k}
    && t'.seats == (map s | s in t.seats && !(s.user == k.user && t.seats[s] == k.ws) :: t.seats[s])
    && t' == t.(members := t'.members, seats := t'.seats)
  }

  /** The message m is gone, and the threads below it. */
  ghost predicate MessageGone(t: Tables, t': Tables, m: Id) {
    ThreadsCut(t.messages, t'.messages, {m}) && t' == t.(messages := t'.messages)
  }

  /** The channel c is gone, with its members, its messages and the threads below them. */
  ghost predicate ChannelGone(t: Tables, t': Tables, c: Id) {
    && t'.channels == t.channels - {c}
    && t'.seats == (map s | s in t.seats && s.channel != c :: t.seats[s])
    && ThreadsCut(t.messages, t'.messages, set m | m in t.messages && t.messages[m].channel == c)
    && t' == t.(channels := t'.channels, seats := t'.seats, messages := t'.messages)
  }

  ghost function MessagesOfWorkspaces(t: Tables, ws: set<Id>): set<Id> {
    set m | m in t.messages && t.messages[m].channel in t.channels && t.channels[t.messages[m].channel].ws in ws
  }

  /** The workspaces in ws are gone, with all that is in them. */
  ghost predicate WorkspacesGone(t: Tables, t': Tables, ws: set<Id>) {
    && t'.workspaces == t.workspaces - ws
    && t'.members == (map k | k in t.members && k.ws !in ws :: t.members[k])
    && t'.channels == (map c | c in t.channels && t.channels[c].ws !in ws :: t.channels[c])
    && t'.seats == (map s | s in t.seats && t.seats[s] !in ws :: t.seats[s])
    && ThreadsCut(t.messages, t'.messages, MessagesOfWorkspaces(t, ws))
    && t' == t.(workspaces := t'.workspaces, members := t'.members, channels := t'.channels, seats := t'.seats,
                messages := t'.messages)
  }

  /** The user u is gone, with the identity, all memberships and places in channels, and the workspaces
      u was the owner of. */
  ghost predicate AccountGone(t: Tables, t': Tables, u: Id) {
    var owned := set w | w in t.workspaces && Key(w, u) in t.members && t.members[Key(w, u)] == Owner;
    && t'.users == t.users - {u}
    && t'.identities == (map i | i in t.identities && t.identities[i].user != u :: t.identities[i])
    && t'.workspaces == t.workspaces - owned
    && t'.members == (map k | k in t.members && k.user != u && k.ws !in owned :: t.members[k])
    && t'.channels == (map c | c in t.channels && t.channels[c].ws !in owned :: t.channels[c])
    && t'.seats == (map s | s in t.seats && s.user != u && t.seats[s] !in owned :: t.seats[s])
    && ThreadsCut(t.messages, t'.messages, MessagesOfWorkspaces(t, owned))
    && t'.directs == t.directs
  }

  // ---------------------------------------------------------------- messages

  /** Whatever a closure contains beyond its seeds has a parent in it. */
  lemma ReachedFrom<K(!new)>(edges: set<(K, K)>, seeds: set<K>, x: K)
    requires x in Reach(edges, seeds) && x !in seeds
    ensures exists e :: e in edges && e.1 == x && e.0 in Reach(edges, seeds)
  {
    var all := Reach(edges, seeds);
    var from := set y | y in all && (y in seeds || exists e :: e in edges && e.1 == y && e.0 in all);
    forall e | e in edges && e.0 in from ensures e.1 in from {
      assert e.0 in all;
    }
    ReachLeast(edges, seeds, from);
  }

  lemma TakenWithRoot(msgs: map<Id, Message>, first: set<Id>, m: Id)
    requires m in msgs
    ensures var gone := Reach(ThreadEdges(msgs), first);
            m in gone <==> m in first || (msgs[m].root.Some? && msgs[m].root.value in gone)
  {
    var gone := Reach(ThreadEdges(msgs), first);
    if msgs[m].root.Some? {
      ThreadEdgesContents(msgs, m);
      assert (msgs[m].root.value, m).0 in gone ==> m in gone;
    }
    if m in gone && m !in first { ReachedFrom(ThreadEdges(msgs), first, m); }
  }

  lemma CountLeft(msgs: map<Id, Message>, gone: set<Id>, m: Id)
    requires CountsOk(msgs) && m in Without(msgs, gone)
    ensures var left := Without(msgs, gone);
            && m in msgs
            && left[m] == msgs[m].(count := left[m].count)
            && left[m].count == |Replies(left, m)|
  {
    hide Replies;
    WithoutKeepsCounts(msgs, gone);
  }

  lemma WithoutCuts(msgs: map<Id, Message>, first: set<Id>)
    requires CountsOk(msgs) && forall m | m in msgs && msgs[m].root.Some? :: msgs[m].root.value in msgs
    ensures ThreadsCut(msgs, Without(msgs, Reach(ThreadEdges(msgs), first)), first)
  {
    hide CountsOk, Without, Reach, ThreadEdges, Replies;
    var gone := Reach(ThreadEdges(msgs), first);
    var left := Without(msgs, gone);
    forall m | m in msgs
      ensures m !in left <==> m in first || (msgs[m].root.Some? && msgs[m].root.value !in left)
    {
      TakenWithRoot(msgs, first, m);
      WithoutHas(msgs, gone, m);
      if msgs[m].root.Some? { WithoutHas(msgs, gone, msgs[m].root.value); }
    }
    forall m | m in left
      ensures m in msgs && left[m] == msgs[m].(count := left[m].count)
      ensures left[m].count == |Replies(left, m)|
    {
      CountLeft(msgs, gone, m);
    }
  }

  lemma WithoutHas(msgs: map<Id, Message>, gone: set<Id>, m: Id)
    ensures m in Without(msgs, gone) <==> m in msgs && m !in gone
  {
  }

  lemma CutUnder(t: Tables, channels: set<Id>, gone: set<Row>, first: set<Id>)
    requires MessageKeys(t) && first == PostedIn(t.messages, channels)
    requires forall m :: MessageRow(m) in gone <==> m in ThreadsUnder(t, channels)
    ensures ThreadsCut(t.messages, Prune(t, gone).messages, first)
  {
    assert MessagesIn(gone) == ThreadsUnder(t, channels) by {
      forall m ensures m in MessagesIn(gone) <==> m in ThreadsUnder(t, channels) {
        assert MessageRow(m) in gone <==> m in ThreadsUnder(t, channels);
      }
    }
    WithoutCuts(t.messages, first);
  }

  // ---------------------------------------------------------------- table by table

  lemma UsersLeft(t: Tables, gone: set<Row>, left: map<Id, User>)
    requires forall x :: x in left <==> x in t.users && UserRow(x) !in gone
    requires forall x | x in left :: left[x] == t.users[x]
    ensures Prune(t, gone).users == left
  {
  }

  lemma IdentitiesLeft(t: Tables, gone: set<Row>, left: map<Id, Identity>)
    requires forall x :: x in left <==> x in t.identities && IdentityRow(x) !in gone
    requires forall x | x in left :: left[x] == t.identities[x]
    ensures Prune(t, gone).identities == left
  {
  }

  lemma WorkspacesLeft(t: Tables, gone: set<Row>, left: map<Id, WorkspaceInfo>)
    requires forall x :: x in left <==> x in t.workspaces && WorkspaceRow(x) !in gone
    requires forall x | x in left :: left[x] == t.workspaces[x]
    ensures Prune(t, gone).workspaces == left
  {
  }

  lemma MembersLeft(t: Tables, gone: set<Row>, left: map<Key, Role>)
    requires forall x :: x in left <==> x in t.members && MemberRow(x) !in gone
    requires forall x | x in left :: left[x] == t.members[x]
    ensures Prune(t, gone).members == left
  {
  }

  lemma ChannelsLeft(t: Tables, gone: set<Row>, left: map<Id, Channel>)
    requires forall x :: x in left <==> x in t.channels && ChannelRow(x) !in gone
    requires forall x | x in left :: left[x] == t.channels[x]
    ensures Prune(t, gone).channels == left
  {
  }

  lemma SeatsLeft(t: Tables, gone: set<Row>, left: map<Seat, Id>)
    requires forall x :: x in left <==> x in t.seats && SeatRow(x) !in gone
    requires forall x | x in left :: left[x] == t.seats[x]
    ensures Prune(t, gone).seats == left
  {
  }

  lemma DirectsLeft(t: Tables, gone: set<Row>)
    ensures Prune(t, gone).directs == t.directs
  {
  }

  lemma MessagesLeft(t: Tables, gone: set<Row>)
    requires forall m :: MessageRow(m) !in gone
    ensures Prune(t, gone).messages == t.messages
  {
    assert MessagesIn(gone) == {};
    WithoutNothing(t.messages);
  }

  // ---------------------------------------------------------------- the deletes

  lemma MemberRowsLeave(t: Tables, k: Key)
    ensures MemberGone(t, Prune(t, MemberRows(t, k)), k)
  {
    hide Prune, MemberRows;
    var gone := MemberRows(t, k);
    MemberRowsContents(t, k);
    MemberRowsMore(t, k);
    UsersLeft(t, gone, t.users);
    IdentitiesLeft(t, gone, t.identities);
    WorkspacesLeft(t, gone, t.workspaces);
    MembersLeft(t, gone, t.members - {k});
    ChannelsLeft(t, gone, t.channels);
    SeatsLeft(t, gone, map s | s in t.seats && !(s.user == k.user && t.seats[s] == k.ws) :: t.seats[s]);
    MessagesLeft(t, gone);
    DirectsLeft(t, gone);
  }

  lemma MemberRowsMore(t: Tables, k: Key)
    ensures forall w :: WorkspaceRow(w) !in MemberRows(t, k)
    ensures forall c :: ChannelRow(c) !in MemberRows(t, k)
    ensures forall s :: SeatRow(s) in MemberRows(t, k) <==> s in t.seats && t.seats[s] == k.ws && s.user == k.user
  {
  }

  lemma MessageRowsLeave(t: Tables, m: Id)
    requires MessageKeys(t)
    ensures MessageGone(t, t.(messages := Without(t.messages, Reach(ThreadEdges(t.messages), {m}))), m)
  {
    WithoutCuts(t.messages, {m});
  }

  lemma ChannelRowsLeave(t: Tables, c: Id)
    requires MessageKeys(t)
    ensures ChannelGone(t, Prune(t, ChannelRows(t, {c})), c)
  {
    hide Prune, ChannelRows, MessageKeys, ThreadsUnder, ThreadsCut, PostedIn;
    var gone := ChannelRows(t, {c});
    ChannelRowsContents(t, {c});
    ChannelRowsMore(t, c);
    UsersLeft(t, gone, t.users);
    IdentitiesLeft(t, gone, t.identities);
    WorkspacesLeft(t, gone, t.workspaces);
    MembersLeft(t, gone, t.members);
    ChannelsLeft(t, gone, t.channels - {c});
    SeatsLeft(t, gone, map s | s in t.seats && s.channel != c :: t.seats[s]);
    DirectsLeft(t, gone);
    PostedInOne(t, c);
    CutUnder(t, {c}, gone, set m | m in t.messages && t.messages[m].channel == c);
  }

  lemma PostedInOne(t: Tables, c: Id)
    ensures PostedIn(t.messages, {c}) == set m | m in t.messages && t.messages[m].channel == c
  {
  }

  lemma ChannelRowsMore(t: Tables, c: Id)
    ensures forall u :: UserRow(u) !in ChannelRows(t, {c})
    ensures forall i :: IdentityRow(i) !in ChannelRows(t, {c})
    ensures forall w :: WorkspaceRow(w) !in ChannelRows(t, {c})
    ensures forall k :: MemberRow(k) !in ChannelRows(t, {c})
    ensures forall s :: SeatRow(s) in ChannelRows(t, {c}) <==> s in t.seats && s.channel == c
    ensures forall m :: MessageRow(m) in ChannelRows(t, {c}) <==> m in ThreadsUnder(t, {c})
  {
    hide ThreadsUnder;
  }

  lemma WorkspaceRowsMore(t: Tables, ws: set<Id>)
    requires SeatKeys(t)
    ensures forall c | c in t.channels :: ChannelRow(c) in WorkspaceRows(t, ws) <==> t.channels[c].ws in ws
    ensures forall s | s in t.seats :: SeatRow(s) in WorkspaceRows(t, ws) <==> t.seats[s] in ws
  {
    hide ThreadsUnder;
  }

  lemma PostedInWorkspaces(t: Tables, ws: set<Id>)
    ensures PostedIn(t.messages, ChannelsOf(t, ws)) == MessagesOfWorkspaces(t, ws)
  {
  }

  lemma WorkspaceRowsLeave(t: Tables, ws: set<Id>)
    requires MessageKeys(t) && SeatKeys(t)
    ensures WorkspacesGone(t, Prune(t, WorkspaceRows(t, ws)), ws)
  {
    hide Prune, WorkspaceRows, MessageKeys, SeatKeys, ThreadsUnder, ThreadsCut, ChannelsOf;
    hide MessagesOfWorkspaces, PostedIn;
    var gone := WorkspaceRows(t, ws);
    WorkspaceRowsContents(t, ws);
    WorkspaceRowsMore(t, ws);
    UsersLeft(t, gone, t.users);
    IdentitiesLeft(t, gone, t.identities);
    WorkspacesLeft(t, gone, t.workspaces - ws);
    MembersLeft(t, gone, map k | k in t.members && k.ws !in ws :: t.members[k]);
    ChannelsLeft(t, gone, map c | c in t.channels && t.channels[c].ws !in ws :: t.channels[c]);
    SeatsLeft(t, gone, map s | s in t.seats && t.seats[s] !in ws :: t.seats[s]);
    DirectsLeft(t, gone);
    PostedInWorkspaces(t, ws);
    CutUnder(t, ChannelsOf(t, ws), gone, MessagesOfWorkspaces(t, ws));
  }

  lemma UserRowsMore(t: Tables, u: Id)
    ensures forall c :: ChannelRow(c) !in UserRows(t, u)
    ensures forall s :: SeatRow(s) in UserRows(t, u) <==> s in t.seats && s.user == u
  {
  }

  lemma AccountRowsAre(t: Tables, u: Id, owned: set<Id>, gone: set<Row>)
    requires SeatKeys(t) && gone == WorkspaceRows(t, owned) + UserRows(t, u)
    ensures forall x :: UserRow(x) in gone <==> x == u
    ensures forall i | i in t.identities :: IdentityRow(i) in gone <==> t.identities[i].user == u
    ensures forall w :: WorkspaceRow(w) in gone <==> w in owned
    ensures forall k | k in t.members :: MemberRow(k) in gone <==> k.user == u || k.ws in owned
    ensures forall c | c in t.channels :: ChannelRow(c) in gone <==> t.channels[c].ws in owned
    ensures forall s | s in t.seats :: SeatRow(s) in gone <==> s.user == u || t.seats[s] in owned
    ensures forall m :: MessageRow(m) in gone <==> m in ThreadsUnder(t, ChannelsOf(t, owned))
  {
    hide WorkspaceRows, UserRows, SeatKeys, ThreadsUnder, ChannelsOf;
    WorkspaceRowsContents(t, owned);
    WorkspaceRowsMore(t, owned);
    UserRowsContents(t, u);
    UserRowsMore(t, u);
  }

  lemma AccountRowsLeave(t: Tables, u: Id, owned: set<Id>)
    requires MessageKeys(t) && SeatKeys(t)
    requires owned == set w | w in t.workspaces && Key(w, u) in t.members && t.members[Key(w, u)] == Owner
    ensures AccountGone(t, Prune(t, WorkspaceRows(t, owned) + UserRows(t, u)), u)
  {
    hide Prune, WorkspaceRows, UserRows, MessageKeys, SeatKeys, ThreadsUnder, ThreadsCut, ChannelsOf;
    hide MessagesOfWorkspaces, PostedIn;
    var gone := WorkspaceRows(t, owned) + UserRows(t, u);
    AccountRowsAre(t, u, owned, gone);
    UsersLeft(t, gone, t.users - {u});
    IdentitiesLeft(t, gone, map i | i in t.identities && t.identities[i].user != u :: t.identities[i]);
    WorkspacesLeft(t, gone, t.workspaces - owned);
    MembersLeft(t, gone, map k | k in t.members && k.user != u && k.ws !in owned :: t.members[k]);
    ChannelsLeft(t, gone, map c | c in t.channels && t.channels[c].ws !in owned :: t.channels[c]);
    SeatsLeft(t, gone, map s | s in t.seats && s.user != u && t.seats[s] !in owned :: t.seats[s]);
    DirectsLeft(t, gone);
    PostedInWorkspaces(t, owned);
    CutUnder(t, ChannelsOf(t, owned), gone, MessagesOfWorkspaces(t, owned));
  }
}
