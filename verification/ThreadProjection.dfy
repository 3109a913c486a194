/** The sequential calls of the concurrent thread model are the services' effects on the full schema. */
module ThreadProjection {
  import opened Base
  import opened Reachability
  import opened Entities
  import opened Schema
  import opened Closures
  import opened Statements
  import opened Projection
  import T = ThreadModel

  ghost predicate HasOwner(members: map<Key, Role>, w: Id) {
    exists u :: Key(w, u) in members && members[Key(w, u)] == Owner
  }

  ghost function OwnerOf(members: map<Key, Role>, w: Id): Id
    requires HasOwner(members, w)
  {
    var u :| Key(w, u) in members && members[Key(w, u)] == Owner;
    u
  }

  ghost function Owners(t: Tables): map<Id, Id> {
    map w | w in t.workspaces && HasOwner(t.members, w) :: OwnerOf(t.members, w)
  }

  function ChannelWorkspaces(t: Tables): map<Id, Id> {
    map c | c in t.channels :: t.channels[c].ws
  }

  ghost function Threads(t: Tables): T.Db {
    T.Db(t.users.Keys, Owners(t), ChannelWorkspaces(t), t.messages)
  }

  lemma OwnerIs(t: Tables, w: Id, u: Id)
    requires MemberKeys(t) && Key(w, u) in t.members && t.members[Key(w, u)] == Owner
    ensures HasOwner(t.members, w) && OwnerOf(t.members, w) == u
  {
    assert HasOwner(t.members, w);
    var x := OwnerOf(t.members, w);
    assert Key(w, x) == Key(w, u);
  }

  lemma OwnersContents(t: Tables, u: Id)
    requires MemberKeys(t) && EveryWorkspaceOwned(t)
    ensures T.OwnedBy(Threads(t), u) == OwnedWorkspaces(t, u)
  {
    forall w ensures w in T.OwnedBy(Threads(t), u) <==> w in OwnedWorkspaces(t, u) {
      if w in t.workspaces {
        assert Schema.Owned(t, w);
        assert HasOwner(t.members, w);
        var x := OwnerOf(t.members, w);
        assert Key(w, u) in t.members && t.members[Key(w, u)] == Owner ==> Key(w, u) == Key(w, x);
        if x == u { assert Key(w, u).ws == w; }
      }
    }
  }

  // ---------------------------------------------------------------- deletes

  /** A delete that takes owner rows only with their workspaces leaves every other owner. */
  lemma PruneOwners(t: Tables, gone: set<Row>, ws: set<Id>)
    requires MemberKeys(t) && MemberKeys(Prune(t, gone)) && EveryWorkspaceOwned(t)
    requires forall w | w in t.workspaces :: WorkspaceRow(w) in gone <==> w in ws
    requires forall k | k in t.members && t.members[k] == Owner && MemberRow(k) in gone :: k.ws in ws
    ensures Owners(Prune(t, gone)) == Owners(t) - ws
  {
    hide MemberKeys, Without, OwnerOf;
    var t' := Prune(t, gone);
    assert t'.workspaces.Keys == t.workspaces.Keys - ws;
    forall w | w in t'.workspaces
      ensures HasOwner(t'.members, w) && HasOwner(t.members, w) && OwnerOf(t'.members, w) == OwnerOf(t.members, w)
    {
      assert Schema.Owned(t, w);
      var u :| Key(w, u) in t.members && t.members[Key(w, u)] == Owner;
      OwnerIs(t, w, u);
      assert Key(w, u) in t'.members && t'.members[Key(w, u)] == Owner;
      OwnerIs(t', w, u);
    }
  }

  lemma PruneThreads(t: Tables, gone: set<Row>, us: set<Id>, ws: set<Id>, cs: set<Id>, ms: set<Id>)
    requires MemberKeys(t) && MemberKeys(Prune(t, gone)) && EveryWorkspaceOwned(t)
    requires forall u | u in t.users :: UserRow(u) in gone <==> u in us
    requires forall w | w in t.workspaces :: WorkspaceRow(w) in gone <==> w in ws
    requires forall k | k in t.members && t.members[k] == Owner && MemberRow(k) in gone :: k.ws in ws
    requires forall c | c in t.channels :: ChannelRow(c) in gone <==> c in cs
    requires MessagesIn(gone) == ms
    ensures Threads(Prune(t, gone))
            == T.Db(t.users.Keys - us, Owners(t) - ws, ChannelWorkspaces(t) - cs, Without(t.messages, ms))
  {
    PruneOwners(t, gone, ws);
    hide MemberKeys, EveryWorkspaceOwned, Owners;
    var t' := Prune(t, gone);
    assert t'.users.Keys == t.users.Keys - us;
    assert ChannelWorkspaces(t') == ChannelWorkspaces(t) - cs;
  }

  /** Deleting a message with its cascade is Drop. */
  lemma DeleteMessageProjects(t: Tables, m: Id)
    requires MemberKeys(t) && MemberKeys(Prune(t, Cascaded(t, {MessageRow(m)}))) && EveryWorkspaceOwned(t)
    requires m in t.messages
    ensures Threads(Prune(t, Cascaded(t, {MessageRow(m)}))) == T.Effect(T.Drop(m), Threads(t))
  {
    hide Prune, MemberKeys, EveryWorkspaceOwned, Cascaded, Reach, Owners;
    var below := Reach(ThreadEdges(t.messages), {m});
    MessageCascade(t, m);
    forall x ensures x in MessagesIn(Cascaded(t, {MessageRow(m)})) <==> x in below {
      assert MessageRow(x) in Cascaded(t, {MessageRow(m)}) <==> x in below;
    }
    PruneThreads(t, Cascaded(t, {MessageRow(m)}), {}, {}, {}, below);
    assert Owners(t) - {} == Owners(t) && ChannelWorkspaces(t) - {} == ChannelWorkspaces(t);
  }

  /** Deleting a channel with its cascade is DropChannel. */
  lemma DeleteChannelProjects(t: Tables, c: Id)
    requires MemberKeys(t) && MemberKeys(Prune(t, ChannelRows(t, {c}))) && EveryWorkspaceOwned(t)
    requires c in t.channels
    ensures Threads(Prune(t, ChannelRows(t, {c}))) == T.Effect(T.DropChannel(c), Threads(t))
  {
    hide Prune, MemberKeys, EveryWorkspaceOwned, ChannelRows, ThreadsUnder;
    hide Owners, Without, MessagesIn, T.WithoutChannels;
    var gone := ChannelRows(t, {c});
    ChannelRowsContents(t, {c});
    OtherRows(t, {c});
    PruneThreads(t, gone, {}, {}, {c}, ThreadsUnder(t, {c}));
    assert Owners(t) - {} == Owners(t);
    ChannelsEffect(t, {c});
  }

  lemma OtherRows(t: Tables, cs: set<Id>)
    ensures forall u :: UserRow(u) !in ChannelRows(t, cs)
    ensures forall w :: WorkspaceRow(w) !in ChannelRows(t, cs)
    ensures forall k :: MemberRow(k) !in ChannelRows(t, cs)
  {
  }

  lemma ChannelsEffect(t: Tables, cs: set<Id>)
    ensures T.WithoutChannels(Threads(t), cs)
            == T.Db(t.users.Keys, Owners(t), ChannelWorkspaces(t) - cs, Without(t.messages, ThreadsUnder(t, cs)))
  {
    hide Owners;
  }

  lemma ChannelsOfSame(t: Tables, ws: set<Id>)
    ensures T.ChannelsOf(Threads(t), ws) == ChannelsOf(t, ws)
  {
    hide Owners;
  }

  lemma WorkspacesEffect(t: Tables, ws: set<Id>)
    ensures T.WithoutWorkspaces(Threads(t), ws)
            == T.Db(t.users.Keys, Owners(t) - ws, ChannelWorkspaces(t) - ChannelsOf(t, ws),
                    Without(t.messages, ThreadsUnder(t, ChannelsOf(t, ws))))
  {
    hide Owners, Without, ThreadsUnder, T.WithoutChannels;
    ChannelsOfSame(t, ws);
    ChannelsEffect(t, ChannelsOf(t, ws));
  }

  lemma WorkspaceRowsMore(t: Tables, ws: set<Id>)
    ensures forall c | c in t.channels :: ChannelRow(c) in WorkspaceRows(t, ws) <==> c in ChannelsOf(t, ws)
    ensures MessagesIn(WorkspaceRows(t, ws)) == ThreadsUnder(t, ChannelsOf(t, ws))
  {
    forall m ensures m in MessagesIn(WorkspaceRows(t, ws)) <==> m in ThreadsUnder(t, ChannelsOf(t, ws)) {
      assert MessageRow(m) in WorkspaceRows(t, ws) <==> m in ThreadsUnder(t, ChannelsOf(t, ws));
    }
  }

  /** Deleting a workspace with its cascade is DropWorkspace by its owner. */
  lemma DeleteWorkspaceThreads(t: Tables, actor: Id, w: Id)
    requires MemberKeys(t) && MemberKeys(Prune(t, WorkspaceRows(t, {w}))) && EveryWorkspaceOwned(t)
    requires w in t.workspaces && Key(w, actor) in t.members && t.members[Key(w, actor)] == Owner
    ensures Threads(Prune(t, WorkspaceRows(t, {w}))) == T.Effect(T.DropWorkspace(actor, w), Threads(t))
  {
    hide Prune, MemberKeys, EveryWorkspaceOwned, WorkspaceRows, ThreadsUnder, ChannelsOf, T.WithoutWorkspaces, Without;
    hide OwnerOf, MessagesIn, HasOwner;
    OwnerIs(t, w, actor);
    WorkspaceRowsContents(t, {w});
    WorkspaceRowsMore(t, {w});
    PruneThreads(t, WorkspaceRows(t, {w}), {}, {w}, ChannelsOf(t, {w}), ThreadsUnder(t, ChannelsOf(t, {w})));
    WorkspacesEffect(t, {w});
  }

  lemma MemberRowsMore(t: Tables, k: Key)
    ensures forall c :: ChannelRow(c) !in MemberRows(t, k)
    ensures MessagesIn(MemberRows(t, k)) == {}
  {
  }

  /** Removing a plain member changes nothing here. */
  lemma RemoveMemberThreads(t: Tables, k: Key)
    requires MemberKeys(t) && MemberKeys(Prune(t, MemberRows(t, k))) && EveryWorkspaceOwned(t)
    requires k in t.members && t.members[k] != Owner
    ensures Threads(Prune(t, MemberRows(t, k))) == Threads(t)
  {
    hide Prune, MemberKeys, EveryWorkspaceOwned, MemberRows, Owners, MessagesIn, Without, ChannelWorkspaces;
    MemberRowsContents(t, k);
    MemberRowsMore(t, k);
    PruneThreads(t, MemberRows(t, k), {}, {}, {}, {});
    WithoutNothing(t.messages);
    assert t.users.Keys - {} == t.users.Keys && Owners(t) - {} == Owners(t);
    assert ChannelWorkspaces(t) - {} == ChannelWorkspaces(t);
  }

  lemma AccountThreadRows(t: Tables, u: Id)
    ensures var gone := WorkspaceRows(t, OwnedWorkspaces(t, u)) + UserRows(t, u);
            && (forall c | c in t.channels :: ChannelRow(c) in gone <==> c in ChannelsOf(t, OwnedWorkspaces(t, u)))
            && MessagesIn(gone) == ThreadsUnder(t, ChannelsOf(t, OwnedWorkspaces(t, u)))
  {
    var owned := OwnedWorkspaces(t, u);
    WorkspaceRowsMore(t, owned);
    UserRowsContents(t, u);
    hide WorkspaceRows, ThreadsUnder, ChannelsOf, OwnedWorkspaces;
    var gone := WorkspaceRows(t, owned) + UserRows(t, u);
    forall m ensures m in MessagesIn(gone) <==> m in MessagesIn(WorkspaceRows(t, owned)) {
      assert m in MessagesIn(gone) <==> MessageRow(m) in gone;
      assert m in MessagesIn(WorkspaceRows(t, owned)) <==> MessageRow(m) in WorkspaceRows(t, owned);
    }
  }

  lemma OwnerRowsOfAccount(t: Tables, u: Id)
    requires MemberKeys(t)
    ensures var owned := OwnedWorkspaces(t, u);
            var gone := WorkspaceRows(t, owned) + UserRows(t, u);
            && (forall x | x in t.users :: UserRow(x) in gone <==> x == u)
            && (forall w | w in t.workspaces :: WorkspaceRow(w) in gone <==> w in owned)
            && (forall k | k in t.members && t.members[k] == Owner && MemberRow(k) in gone :: k.ws in owned)
  {
    WorkspaceRowsContents(t, OwnedWorkspaces(t, u));
    UserRowsContents(t, u);
    hide WorkspaceRows, UserRows;
  }

  /** Deleting the owned workspaces and then the user is DropUser. */
  lemma DeleteUserThreads(t: Tables, u: Id)
    requires MemberKeys(t) && EveryWorkspaceOwned(t)
    requires MemberKeys(Prune(t, WorkspaceRows(t, OwnedWorkspaces(t, u)) + UserRows(t, u)))
    requires T.Verdict(T.DropUser(u), Threads(t)) == T.Done
    ensures Threads(Prune(t, WorkspaceRows(t, OwnedWorkspaces(t, u)) + UserRows(t, u)))
            == T.Effect(T.DropUser(u), Threads(t))
  {
    hide Prune, MemberKeys, EveryWorkspaceOwned, WorkspaceRows, UserRows, ThreadsUnder, ChannelsOf, OwnedWorkspaces;
    hide T.WithoutWorkspaces, T.OwnedBy, T.WrittenBy, Owners, Without, MessagesIn;
    var owned := OwnedWorkspaces(t, u);
    OwnersContents(t, u);
    AccountThreadRows(t, u);
    OwnerRowsOfAccount(t, u);
    WorkspacesEffect(t, owned);
    PruneThreads(t, WorkspaceRows(t, owned) + UserRows(t, u), {u}, owned, ChannelsOf(t, owned),
                 ThreadsUnder(t, ChannelsOf(t, owned)));
  }

  /** No channel message stands in the way of the deletion exactly when every message the user wrote
      goes with the owned workspaces. */
  lemma DropUserVerdictIff(t: Tables, u: Id)
    requires MemberKeys(t) && EveryWorkspaceOwned(t)
    ensures T.Verdict(T.DropUser(u), Threads(t)) == T.Done
            <==> u in t.users
                 && forall m | m in t.messages && t.messages[m].author == u ::
                      m in ThreadsUnder(t, ChannelsOf(t, OwnedWorkspaces(t, u)))
    ensures u in t.users && T.Verdict(T.DropUser(u), Threads(t)) != T.Done ==>
              T.Verdict(T.DropUser(u), Threads(t)) == T.Restricted
  {
    var owned := OwnedWorkspaces(t, u);
    OwnersContents(t, u);
    WorkspacesEffect(t, owned);
    hide MemberKeys, EveryWorkspaceOwned, ThreadsUnder, ChannelsOf, OwnedWorkspaces, T.WithoutWorkspaces, Owners;
    var under := ThreadsUnder(t, ChannelsOf(t, owned));
    var left := Without(t.messages, under);
    forall m | m in t.messages && t.messages[m].author == u
      ensures m in under <==> m !in T.WrittenBy(left, u)
    {
    }
    assert T.WrittenBy(left, u) != {} ==> exists m :: m in T.WrittenBy(left, u);
  }

  // ---------------------------------------------------------------- inserts

  /** The post is accepted exactly when the sequential call accepts it, and leaves what that leaves;
      otherwise it fails at the key the sequential call names. */
  lemma PostProjects(t: Tables, id: Id, m: Message)
    requires m.body != "" && id !in t.messages && m.count == 0 && m.updatedAt == m.createdAt
    ensures var op := T.Post(id, m.author, m.channel, m.root, m.body, m.createdAt);
            && (InsertMessage(t, id, m).Success? <==> T.Verdict(op, Threads(t)) == T.Done)
            && (InsertMessage(t, id, m) == Failure(ForeignKey("channel_messages_author_id_fkey"))
                <==> T.Verdict(op, Threads(t)) == T.NoUser)
            && (InsertMessage(t, id, m) == Failure(ForeignKey("channel_messages_channel_id_fkey"))
                <==> T.Verdict(op, Threads(t)) == T.NoChannel)
            && (InsertMessage(t, id, m) == Failure(ForeignKey("channel_messages_thread_root_id_fkey"))
                <==> T.Verdict(op, Threads(t)) == T.NoRoot)
            && (InsertMessage(t, id, m).Success? ==>
                  && (m.root.Some? ==> m.root.value in t.messages)
                  && InsertMessage(t, id, m).value == t.(messages := Posted(t.messages, id, m))
                  && Threads(InsertMessage(t, id, m).value) == T.Effect(op, Threads(t)))
  {
    if InsertMessage(t, id, m).Success? { SameOwners(t, InsertMessage(t, id, m).value); }
    hide Owners;
  }

  lemma SameOwners(t: Tables, t': Tables)
    requires t'.workspaces == t.workspaces && t'.members == t.members
    ensures Owners(t') == Owners(t)
  {
  }

  /** Editing a body is Edit. */
  lemma EditProjects(t: Tables, id: Id, body: string, now: nat)
    requires id in t.messages
    ensures Threads(UpdateMessage(t, id, body, now)) == T.Effect(T.Edit(id, body, now), Threads(t))
  {
    SameOwners(t, UpdateMessage(t, id, body, now));
    hide Owners;
  }

  lemma OwnedIsInOwners(t: Tables, w: Id)
    requires EveryWorkspaceOwned(t) && w in t.workspaces
    ensures w in Owners(t)
  {
    assert Schema.Owned(t, w) && HasOwner(t.members, w);
  }

  /** Creating a channel is MakeChannel. */
  lemma ChannelProjects(t: Tables, id: Id, c: Channel)
    requires InsertChannel(t, id, c).Success? && EveryWorkspaceOwned(t)
    ensures Threads(InsertChannel(t, id, c).value) == T.Effect(T.MakeChannel(c.ws, id), Threads(t))
  {
    hide EveryWorkspaceOwned, Owners;
    OwnedIsInOwners(t, c.ws);
    SameOwners(t, InsertChannel(t, id, c).value);
    assert ChannelWorkspaces(t.(channels := t.channels[id := c])) == ChannelWorkspaces(t)[id := c.ws];
  }

  /** Who may delete a workspace. */
  lemma DropWorkspaceVerdict(t: Tables, actor: Id, w: Id)
    requires MemberKeys(t) && EveryWorkspaceOwned(t)
    ensures var v := T.Verdict(T.DropWorkspace(actor, w), Threads(t));
            var owner := Key(w, actor) in t.members && t.members[Key(w, actor)] == Owner;
            && (v == T.NotFound <==> w !in t.workspaces)
            && (v == T.Forbidden <==> w in t.workspaces && !owner)
            && (v == T.Done <==> w in t.workspaces && owner)
  {
    if w in t.workspaces {
      OwnedIsInOwners(t, w);
      var u := OwnerOf(t.members, w);
      assert Key(w, actor) in t.members && t.members[Key(w, actor)] == Owner ==> Key(w, actor) == Key(w, u);
    }
  }

  /** Creating a workspace with its owner is MakeWorkspace. */
  lemma WorkspaceProjects(t: Tables, id: Id, info: WorkspaceInfo, actor: Id)
    requires MemberKeys(t) && id !in t.workspaces && actor in t.users
    ensures var t' := t.(workspaces := t.workspaces[id := info], members := t.members[Key(id, actor) := Owner]);
            Threads(t') == T.Effect(T.MakeWorkspace(actor, id), Threads(t))
  {
    var t' := t.(workspaces := t.workspaces[id := info], members := t.members[Key(id, actor) := Owner]);
    forall w ensures HasOwner(t'.members, w) <==> HasOwner(t.members, w) || w == id {
      if u :| Key(w, u) in t.members && t.members[Key(w, u)] == Owner { assert t'.members[Key(w, u)] == Owner; }
      assert t'.members[Key(id, actor)] == Owner;
    }
    forall w | HasOwner(t'.members, w)
      ensures OwnerOf(t'.members, w) == if w == id then actor else OwnerOf(t.members, w)
    {
      var x := OwnerOf(t'.members, w);
      assert t'.members[Key(w, x)] == Owner;
      if w != id { OwnerIs(t, w, x); }
    }
    assert Owners(t') == Owners(t)[id := actor];
  }

  /** Changing plain memberships leaves the owners. */
  lemma PlainMemberThreads(t: Tables, k: Key)
    requires MemberKeys(t) && k !in t.members
    ensures Threads(t.(members := t.members[k := Member])) == Threads(t)
  {
    var t' := t.(members := t.members[k := Member]);
    forall w ensures HasOwner(t'.members, w) <==> HasOwner(t.members, w) {
      if u :| Key(w, u) in t.members && t.members[Key(w, u)] == Owner { assert t'.members[Key(w, u)] == Owner; }
      if u :| Key(w, u) in t'.members && t'.members[Key(w, u)] == Owner { assert t.members[Key(w, u)] == Owner; }
    }
    forall w | HasOwner(t'.members, w) ensures OwnerOf(t'.members, w) == OwnerOf(t.members, w) {
      var x := OwnerOf(t'.members, w);
      assert t'.members[Key(w, x)] == Owner;
      OwnerIs(t, w, x);
    }
  }
}
