/** The channel queries: single statements on the full schema, which no service wraps. */
module ChannelQueries {
  import opened Base
  import opened Entities
  import opened Schema
  import opened Soundness
  import opened Closures
  import opened Statements
  import opened Survivors
  import opened Transactions
  import opened ThreadProjection
  import T = ThreadModel

  lemma ChannelSound(t: Tables, id: Id, c: Channel)
    requires Sound(t) && InsertChannel(t, id, c).Success?
    ensures Sound(InsertChannel(t, id, c).value)
  {
    hide Intact, Sound, EveryWorkspaceOwned, AccountsMatch;
    SoundParts(t);
    InsertChannelKeeps(t, id, c);
    SameMembersSound(t, InsertChannel(t, id, c).value);
  }

  lemma SeatSound(t: Tables, ws: Id, s: Seat)
    requires Sound(t) && InsertSeat(t, ws, s).Success?
    ensures Sound(InsertSeat(t, ws, s).value)
  {
    hide *;
    SoundParts(t);
    InsertSeatKeys(t, ws, s);
    InsertSeatKeeps(t, ws, s);
    SameDirects(t, InsertSeat(t, ws, s).value);
    SameMembersSound(t, InsertSeat(t, ws, s).value);
  }

  lemma ChannelDeleted(t: Tables, c: Id)
    requires Sound(t)
    ensures CountsOk(t.messages)
    ensures Present(t, ChannelRow(c)) <==> c in t.channels
    ensures var t' := Prune(t, Cascaded(t, {ChannelRow(c)}));
            && Sound(t')
            && t' == Prune(t, ChannelRows(t, {c}))
            && ChannelGone(t, t', c)
            && (c in t.channels ==> Threads(t') == T.Effect(T.DropChannel(c), Threads(t)))
    ensures c !in t.channels ==> T.Verdict(T.DropChannel(c), Threads(t)) == T.NotFound
  {
    hide *;
    ChannelPresent(t, c);
    SoundParts(t);
    ChannelCascade(t, c);
    ChannelRowsLeave(t, c);
    DeletedChannelSound(t, c);
    SoundParts(Prune(t, ChannelRows(t, {c})));
    if c in t.channels { DeleteChannelProjects(t, c); }
  }

  lemma ChannelPresent(t: Tables, c: Id)
    ensures Present(t, ChannelRow(c)) <==> c in t.channels
    ensures c !in t.channels ==> T.Verdict(T.DropChannel(c), Threads(t)) == T.NotFound
  {
    hide Owners;
  }

  lemma ChannelRowKinds(t: Tables, c: Id)
    ensures forall r | r in ChannelRows(t, {c}) :: r.ChannelRow? || r.SeatRow? || r.MessageRow?
  {
  }

  lemma DeletedChannelSound(t: Tables, c: Id)
    requires Sound(t)
    ensures Sound(Prune(t, ChannelRows(t, {c})))
  {
    SoundParts(t);
    hide Intact, Sound, EveryWorkspaceOwned, AccountsMatch, MessageKeys, SeatKeys, CountsOk;
    ChannelCascade(t, c);
    ChannelRowKinds(t, c);
    var gone := ChannelRows(t, {c});
    hide ChannelRows, Cascaded;
    NoUsersUnrestricted(t, gone);
    KeepsAccounts(t, gone);
    hide Prune, Unrestricted;
    PruneKeepsIntact(t, {ChannelRow(c)});
    SameMembersSound(t, Prune(t, gone));
  }

  lemma KeepsAccounts(t: Tables, gone: set<Row>)
    requires forall r | r in gone :: r.ChannelRow? || r.SeatRow? || r.MessageRow?
    ensures var t' := Prune(t, gone);
            && t'.users == t.users && t'.identities == t.identities
            && t'.workspaces == t.workspaces && t'.members == t.members && t'.directs == t.directs
  {
  }

  lemma NoSuchWorkspace(t: Tables, ws: Id, id: Id)
    requires ws !in t.workspaces
    ensures T.Verdict(T.MakeChannel(ws, id), Threads(t)) == T.NoWorkspace
  {
    hide HasOwner, OwnerOf;
  }

  /** A place in a channel is accepted for whoever has it, and for a member of the channel's own workspace. */
  lemma SeatAccepted(t: Tables, ws: Id, s: Seat)
    requires MemberKeys(t)
    ensures var outcome := InsertSeat(t, ws, s);
            var here := s.channel in t.channels && t.channels[s.channel].ws == ws;
            && (outcome.Success? <==> s in t.seats || (here && Key(ws, s.user) in t.members))
            && (outcome.Success? ==>
                  outcome.value == if s in t.seats then t else t.(seats := t.seats[s := ws]))
            && (outcome.Failure? ==>
                  outcome.error == if s.user !in t.users then ForeignKey("channel_members_user_id_fkey")
                                   else if !here then ForeignKey("channel_members_workspace_channel_fkey")
                                   else ForeignKey("channel_members_workspace_member_fkey"))
  {
  }

  /** A channel is accepted in every workspace there is, under a name no other channel of it has. */
  lemma ChannelAccepted(t: Tables, id: Id, c: Channel)
    requires id !in t.channels
    ensures var outcome := InsertChannel(t, id, c);
            && (outcome.Success? <==> c.ws in t.workspaces && forall x | x in t.channels :: t.channels[x] != c)
            && (outcome.Success? ==> outcome.value == t.(channels := t.channels[id := c]))
            && (outcome.Failure? ==>
                  outcome.error == if c in t.channels.Values then Unique("channels_workspace_name_unique")
                                   else ForeignKey("channels_workspace_id_fkey"))
  {
  }

  lemma FreshChannel(t: Tables, id: Id)
    requires FreshId(t, id)
    ensures id !in t.channels
  {
  }

  method CreateChannel(database: Database, ws: Id, name: string, id: Id) returns (r: Result<Unit, SqlError>)
    requires Sound(database.tables) && FreshId(database.tables, id)
    modifies database
    ensures Sound(database.tables) && database.open == old(database.open)
    ensures r.Failure? ==> database.tables == old(database.tables)
    ensures database.steady ==>
              (r.Success? <==>
                 && ws in old(database.tables).workspaces
                 && forall c | c in old(database.tables).channels ::
                      old(database.tables).channels[c] != Channel(ws, name))
    ensures database.steady && r.Failure? ==>
              r.error == if Channel(ws, name) in old(database.tables).channels.Values
                         then Unique("channels_workspace_name_unique") else ForeignKey("channels_workspace_id_fkey")
    ensures ws !in old(database.tables).workspaces ==>
              T.Verdict(T.MakeChannel(ws, id), Threads(old(database.tables))) == T.NoWorkspace
    ensures r.Success? ==>
              var t := old(database.tables);
              && database.tables == t.(channels := t.channels[id := Channel(ws, name)])
              && Threads(database.tables) == T.Effect(T.MakeChannel(ws, id), Threads(t))
  {
    hide *;
    ghost var t := database.tables;
    SoundParts(t);
    FreshChannel(t, id);
    ChannelAccepted(t, id, Channel(ws, name));
    if InsertChannel(t, id, Channel(ws, name)).Success? {
      ChannelSound(t, id, Channel(ws, name));
      ChannelProjects(t, id, Channel(ws, name));
    }
    if ws !in t.workspaces { NoSuchWorkspace(t, ws, id); }
    var outcome := InsertChannel(database.tables, id, Channel(ws, name));
    r := Autocommit(database, outcome);
  }

  /** Whoever is added is, and stays, a member of the channel's workspace; adding twice changes nothing. */
  method AddChannelMember(database: Database, ws: Id, channel: Id, user: Id) returns (r: Result<Unit, SqlError>)
    requires Sound(database.tables)
    modifies database
    ensures Sound(database.tables) && database.open == old(database.open)
    ensures r.Failure? ==> database.tables == old(database.tables)
    ensures var t := old(database.tables);
            database.steady ==>
              (r.Success? <==>
                 || Seat(channel, user) in t.seats
                 || (channel in t.channels && t.channels[channel].ws == ws && Key(ws, user) in t.members))
    ensures var t := old(database.tables);
            database.steady && r.Failure? ==>
              r.error == if user !in t.users then ForeignKey("channel_members_user_id_fkey")
                         else if channel !in t.channels || t.channels[channel].ws != ws
                         then ForeignKey("channel_members_workspace_channel_fkey")
                         else ForeignKey("channel_members_workspace_member_fkey")
    ensures r.Success? ==> Seat(channel, user) in database.tables.seats
    ensures r.Success? && Seat(channel, user) in old(database.tables).seats ==> database.tables == old(database.tables)
    ensures r.Success? && Seat(channel, user) !in old(database.tables).seats ==>
              && channel in old(database.tables).channels && old(database.tables).channels[channel].ws == ws
              && Key(ws, user) in old(database.tables).members
              && database.tables
                 == old(database.tables).(seats := old(database.tables).seats[Seat(channel, user) := ws])
  {
    hide *;
    ghost var t := database.tables;
    SoundParts(t);
    SeatAccepted(t, ws, Seat(channel, user));
    if InsertSeat(t, ws, Seat(channel, user)).Success? { SeatSound(t, ws, Seat(channel, user)); }
    var outcome := InsertSeat(database.tables, ws, Seat(channel, user));
    r := Autocommit(database, outcome);
  }

  method DeleteChannel(database: Database, id: Id) returns (r: Result<nat, SqlError>)
    requires Sound(database.tables)
    modifies database
    ensures Sound(database.tables) && database.open == old(database.open)
    ensures r.Failure? || r.value == 0 ==> database.tables == old(database.tables)
    ensures r.Success? ==> r.value == if id in old(database.tables).channels then 1 else 0
    ensures database.steady ==> r.Success?
    ensures id !in old(database.tables).channels ==>
              T.Verdict(T.DropChannel(id), Threads(old(database.tables))) == T.NotFound
    ensures r.Success? && r.value == 1 ==> ChannelGone(old(database.tables), database.tables, id)
    ensures r.Success? && r.value == 1 ==>
              && database.tables == Prune(old(database.tables), ChannelRows(old(database.tables), {id}))
              && Threads(database.tables) == T.Effect(T.DropChannel(id), Threads(old(database.tables)))
  {
    ChannelDeleted(database.tables, id);
    hide *;
    r := AutocommitDelete(database, ChannelRow(id));
  }
}
