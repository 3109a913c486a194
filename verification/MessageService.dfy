/** The message service: single statements on the full schema. */
module MessageService {
  import opened Base
  import opened Reachability
  import opened Entities
  import opened Schema
  import opened Soundness
  import opened Survivors
  import opened Closures
  import opened Statements
  import opened Transactions
  import opened Services
  import opened ThreadProjection
  import opened Listings
  import T = ThreadModel

  // ---------------------------------------------------------------- narrowing

  const MAX_INT32: int := 0x7FFF_FFFF

  type uint32 = x: int | 0 <= x < 0x1_0000_0000

  /** The Go conversion int32(x): the upper half wraps to negative numbers. */
  function ToInt32(x: uint32): int {
    if x <= MAX_INT32 then x else x - 0x1_0000_0000
  }

  /** The guard lets through exactly the values the conversion keeps. */
  lemma NarrowingLosslessIff(x: uint32)
    ensures x <= MAX_INT32 <==> ToInt32(x) == x
    ensures x <= MAX_INT32 <==> ToInt32(x) >= 0
  {
  }

  // ---------------------------------------------------------------- what the effects keep

  lemma PostedSound(t: Tables, id: Id, m: Message)
    requires Sound(t) && m.count == 0 && m.root != Some(id) && InsertMessage(t, id, m).Success?
    ensures Sound(InsertMessage(t, id, m).value)
  {
    hide Intact, Sound, EveryWorkspaceOwned, AccountsMatch;
    SoundParts(t);
    InsertMessageKeeps(t, id, m);
    SameMembersSound(t, InsertMessage(t, id, m).value);
  }

  /** A post is accepted if and only if its author, its channel and its root are stored. */
  lemma PostAccepted(t: Tables, id: Id, m: Message)
    requires m.body != "" && id !in t.messages
    ensures InsertMessage(t, id, m).Success?
            <==> m.author in t.users && m.channel in t.channels && (m.root.Some? ==> m.root.value in t.messages)
  {
  }

  lemma PostedIs(t: Tables, id: Id, m: Message)
    requires id !in t.messages && m.root != Some(id) && (m.root.Some? ==> m.root.value in t.messages)
    ensures var msgs' := Posted(t.messages, id, m);
            && msgs'.Keys == t.messages.Keys + {id}
            && msgs'[id] == m
            && forall x | x in t.messages ::
                 msgs'[x] == if m.root == Some(x) then t.messages[x].(count := t.messages[x].count + 1)
                             else t.messages[x]
  {
  }

  lemma EditedSound(t: Tables, id: Id, body: string, now: nat)
    requires Sound(t) && id in t.messages && body != ""
    ensures Sound(UpdateMessage(t, id, body, now))
  {
    SoundParts(t);
    hide Intact, Sound;
    UpdateMessageKeeps(t, id, body, now);
    SameMembersSound(t, UpdateMessage(t, id, body, now));
  }

  /** The messages of a thread below m, m included. */
  ghost function Below(t: Tables, m: Id): set<Id> {
    Reach(ThreadEdges(t.messages), {m})
  }

  lemma MessagePrune(t: Tables, m: Id)
    ensures Prune(t, Cascaded(t, {MessageRow(m)})) == t.(messages := Without(t.messages, Below(t, m)))
  {
    MessageCascade(t, m);
    var gone := Cascaded(t, {MessageRow(m)});
    forall x ensures x in MessagesIn(gone) <==> x in Below(t, m) {
      assert MessageRow(x) in gone <==> x in Below(t, m);
    }
    assert MessagesIn(gone) == Below(t, m);
    OnlyMessagesGone(t, gone);
  }

  lemma OnlyMessagesGone(t: Tables, gone: set<Row>)
    requires forall r | r in gone :: r.MessageRow?
    ensures Prune(t, gone) == t.(messages := Without(t.messages, MessagesIn(gone)))
  {
    var s := Prune(t, gone);
    assert s.users == t.users && s.identities == t.identities && s.workspaces == t.workspaces;
    assert s.members == t.members && s.channels == t.channels && s.seats == t.seats;
  }

  lemma MessagesOnly(t: Tables, m: Id)
    ensures forall u :: UserRow(u) !in Cascaded(t, {MessageRow(m)})
  {
    hide Cascaded;
    MessageCascade(t, m);
  }

  lemma DeletedMessageSound(t: Tables, m: Id)
    requires Sound(t)
    ensures Sound(t.(messages := Without(t.messages, Below(t, m))))
  {
    hide *;
    SoundParts(t);
    MessagesOnly(t, m);
    MessagePrune(t, m);
    NoUsersUnrestricted(t, Cascaded(t, {MessageRow(m)}));
    SameDirects(t, t.(messages := Without(t.messages, Below(t, m))));
    PruneKeepsIntact(t, {MessageRow(m)});
    SameMembersSound(t, t.(messages := Without(t.messages, Below(t, m))));
  }

  lemma MessagePresent(t: Tables, m: Id)
    ensures Present(t, MessageRow(m)) <==> m in t.messages
  {
  }

  lemma MessageDeleted(t: Tables, m: Id)
    requires Sound(t)
    ensures CountsOk(t.messages)
    ensures Present(t, MessageRow(m)) <==> m in t.messages
    ensures var t' := Prune(t, Cascaded(t, {MessageRow(m)}));
            && Sound(t')
            && t' == t.(messages := Without(t.messages, Below(t, m)))
            && MessageGone(t, t', m)
            && (m in t.messages ==> Threads(t') == T.Effect(T.Drop(m), Threads(t)))
    ensures m !in t.messages ==> T.Verdict(T.Drop(m), Threads(t)) == T.NotFound
  {
    hide *;
    MessagePresent(t, m);
    if m !in t.messages { MessageAbsent(t, m); }
    SoundParts(t);
    MessagePrune(t, m);
    MessageLeaves(t, m);
    DeletedMessageSound(t, m);
    SoundParts(Prune(t, Cascaded(t, {MessageRow(m)})));
    if m in t.messages { DeleteMessageProjects(t, m); }
  }

  lemma MessageLeaves(t: Tables, m: Id)
    requires MessageKeys(t)
    ensures MessageGone(t, t.(messages := Without(t.messages, Below(t, m))), m)
  {
    MessageRowsLeave(t, m);
    hide MessageGone, Without, Reach, MessageKeys;
  }

  lemma MessageAbsent(t: Tables, m: Id)
    requires m !in t.messages
    ensures T.Verdict(T.Drop(m), Threads(t)) == T.NotFound
  {
    hide Owners;
  }

  /** DeleteChannelMessage takes a message exactly when following thread_root_id from it arrives at
      the deleted one. */
  lemma BelowIffLeads(t: Tables, x: Id, m: Id)
    requires m in t.messages
    ensures x in Below(t, m) <==> exists steps: nat :: LeadsTo(t, x, m, steps)
  {
    if steps: nat :| LeadsTo(t, x, m, steps) { ChainIsReached(t, x, m, steps, {m}); }
    if x in Below(t, m) { BelowLeads(t, x, m); }
  }

  lemma BelowLeads(t: Tables, x: Id, m: Id)
    requires x in Below(t, m)
    ensures exists steps: nat :: LeadsTo(t, x, m, steps)
  {
    var y, steps := ReachedLeads(t, x, {m});
    assert LeadsTo(t, x, m, steps);
  }

  class Service {
    const database: Database

    constructor (database: Database)
      ensures this.database == database
    {
      this.database := database;
    }

    // -------------------------------------------------------------- channel messages

    /** Anyone may post to any existing channel, under any existing message. */
    method SendChannelMessage(author: Id, channel: Id, body: string, root: Option<Id>, id: Id, now: nat)
      returns (r: Result<Message, ServiceError>)
      requires Sound(database.tables) && id !in database.tables.messages && root != Some(id)
      modifies database
      ensures Sound(database.tables) && database.open == old(database.open)
      ensures r.Failure? ==> database.tables == old(database.tables)
      ensures body == "" ==> r == Failure(ServiceError(EmptyBody, false))
      ensures body != "" && r.Failure? ==> r.error.kind == Internal
      ensures r.Success? && root.Some? ==> root.value in old(database.tables).messages
      ensures r.Success? ==>
                && r.value == Message(author, channel, body, root, 0, now, now)
                && database.tables
                   == old(database.tables).(messages := Posted(old(database.tables).messages, id, r.value))
      ensures r.Success? ==>
                var op := T.Post(id, author, channel, root, body, now);
                && body != "" && T.Verdict(op, Threads(old(database.tables))) == T.Done
                && Threads(database.tables) == T.Effect(op, Threads(old(database.tables)))
      ensures r.Success? ==>
                var msgs, msgs' := old(database.tables).messages, database.tables.messages;
                && msgs'.Keys == msgs.Keys + {id}
                && msgs'[id] == Message(author, channel, body, root, 0, now, now)
                && (forall m | m in msgs :: msgs'[m] == if root == Some(m) then msgs[m].(count := msgs[m].count + 1)
                                                        else msgs[m])
                && database.tables == old(database.tables).(messages := msgs')
      ensures body != "" ==>
                var t := old(database.tables);
                SucceedsIff(database.steady, r,
                            author in t.users && channel in t.channels
                            && (root.Some? ==> root.value in t.messages))
      ensures database.steady && body != "" ==>
                (r.Success? <==>
                 T.Verdict(T.Post(id, author, channel, root, body, now), Threads(old(database.tables))) == T.Done)
    {
      hide *;
      if body == "" { return Failure(ServiceError(EmptyBody, false)); }
      ghost var t := database.tables;
      var m := Message(author, channel, body, root, 0, now, now);
      PostProjects(t, id, m);
      PostAccepted(t, id, m);
      if InsertMessage(t, id, m).Success? {
        PostedSound(t, id, m);
        PostedIs(t, id, m);
      }
      var outcome := InsertMessage(database.tables, id, m);
      var sent := Autocommit(database, outcome);
      r := if sent.Failure? then Failure(ServiceError(Internal, false)) else Success(m);
      Succeeds(database.steady, r, author in t.users && channel in t.channels
                                   && (root.Some? ==> root.value in t.messages));
    }

    method UpdateChannelMessage(id: Id, body: string, now: nat) returns (r: Result<Message, ServiceError>)
      requires Sound(database.tables)
      modifies database
      ensures Sound(database.tables) && database.open == old(database.open)
      ensures r.Failure? ==> database.tables == old(database.tables)
      ensures body == "" ==> r == Failure(ServiceError(EmptyBody, false))
      ensures body != "" && r.Failure? ==>
                r.error.kind == Internal || (r.error.kind == MessageNotFound && id !in old(database.tables).messages)
      ensures FailsIff(database.steady, r, MessageNotFound, body != "" && id !in old(database.tables).messages)
      ensures SucceedsIff(database.steady, r, body != "" && id in old(database.tables).messages)
      ensures id !in old(database.tables).messages ==>
                T.Verdict(T.Edit(id, body, now), Threads(old(database.tables))) == T.NotFound
      ensures r.Success? ==>
                && id in old(database.tables).messages
                && r.value == old(database.tables).messages[id].(body := body, updatedAt := now)
                && database.tables == old(database.tables).(messages := old(database.tables).messages[id := r.value])
                && Threads(database.tables) == T.Effect(T.Edit(id, body, now), Threads(old(database.tables)))
    {
      if body == "" { return Failure(ServiceError(EmptyBody, false)); }
      ghost var t := database.tables;
      if id in t.messages {
        EditedSound(t, id, body, now);
        EditProjects(t, id, body, now);
      }
      hide Sound, Threads, T.Effect;
      var found := id in database.tables.messages;
      var outcome := if found then Success(UpdateMessage(database.tables, id, body, now)) else Success(database.tables);
      var updated := Autocommit(database, outcome);
      if updated.Failure? { return Failure(ServiceError(Internal, false)); }
      if !found { return Failure(ServiceError(MessageNotFound, false)); }
      r := Success(database.tables.messages[id]);
    }

    /** Removes the message and, at any depth and in any channel, the replies below it; the count of
        its own root drops by one. */
    method DeleteChannelMessage(id: Id) returns (r: Result<Unit, ServiceError>)
      requires Sound(database.tables)
      modifies database
      ensures Sound(database.tables) && database.open == old(database.open)
      ensures r.Failure? ==> database.tables == old(database.tables)
      ensures r.Failure? ==>
                r.error.kind == Internal || (r.error.kind == MessageNotFound && id !in old(database.tables).messages)
      ensures FailsIff(database.steady, r, MessageNotFound, id !in old(database.tables).messages)
      ensures SucceedsIff(database.steady, r, id in old(database.tables).messages)
      ensures id !in old(database.tables).messages ==>
                T.Verdict(T.Drop(id), Threads(old(database.tables))) == T.NotFound
      ensures r.Success? ==> MessageGone(old(database.tables), database.tables, id)
      ensures r.Success? ==>
                && id in old(database.tables).messages
                && database.tables
                   == old(database.tables).(
                      messages := Without(old(database.tables).messages, Below(old(database.tables), id)))
                && Threads(database.tables) == T.Effect(T.Drop(id), Threads(old(database.tables)))
    {
      hide *;
      MessageDeleted(database.tables, id);
      ghost var t := database.tables;
      var rows := AutocommitDelete(database, MessageRow(id));
      if rows.Failure? {
        r := Failure(ServiceError(Internal, false));
      } else if rows.value == 0 {
        r := Failure(ServiceError(MessageNotFound, false));
      } else {
        r := Success(Unit);
      }
      Fails(database.steady, r, MessageNotFound, id !in t.messages);
      Succeeds(database.steady, r, id in t.messages);
    }

    method ReadChannelMessagePage(channel: Id, limit: uint32, offset: uint32) returns (r: Result<seq<Id>, Kind>)
      ensures limit > MAX_INT32 ==> r == Failure(InvalidLimit)
      ensures limit <= MAX_INT32 && offset > MAX_INT32 ==> r == Failure(InvalidOffset)
      ensures limit <= MAX_INT32 && offset <= MAX_INT32 && r.Failure? ==> r.error == Internal && !database.steady
      ensures r.Success? ==>
                exists s :: ChannelListing(database.tables, channel, s)
                            && IsPartOf(r.value, s, limit, offset)
                            && r.value == Page(s, limit, offset)
      ensures r.Success? ==>
                var msgs := database.tables.messages;
                && (forall i | 0 <= i < |r.value| ::
                      r.value[i] in msgs && msgs[r.value[i]].channel == channel && msgs[r.value[i]].root == None)
                && (forall i, j | 0 <= i < j < |r.value| ::
                      msgs[r.value[i]].createdAt >= msgs[r.value[j]].createdAt)
                && (offset == 0 && limit > 0 ==>
                      forall m | m in msgs && msgs[m].channel == channel && msgs[m].root == None && m !in r.value ::
                        r.value != [] && forall i | 0 <= i < |r.value| ::
                          msgs[r.value[i]].createdAt >= msgs[m].createdAt)
    {
      if limit > MAX_INT32 { return Failure(InvalidLimit); }
      if offset > MAX_INT32 { return Failure(InvalidOffset); }
      NarrowingLosslessIff(limit);
      NarrowingLosslessIff(offset);
      var q := Ask(database);
      if q.Failure? { return Failure(Internal); }
      var s := Sort(NewestFirst(database.tables), TopLevel(database.tables, channel));
      r := Success(Page(s, ToInt32(limit), ToInt32(offset)));
      ChannelListingIs(database.tables, channel, s);
      PageIsPart(s, limit, offset);
      ChannelPage(database.tables, channel, s, limit, offset, r.value);
    }

    /** As many replies as reply_count says, oldest first; an absent root and one without replies are
        reported alike. */
    method ReadChannelThreadReplies(root: Id) returns (r: Result<seq<Id>, Kind>)
      requires Sound(database.tables)
      ensures var msgs := database.tables.messages;
              && (r.Failure? ==> r.error == Internal || r.error == MessageNotFound)
              && (r == Failure(MessageNotFound) ==> root !in msgs || msgs[root].count == 0)
              && (r.Success? ==> root in msgs && 0 < |r.value| == msgs[root].count
                                 && ThreadListing(database.tables, root, r.value)
                                 && IsListing(OldestFirst(database.tables), Replies(msgs, root), r.value))
      ensures database.steady ==> r != Failure(Internal)
    {
      var t := database.tables;
      SoundParts(t);
      hide Sound, Intact, EveryWorkspaceOwned, AccountsMatch;
      var q := Ask(database);
      if q.Failure? { return Failure(Internal); }
      var s := Sort(OldestFirst(t), Replies(t.messages, root));
      ThreadListingIs(t, root, s);
      ListingLength(OldestFirst(t), Replies(t.messages, root), s);
      if root !in t.messages { assert Replies(t.messages, root) == {}; }
      if |s| == 0 { return Failure(MessageNotFound); }
      r := Success(s);
    }

    // -------------------------------------------------------------- direct messages

    method SendDirectMessage(author: Id, recipient: Id, body: string, id: Id, now: nat)
      returns (r: Result<Direct, ServiceError>)
      requires Sound(database.tables) && FreshId(database.tables, id)
      modifies database
      ensures Sound(database.tables) && database.open == old(database.open)
      ensures r.Failure? ==> database.tables == old(database.tables)
      ensures body == "" ==> r == Failure(ServiceError(EmptyBody, false))
      ensures body != "" && author == recipient ==> r == Failure(ServiceError(MessageToSelf, false))
      ensures body != "" && author != recipient && r.Failure? ==> r.error.kind == Internal
      ensures SucceedsIff(database.steady, r,
                          body != "" && author != recipient
                          && author in old(database.tables).users && recipient in old(database.tables).users)
      ensures r.Success? ==>
                && r.value == Direct(author, recipient, body, now, now)
                && database.tables == old(database.tables).(directs := old(database.tables).directs[id := r.value])
                && Conversation(database.tables, author, recipient)
                   == Conversation(old(database.tables), author, recipient) + {id}
    {
      if body == "" { return Failure(ServiceError(EmptyBody, false)); }
      if author == recipient { return Failure(ServiceError(MessageToSelf, false)); }
      ghost var t := database.tables;
      var d := Direct(author, recipient, body, now, now);
      if InsertDirect(t, id, d).Success? { DirectSound(t, id, d); }
      DirectSent(t, id, d);
      var outcome := InsertDirect(database.tables, id, d);
      hide Sound, InsertDirect, Conversation;
      var sent := Autocommit(database, outcome);
      if sent.Failure? { return Failure(ServiceError(Internal, false)); }
      r := Success(d);
    }

    method UpdateDirectMessage(id: Id, body: string, now: nat) returns (r: Result<Direct, ServiceError>)
      requires Sound(database.tables)
      modifies database
      ensures Sound(database.tables) && database.open == old(database.open)
      ensures r.Failure? ==> database.tables == old(database.tables)
      ensures body == "" ==> r == Failure(ServiceError(EmptyBody, false))
      ensures body != "" && r.Failure? ==>
                r.error.kind == Internal || (r.error.kind == MessageNotFound && id !in old(database.tables).directs)
      ensures FailsIff(database.steady, r, MessageNotFound, body != "" && id !in old(database.tables).directs)
      ensures SucceedsIff(database.steady, r, body != "" && id in old(database.tables).directs)
      ensures r.Success? ==>
                var t := old(database.tables);
                && id in t.directs
                && r.value == t.directs[id].(body := body, updatedAt := now)
                && database.tables == t.(directs := t.directs[id := r.value])
    {
      hide *;
      var t := database.tables;
      if body == "" {
        r := Failure(ServiceError(EmptyBody, false));
        Fails(database.steady, r, MessageNotFound, body != "" && id !in t.directs);
        Succeeds(database.steady, r, body != "" && id in t.directs);
        return;
      }
      var found := id in t.directs;
      var outcome := Success(t);
      if found {
        outcome := Success(t.(directs := t.directs[id := t.directs[id].(body := body, updatedAt := now)]));
        DirectEditedSound(t, id, body, now);
      }
      var updated := Autocommit(database, outcome);
      if updated.Failure? {
        r := Failure(ServiceError(Internal, false));
      } else if !found {
        r := Failure(ServiceError(MessageNotFound, false));
      } else {
        r := Success(database.tables.directs[id]);
      }
      Fails(database.steady, r, MessageNotFound, body != "" && id !in t.directs);
      Succeeds(database.steady, r, body != "" && id in t.directs);
    }

    method DeleteDirectMessage(id: Id) returns (r: Result<Unit, ServiceError>)
      requires Sound(database.tables)
      modifies database
      ensures Sound(database.tables) && database.open == old(database.open)
      ensures r.Failure? ==> database.tables == old(database.tables)
      ensures r.Failure? ==>
                r.error.kind == Internal || (r.error.kind == MessageNotFound && id !in old(database.tables).directs)
      ensures FailsIff(database.steady, r, MessageNotFound, id !in old(database.tables).directs)
      ensures SucceedsIff(database.steady, r, id in old(database.tables).directs)
      ensures r.Success? ==>
                var t := old(database.tables);
                id in t.directs && database.tables == t.(directs := t.directs - {id})
    {
      hide *;
      var t := database.tables;
      DirectDeletedSound(t, id);
      var found := id in t.directs;
      var deleted := Autocommit(database, Success(t.(directs := t.directs - {id})));
      if deleted.Failure? {
        r := Failure(ServiceError(Internal, false));
      } else if !found {
        r := Failure(ServiceError(MessageNotFound, false));
      } else {
        r := Success(Unit);
      }
      Fails(database.steady, r, MessageNotFound, id !in t.directs);
      Succeeds(database.steady, r, id in t.directs);
    }

    /** Only distinct users have a conversation; pages are counted in 32 bits. */
    method ReadDirectMessagePage(a: Id, b: Id, limit: uint32, offset: uint32) returns (r: Result<seq<Id>, Kind>)
      ensures limit > MAX_INT32 ==> r == Failure(InvalidLimit)
      ensures limit <= MAX_INT32 && offset > MAX_INT32 ==> r == Failure(InvalidOffset)
      ensures limit <= MAX_INT32 && offset <= MAX_INT32 && a == b ==> r == Failure(ConversationWithSelf)
      ensures limit <= MAX_INT32 && offset <= MAX_INT32 && a != b && r.Failure? ==>
                r.error == Internal && !database.steady
      ensures r.Success? ==>
                exists s :: DirectListing(database.tables, a, b, s)
                            && IsPartOf(r.value, s, limit, offset)
                            && r.value == Page(s, limit, offset)
      ensures r.Success? ==>
                var dms := database.tables.directs;
                && (forall i | 0 <= i < |r.value| :: r.value[i] in dms && Between(dms[r.value[i]], a, b))
                && (forall i, j | 0 <= i < j < |r.value| :: dms[r.value[i]].createdAt >= dms[r.value[j]].createdAt)
                && (offset == 0 && limit > 0 ==>
                      forall d | d in dms && Between(dms[d], a, b) && d !in r.value ::
                        r.value != [] && forall i | 0 <= i < |r.value| ::
                          dms[r.value[i]].createdAt >= dms[d].createdAt)
    {
      if limit > MAX_INT32 { return Failure(InvalidLimit); }
      if offset > MAX_INT32 { return Failure(InvalidOffset); }
      if a == b { return Failure(ConversationWithSelf); }
      NarrowingLosslessIff(limit);
      NarrowingLosslessIff(offset);
      var q := Ask(database);
      if q.Failure? { return Failure(Internal); }
      var s := Sort(DirectRank(database.tables), Conversation(database.tables, a, b));
      r := Success(Page(s, ToInt32(limit), ToInt32(offset)));
      DirectListingIs(database.tables, a, b, s);
      PageIsPart(s, limit, offset);
      DirectPage(database.tables, a, b, s, limit, offset, r.value);
    }
  }

  // ---------------------------------------------------------------- pages

  lemma ChannelPage(t: Tables, c: Id, s: seq<Id>, limit: nat, offset: nat, page: seq<Id>)
    requires ChannelListing(t, c, s) && IsPartOf(page, s, limit, offset)
    ensures forall i | 0 <= i < |page| ::
              page[i] in t.messages && t.messages[page[i]].channel == c && t.messages[page[i]].root == None
    ensures forall i, j | 0 <= i < j < |page| :: t.messages[page[i]].createdAt >= t.messages[page[j]].createdAt
    ensures offset == 0 && limit > 0 ==>
              forall m | m in t.messages && t.messages[m].channel == c && t.messages[m].root == None && m !in page ::
                page != [] && forall i | 0 <= i < |page| :: t.messages[page[i]].createdAt >= t.messages[m].createdAt
  {
    assert forall i | 0 <= i < |page| :: page[i] in s;
    if offset == 0 && limit > 0 {
      forall m | m in s && m !in page
        ensures page != [] && forall i | 0 <= i < |page| :: t.messages[page[i]].createdAt >= t.messages[m].createdAt
      {
        LeftOutIsLater(s, limit, page, m);
      }
    }
  }

  lemma DirectPage(t: Tables, a: Id, b: Id, s: seq<Id>, limit: nat, offset: nat, page: seq<Id>)
    requires DirectListing(t, a, b, s) && IsPartOf(page, s, limit, offset)
    ensures forall i | 0 <= i < |page| :: page[i] in t.directs && Between(t.directs[page[i]], a, b)
    ensures forall i, j | 0 <= i < j < |page| :: t.directs[page[i]].createdAt >= t.directs[page[j]].createdAt
    ensures offset == 0 && limit > 0 ==>
              forall d | d in t.directs && Between(t.directs[d], a, b) && d !in page ::
                page != [] && forall i | 0 <= i < |page| :: t.directs[page[i]].createdAt >= t.directs[d].createdAt
  {
    assert forall i | 0 <= i < |page| :: page[i] in s;
    if offset == 0 && limit > 0 {
      forall d | d in s && d !in page
        ensures page != [] && forall i | 0 <= i < |page| :: t.directs[page[i]].createdAt >= t.directs[d].createdAt
      {
        LeftOutIsLater(s, limit, page, d);
      }
    }
  }

  /** What the first page leaves out comes after all it has. */
  lemma LeftOutIsLater(s: seq<Id>, limit: nat, page: seq<Id>, x: Id)
    requires IsPartOf(page, s, limit, 0) && limit > 0 && x in s && x !in page
    ensures page != [] && exists k :: |page| <= k < |s| && s[k] == x
    ensures forall i | 0 <= i < |page| :: page[i] == s[i]
  {
    var k :| 0 <= k < |s| && s[k] == x;
    forall i | 0 <= i < |page| ensures s[i] == page[i] != x { assert page[i] == s[0 + i]; }
  }

  lemma DirectSent(t: Tables, id: Id, d: Direct)
    requires id !in t.directs && d.body != ""
    ensures InsertDirect(t, id, d).Success? <==> d.author in t.users && d.recipient in t.users
    ensures InsertDirect(t, id, d).Success? ==>
              var t' := t.(directs := t.directs[id := d]);
              && InsertDirect(t, id, d).value == t'
              && Conversation(t', d.author, d.recipient) == Conversation(t, d.author, d.recipient) + {id}
  {
  }

  lemma DirectSound(t: Tables, id: Id, d: Direct)
    requires Sound(t) && d.author != d.recipient && InsertDirect(t, id, d).Success?
    ensures Sound(InsertDirect(t, id, d).value)
  {
    hide Sound;
    SoundDirects(t);
    OnlyDirectsChange(t, InsertDirect(t, id, d).value);
  }

  lemma OnlyDirectsChange(t: Tables, t': Tables)
    requires Sound(t) && t' == t.(directs := t'.directs)
    requires DirectKeys(t') && NobodyWritesToThemselves(t')
    ensures Sound(t')
  {
    hide Sound, EveryWorkspaceOwned, AccountsMatch, DirectKeys, NobodyWritesToThemselves, CountsOk, Forest;
    SoundParts(t);
    assert Intact(t');
    SameMembersSound(t, t');
  }

  lemma SoundDirects(t: Tables)
    requires Sound(t)
    ensures DirectKeys(t) && NobodyWritesToThemselves(t)
  {
    hide EveryWorkspaceOwned, AccountsMatch, MessageKeys, DirectKeys, NobodyWritesToThemselves;
  }

  lemma DirectEditedSound(t: Tables, id: Id, body: string, now: nat)
    requires Sound(t) && id in t.directs && body != ""
    ensures Sound(t.(directs := t.directs[id := t.directs[id].(body := body, updatedAt := now)]))
  {
    hide Sound;
    SoundDirects(t);
    OnlyDirectsChange(t, t.(directs := t.directs[id := t.directs[id].(body := body, updatedAt := now)]));
  }

  lemma DirectDeletedSound(t: Tables, id: Id)
    requires Sound(t)
    ensures Sound(t.(directs := t.directs - {id}))
    ensures id !in t.directs ==> t.(directs := t.directs - {id}) == t
  {
    hide Sound;
    SoundDirects(t);
    OnlyDirectsChange(t, t.(directs := t.directs - {id}));
  }
}
