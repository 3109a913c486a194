/** What each kind of delete takes with it, spelled out table by table. */
module Closures {
  import opened Base
  import opened Reachability
  import opened Entities
  import opened Schema

  /** The messages posted in these channels and everything below them in their threads, in
      whatever channel it was posted. */
  ghost function ThreadsUnder(t: Tables, channels: set<Id>): set<Id> {
    Reach(ThreadEdges(t.messages), PostedIn(t.messages, channels))
  }

  function ChannelsOf(t: Tables, ws: set<Id>): set<Id> {
    set c | c in t.channels && t.channels[c].ws in ws
  }

  ghost function WorkspaceRows(t: Tables, ws: set<Id>): set<Row> {
    (set w | w in ws :: WorkspaceRow(w))
    + (set k | k in t.members && k.ws in ws :: MemberRow(k))
    + (set s | s in t.seats && t.seats[s] in ws :: SeatRow(s))
    + ChannelRows(t, ChannelsOf(t, ws))
  }

  ghost function ChannelRows(t: Tables, channels: set<Id>): set<Row> {
    (set c | c in channels :: ChannelRow(c))
    + (set s | s in t.seats && s.channel in channels :: SeatRow(s))
    + (set m | m in ThreadsUnder(t, channels) :: MessageRow(m))
  }

  function UserRows(t: Tables, u: Id): set<Row> {
    {UserRow(u)}
    + (set i | i in t.identities && t.identities[i].user == u :: IdentityRow(i))
    + (set k | k in t.members && k.user == u :: MemberRow(k))
    + (set s | s in t.seats && s.user == u :: SeatRow(s))
  }

  function MemberRows(t: Tables, k: Key): set<Row> {
    {MemberRow(k)} + (set s | s in t.seats && t.seats[s] == k.ws && s.user == k.user :: SeatRow(s))
  }

  lemma WorkspaceRowsContents(t: Tables, ws: set<Id>)
    ensures forall u :: UserRow(u) !in WorkspaceRows(t, ws)
    ensures forall i :: IdentityRow(i) !in WorkspaceRows(t, ws)
    ensures forall w :: WorkspaceRow(w) in WorkspaceRows(t, ws) <==> w in ws
    ensures forall k :: MemberRow(k) in WorkspaceRows(t, ws) <==> k in t.members && k.ws in ws
    ensures forall m :: MessageRow(m) in WorkspaceRows(t, ws) <==> m in ThreadsUnder(t, ChannelsOf(t, ws))
  {
  }

  lemma ChannelRowsContents(t: Tables, channels: set<Id>)
    ensures forall c :: ChannelRow(c) in ChannelRows(t, channels) <==> c in channels
    ensures MessagesIn(ChannelRows(t, channels)) == ThreadsUnder(t, channels)
  {
    forall m ensures m in MessagesIn(ChannelRows(t, channels)) <==> m in ThreadsUnder(t, channels) {
      assert MessageRow(m) in ChannelRows(t, channels) <==> m in ThreadsUnder(t, channels);
    }
  }

  lemma UserRowsContents(t: Tables, u: Id)
    ensures forall x :: UserRow(x) in UserRows(t, u) <==> x == u
    ensures forall i :: IdentityRow(i) in UserRows(t, u) <==> i in t.identities && t.identities[i].user == u
    ensures forall w :: WorkspaceRow(w) !in UserRows(t, u)
    ensures forall k :: MemberRow(k) in UserRows(t, u) <==> k in t.members && k.user == u
    ensures forall m :: MessageRow(m) !in UserRows(t, u)
  {
  }

  lemma MemberRowsContents(t: Tables, k: Key)
    ensures forall x :: UserRow(x) !in MemberRows(t, k)
    ensures forall i :: IdentityRow(i) !in MemberRows(t, k)
    ensures forall w :: WorkspaceRow(w) !in MemberRows(t, k)
    ensures forall x :: MemberRow(x) in MemberRows(t, k) <==> x == k
    ensures forall m :: MessageRow(m) !in MemberRows(t, k)
  {
  }

  // ---------------------------------------------------------------- threads

  /** A set of rows that no cascade leaves contains the whole thread below each of its messages. */
  lemma ClosedHasThreads(t: Tables, rows: set<Row>, roots: set<Id>)
    requires Closed(Edges(t), rows)
    requires forall m | m in roots :: MessageRow(m) in rows
    ensures forall m | m in Reach(ThreadEdges(t.messages), roots) :: MessageRow(m) in rows
  {
    var inside := MessagesIn(rows);
    forall e | e in ThreadEdges(t.messages) && e.0 in inside ensures e.1 in inside {
      EdgesContents(t, MessageRow(e.0), MessageRow(e.1));
      assert (MessageRow(e.0), MessageRow(e.1)) in Edges(t);
    }
    assert roots <= inside;
    ReachLeast(ThreadEdges(t.messages), roots, inside);
  }

  lemma ThreadRowsClosed(t: Tables, roots: set<Id>)
    ensures Closed(Edges(t), set m | m in Reach(ThreadEdges(t.messages), roots) :: MessageRow(m))
  {
    var below := Reach(ThreadEdges(t.messages), roots);
    var rows := set m | m in below :: MessageRow(m);
    forall e | e in Edges(t) && e.0 in rows ensures e.1 in rows {
      EdgesContents(t, e.0, e.1);
      assert e.1.MessageRow?;
      ThreadEdgesContents(t.messages, e.1.message);
      assert (e.0.message, e.1.message) in ThreadEdges(t.messages);
    }
  }

  /** DeleteChannelMessage takes exactly the message and its descendants. */
  lemma MessageCascade(t: Tables, m: Id)
    ensures Cascaded(t, {MessageRow(m)}) == (set x | x in Reach(ThreadEdges(t.messages), {m}) :: MessageRow(x))
  {
    var rows := set x | x in Reach(ThreadEdges(t.messages), {m}) :: MessageRow(x);
    ThreadRowsClosed(t, {m});
    assert MessageRow(m) in rows;
    ReachLeast(Edges(t), {MessageRow(m)}, rows);
    ClosedHasThreads(t, Cascaded(t, {MessageRow(m)}), {m});
  }

  /** A message below m leads up to m along thread_root_id. */
  ghost predicate LeadsTo(t: Tables, x: Id, m: Id, steps: nat)
    decreases steps
  {
    if steps == 0 then x == m
    else x in t.messages && t.messages[x].root.Some? && LeadsTo(t, t.messages[x].root.value, m, steps - 1)
  }

  lemma {:induction false} ChainIsReached(t: Tables, x: Id, m: Id, steps: nat, roots: set<Id>)
    requires LeadsTo(t, x, m, steps) && m in roots
    ensures x in Reach(ThreadEdges(t.messages), roots)
    decreases steps
  {
    if steps > 0 {
      var all := Reach(ThreadEdges(t.messages), roots);
      ChainIsReached(t, t.messages[x].root.value, m, steps - 1, roots);
      ThreadEdgesContents(t.messages, x);
      assert (t.messages[x].root.value, x).0 in all;
    }
  }

  /** Whatever goes with roots leads up to one of them. */
  lemma ReachedLeads(t: Tables, x: Id, roots: set<Id>) returns (m: Id, steps: nat)
    requires x in Reach(ThreadEdges(t.messages), roots)
    ensures m in roots && LeadsTo(t, x, m, steps)
  {
    var all := Reach(ThreadEdges(t.messages), roots);
    var lead := set y | y in all && exists m, steps: nat :: m in roots && LeadsTo(t, y, m, steps);
    forall e | e in ThreadEdges(t.messages) && e.0 in lead ensures e.1 in lead {
      var y, n: nat :| y in roots && LeadsTo(t, e.0, y, n);
      assert LeadsTo(t, e.1, y, n + 1);
    }
    forall y | y in roots ensures y in lead { assert LeadsTo(t, y, y, 0); }
    ReachLeast(ThreadEdges(t.messages), roots, lead);
    m, steps :| m in roots && LeadsTo(t, x, m, steps);
  }

  // ---------------------------------------------------------------- channels and workspaces

  lemma ChildTaken(t: Tables, rows: set<Row>, p: Row, c: Row)
    requires Closed(Edges(t), rows) && p in rows && Present(t, c) && p in Parents(t, c)
    ensures c in rows
  {
    EdgesContents(t, p, c);
    assert (p, c).0 in rows && (p, c) in Edges(t);
  }

  lemma ChannelRowsInside(t: Tables, rows: set<Row>, channels: set<Id>)
    requires Closed(Edges(t), rows)
    requires forall c | c in channels :: ChannelRow(c) in rows
    ensures ChannelRows(t, channels) <= rows
  {
    forall s | s in t.seats && s.channel in channels ensures SeatRow(s) in rows {
      ChildTaken(t, rows, ChannelRow(s.channel), SeatRow(s));
    }
    var roots := PostedIn(t.messages, channels);
    forall m | m in roots ensures MessageRow(m) in rows {
      ChildTaken(t, rows, ChannelRow(t.messages[m].channel), MessageRow(m));
    }
    ClosedHasThreads(t, rows, roots);
  }

  lemma ChannelRowsClosed(t: Tables, channels: set<Id>)
    ensures Closed(Edges(t), ChannelRows(t, channels))
  {
    hide ChannelRows, Parents, Rows;
    forall e | e in Edges(t) && e.0 in ChannelRows(t, channels) ensures e.1 in ChannelRows(t, channels) {
      EdgesContents(t, e.0, e.1);
      ChannelChild(t, channels, e.0, e.1);
    }
  }

  lemma ChannelChild(t: Tables, channels: set<Id>, p: Row, c: Row)
    requires p in ChannelRows(t, channels) && Present(t, c) && p in Parents(t, c)
    ensures c in ChannelRows(t, channels)
  {
    if c.MessageRow? { MessageChild(t, channels, p, c.message); }
    hide ThreadsUnder;
  }

  lemma MessageChild(t: Tables, channels: set<Id>, p: Row, m: Id)
    requires p in ChannelRows(t, channels) && m in t.messages && p in Parents(t, MessageRow(m))
    ensures m in ThreadsUnder(t, channels)
  {
    if p.ChannelRow? {
      assert m in PostedIn(t.messages, channels);
    } else {
      ThreadEdgesContents(t.messages, m);
      assert (p.message, m).0 in ThreadsUnder(t, channels);
    }
  }

  /** DeleteChannel takes its members and messages, with the threads below them. */
  lemma ChannelCascade(t: Tables, c: Id)
    ensures Cascaded(t, {ChannelRow(c)}) == ChannelRows(t, {c})
  {
    ChannelRowsClosed(t, {c});
    assert ChannelRow(c) in ChannelRows(t, {c});
    ReachLeast(Edges(t), {ChannelRow(c)}, ChannelRows(t, {c}));
    ChannelRowsInside(t, Cascaded(t, {ChannelRow(c)}), {c});
  }

  function WsSeeds(ws: set<Id>): set<Row> { set w | w in ws :: WorkspaceRow(w) }

  /** Deleting workspaces takes their members, channels and channel members, the messages of those
      channels and all threads below them, and nothing else. */
  lemma WorkspaceCascade(t: Tables, ws: set<Id>)
    requires SeatKeys(t)
    ensures Cascaded(t, WsSeeds(ws)) == WorkspaceRows(t, ws)
  {
    WorkspaceRowsClosed(t, ws);
    ReachLeast(Edges(t), WsSeeds(ws), WorkspaceRows(t, ws));
    WorkspaceRowsInside(t, Cascaded(t, WsSeeds(ws)), ws);
  }

  lemma WorkspaceRowsClosed(t: Tables, ws: set<Id>)
    requires SeatKeys(t)
    ensures Closed(Edges(t), WorkspaceRows(t, ws))
  {
    hide ThreadsUnder, Parents, Rows;
    var rows := WorkspaceRows(t, ws);
    ChannelRowsClosed(t, ChannelsOf(t, ws));
    forall e | e in Edges(t) && e.0 in rows ensures e.1 in rows {
      EdgesContents(t, e.0, e.1);
      if e.0 in ChannelRows(t, ChannelsOf(t, ws)) {
        assert e.1 in ChannelRows(t, ChannelsOf(t, ws));
      } else {
        WorkspaceChild(t, ws, e.0, e.1);
      }
    }
  }

  lemma WorkspaceChild(t: Tables, ws: set<Id>, p: Row, c: Row)
    requires SeatKeys(t) && p in WorkspaceRows(t, ws) - ChannelRows(t, ChannelsOf(t, ws))
    requires Present(t, c) && p in Parents(t, c)
    ensures c in WorkspaceRows(t, ws)
  {
    hide ThreadsUnder;
  }

  lemma WorkspaceRowsInside(t: Tables, rows: set<Row>, ws: set<Id>)
    requires SeatKeys(t) && Closed(Edges(t), rows) && WsSeeds(ws) <= rows
    ensures WorkspaceRows(t, ws) <= rows
  {
    forall w | w in ws ensures WorkspaceRow(w) in rows { assert WorkspaceRow(w) in WsSeeds(ws); }
    forall k | k in t.members && k.ws in ws ensures MemberRow(k) in rows {
      ChildTaken(t, rows, WorkspaceRow(k.ws), MemberRow(k));
    }
    forall c | c in ChannelsOf(t, ws) ensures ChannelRow(c) in rows {
      ChildTaken(t, rows, WorkspaceRow(t.channels[c].ws), ChannelRow(c));
    }
    forall s | s in t.seats && t.seats[s] in ws ensures SeatRow(s) in rows {
      ChildTaken(t, rows, ChannelRow(s.channel), SeatRow(s));
    }
    ChannelRowsInside(t, rows, ChannelsOf(t, ws));
  }

  // ---------------------------------------------------------------- members and users

  /** RemoveWorkspaceMember takes exactly that membership and that user's channel memberships
      within that workspace. */
  lemma MemberCascade(t: Tables, k: Key)
    ensures Cascaded(t, {MemberRow(k)}) == MemberRows(t, k)
  {
    var rows := MemberRows(t, k);
    forall e | e in Edges(t) && e.0 in rows ensures e.1 in rows { EdgesContents(t, e.0, e.1); }
    ReachLeast(Edges(t), {MemberRow(k)}, rows);
    forall r | r in rows && r.SeatRow? ensures r in Cascaded(t, {MemberRow(k)}) {
      CascadeTakesChildren(t, {MemberRow(k)}, r, MemberRow(k));
    }
  }

  lemma UserRowsClosed(t: Tables, u: Id)
    requires SeatKeys(t)
    ensures Closed(Edges(t), UserRows(t, u))
  {
    hide Rows;
    forall e | e in Edges(t) && e.0 in UserRows(t, u) ensures e.1 in UserRows(t, u) {
      EdgesContents(t, e.0, e.1);
    }
  }

  /** Deleting a user row takes the user's identities, memberships and channel memberships. */
  lemma UserCascade(t: Tables, u: Id)
    requires SeatKeys(t)
    ensures Cascaded(t, {UserRow(u)}) == UserRows(t, u)
  {
    var rows := UserRows(t, u);
    UserRowsClosed(t, u);
    ReachLeast(Edges(t), {UserRow(u)}, rows);
    forall r | r in rows && r != UserRow(u) ensures r in Cascaded(t, {UserRow(u)}) {
      CascadeTakesChildren(t, {UserRow(u)}, r, UserRow(u));
    }
  }

  /** Deleting in two statements leaves what deleting all the rows at once leaves. */
  lemma PruneTwice(t: Tables, a: set<Row>, b: set<Row>)
    ensures Prune(Prune(t, a), b) == Prune(t, a + b)
  {
    StripTwice(t, a, b);
    assert MessagesIn(a + b) == MessagesIn(a) + MessagesIn(b);
    WithoutTwice(t.messages, MessagesIn(a), MessagesIn(b));
    assert Strip(Prune(t, a), b).(messages := map[]) == Strip(Strip(t, a), b).(messages := map[]);
  }

  lemma LossesAdd(msgs: map<Id, Message>, a: set<Id>, b: set<Id>, m: Id)
    ensures |Replies(msgs, m) * (a + b)| == |Replies(msgs, m) * a| + |Replies(Without(msgs, a), m) * b|
  {
    assert Replies(Without(msgs, a), m) == Replies(msgs, m) - a;
    assert Replies(msgs, m) * (a + b) == (Replies(msgs, m) * a) + ((Replies(msgs, m) - a) * b);
  }

  lemma WithoutTwice(msgs: map<Id, Message>, a: set<Id>, b: set<Id>)
    ensures Without(Without(msgs, a), b) == Without(msgs, a + b)
  {
    var two, one := Without(Without(msgs, a), b), Without(msgs, a + b);
    assert two.Keys == one.Keys;
    forall m | m in one ensures two[m] == one[m] {
      LossesAdd(msgs, a, b, m);
    }
  }
}
