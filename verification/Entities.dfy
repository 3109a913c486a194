/** Rows that more than one model talks about, and the thread structure of channel messages. */
module Entities {
  import opened Base

  datatype Role = Owner | Member

  /** Primary key of workspace_members. */
  datatype Key = Key(ws: Id, user: Id)

  /** A row of channel_messages; root is thread_root_id, count is reply_count. */
  datatype Message = Message(author: Id, channel: Id, body: string, root: Option<Id>, count: int,
                             createdAt: nat, updatedAt: nat)

  function Replies(msgs: map<Id, Message>, m: Id): set<Id> {
    set r | r in msgs && msgs[r].root == Some(m)
  }

  function PostedIn(msgs: map<Id, Message>, channels: set<Id>): set<Id> {
    set m | m in msgs && msgs[m].channel in channels
  }

  /** From each thread root to its replies: the edges ON DELETE CASCADE follows. */
  function ThreadEdges(msgs: map<Id, Message>): set<(Id, Id)> {
    set r | r in msgs && msgs[r].root.Some? :: (msgs[r].root.value, r)
  }

  /** Every reply_count is the number of rows that name the message as their root. */
  ghost predicate CountsOk(msgs: map<Id, Message>) {
    forall m | m in msgs :: msgs[m].count == |Replies(msgs, m)|
  }

  /** The messages that are left when gone are deleted, each root with as many replies fewer as it loses. */
  function Without(msgs: map<Id, Message>, gone: set<Id>): map<Id, Message> {
    map m | m in msgs && m !in gone :: msgs[m].(count := msgs[m].count - |Replies(msgs, m) * gone|)
  }

  /** The messages after id is posted: a reply adds one to its root. */
  function Posted(msgs: map<Id, Message>, id: Id, msg: Message): map<Id, Message>
    requires msg.root.Some? ==> msg.root.value in msgs
  {
    if msg.root.None? then msgs[id := msg]
    else
      var r := msg.root.value;
      msgs[id := msg][r := msgs[r].(count := msgs[r].count + 1)]
  }

  /** Deleted replies of m whose decrement trigger has run; decs are the ones still to be run. */
  function Counted(msgs: map<Id, Message>, gone: set<Id>, decs: map<Id, Id>, m: Id): set<Id> {
    set d | d in Replies(msgs, m) && d in gone && d !in decs
  }

  lemma ThreadEdgesContents(msgs: map<Id, Message>, r: Id)
    requires r in msgs && msgs[r].root.Some?
    ensures (msgs[r].root.value, r) in ThreadEdges(msgs)
  {
  }

  lemma RepliesAfterPut(msgs: map<Id, Message>, id: Id, m: Message, x: Id)
    requires id !in msgs
    ensures Replies(msgs[id := m], x) == Replies(msgs, x) + (if m.root == Some(x) then {id} else {})
  {
  }

  lemma RepliesSameRoots(msgs: map<Id, Message>, msgs': map<Id, Message>, x: Id)
    requires msgs.Keys == msgs'.Keys && forall m | m in msgs :: msgs'[m].root == msgs[m].root
    ensures Replies(msgs', x) == Replies(msgs, x)
  {
  }

  lemma WithoutNothing(msgs: map<Id, Message>)
    ensures Without(msgs, {}) == msgs
  {
    assert forall m | m in msgs :: Replies(msgs, m) * {} == {};
  }

  lemma RepliesLeft(msgs: map<Id, Message>, gone: set<Id>, m: Id)
    ensures |Replies(Without(msgs, gone), m)| == |Replies(msgs, m)| - |Replies(msgs, m) * gone|
  {
    assert Replies(Without(msgs, gone), m) == Replies(msgs, m) - gone;
    assert Replies(msgs, m) == (Replies(msgs, m) - gone) + (Replies(msgs, m) * gone);
  }

  /** Deleting any messages, in whatever company of their replies, keeps every surviving count exact. */
  lemma WithoutKeepsCounts(msgs: map<Id, Message>, gone: set<Id>)
    requires CountsOk(msgs)
    ensures CountsOk(Without(msgs, gone))
  {
    var left := Without(msgs, gone);
    forall m | m in left ensures left[m].count == |Replies(left, m)| {
      RepliesLeft(msgs, gone, m);
    }
  }

  lemma PostedKeepsCounts(msgs: map<Id, Message>, id: Id, msg: Message)
    requires CountsOk(msgs) && id !in msgs && msg.count == 0
    requires msg.root.Some? ==> msg.root.value in msgs
    requires forall m | m in msgs :: msgs[m].root != Some(id)
    ensures CountsOk(Posted(msgs, id, msg))
  {
    var msgs' := Posted(msgs, id, msg);
    forall m | m in msgs' ensures msgs'[m].count == |Replies(msgs', m)| {
      RepliesAfterPut(msgs, id, msg, m);
      RepliesSameRoots(msgs[id := msg], msgs', m);
      if m == id { assert Replies(msgs, m) == {}; }
    }
  }

  /** A message is never re-rooted, so its position in its thread can be ranked by arrival. */
  predicate Ranks(msgs: map<Id, Message>, rank: map<Id, nat>) {
    forall m | m in msgs && msgs[m].root.Some? && msgs[m].root.value in msgs ::
      m in rank && msgs[m].root.value in rank && rank[msgs[m].root.value] < rank[m]
  }

  /** Thread links never form a cycle. */
  ghost predicate Forest(msgs: map<Id, Message>) {
    exists rank :: Ranks(msgs, rank)
  }
}
