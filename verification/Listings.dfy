/** Ordered listings, LIMIT/OFFSET pages, conversations and threads. */
module Listings {
  import opened Base
  import opened Entities
  import opened Schema

  // ---------------------------------------------------------------- ordering and paging

  /** s lists ids once each, highest rank first: what ORDER BY ... DESC may return. Rows of equal rank
      may come in any order, and in a different one each time. */
  ghost predicate IsListing(rank: map<Id, int>, ids: set<Id>, s: seq<Id>) {
    && ids <= rank.Keys
    && (forall i | 0 <= i < |s| :: s[i] in ids)
    && (forall x | x in ids :: x in s)
    && (forall i, j | 0 <= i < j < |s| :: s[i] != s[j])
    && (forall i, j | 0 <= i < j < |s| :: s[i] in rank && s[j] in rank && rank[s[i]] >= rank[s[j]])
  }

  function Page(s: seq<Id>, limit: nat, offset: nat): seq<Id> {
    var from := if offset <= |s| then offset else |s|;
    var to := if offset + limit <= |s| then offset + limit else |s|;
    s[from..to]
  }

  /** The page is what LIMIT and OFFSET cut out of the listing: it begins with the row after the first
      offset ones and has limit rows, or as many as are left. */
  predicate IsPartOf(page: seq<Id>, s: seq<Id>, limit: nat, offset: nat) {
    && |page| == (if |s| <= offset then 0 else if |s| - offset <= limit then |s| - offset else limit)
    && forall i | 0 <= i < |page| :: page[i] == s[offset + i]
  }

  lemma PageIsPart(s: seq<Id>, limit: nat, offset: nat)
    ensures IsPartOf(Page(s, limit, offset), s, limit, offset)
  {
  }

  /** No two of the listed rows have the same rank. */
  ghost predicate Distinct(rank: map<Id, int>, ids: set<Id>) {
    forall x, y | x in ids && y in ids && x in rank && y in rank && rank[x] == rank[y] :: x == y
  }

  lemma ExtendListing(rank: map<Id, int>, done: set<Id>, s: seq<Id>, x: Id)
    requires IsListing(rank, done, s) && x in rank && x !in done
    requires forall y | y in done :: rank[y] >= rank[x]
    ensures IsListing(rank, done + {x}, s + [x])
  {
    var s' := s + [x];
    forall y | y in done + {x} ensures y in s' {
      if y == x { assert s'[|s|] == x; }
    }
  }

  method Sort(rank: map<Id, int>, ids: set<Id>) returns (s: seq<Id>)
    requires ids <= rank.Keys
    ensures IsListing(rank, ids, s)
  {
    s := [];
    var rest := ids;
    while rest != {}
      invariant rest <= ids
      invariant IsListing(rank, ids - rest, s)
      invariant forall x, y | x in ids - rest && y in rest :: rank[x] >= rank[y]
      decreases rest
    {
      var x := Highest(rank, rest);
      ExtendListing(rank, ids - rest, s, x);
      s := s + [x];
      assert ids - (rest - {x}) == (ids - rest) + {x};
      rest := rest - {x};
    }
    assert ids - rest == ids;
  }

  method Highest(rank: map<Id, int>, ids: set<Id>) returns (x: Id)
    requires ids <= rank.Keys && ids != {}
    ensures x in ids && forall y | y in ids :: rank[x] >= rank[y]
  {
    x :| x in ids;
    var rest := ids - {x};
    while rest != {}
      invariant x in ids && rest <= ids
      invariant forall y | y in ids && y !in rest :: rank[x] >= rank[y]
      decreases rest
    {
      var y :| y in rest;
      rest := rest - {y};
      if rank[y] > rank[x] { x := y; }
    }
  }

  lemma {:induction false} SomeListing(rank: map<Id, int>, ids: set<Id>) returns (s: seq<Id>)
    requires ids <= rank.Keys
    ensures IsListing(rank, ids, s)
  {
    if ids == {} {
      s := [];
    } else {
      var x := SomeLowest(rank, ids);
      s := SomeListing(rank, ids - {x});
      ExtendListing(rank, ids - {x}, s, x);
      assert ids - {x} + {x} == ids;
      s := s + [x];
    }
  }

  lemma {:induction false} SomeLowest(rank: map<Id, int>, ids: set<Id>) returns (x: Id)
    requires ids <= rank.Keys && ids != {}
    ensures x in ids && forall y | y in ids :: rank[y] >= rank[x]
  {
    x :| x in ids;
    if ids != {x} {
      var y := SomeLowest(rank, ids - {x});
      if rank[y] < rank[x] { x := y; }
    }
  }

  /** Where two listings have agreed so far, neither goes on with a lower rank than the other. */
  lemma NotLower(rank: map<Id, int>, ids: set<Id>, s: seq<Id>, s': seq<Id>, i: nat)
    requires IsListing(rank, ids, s) && IsListing(rank, ids, s')
    requires i < |s| && i < |s'| && s[..i] == s'[..i]
    ensures s[i] in ids && s'[i] in ids && rank[s'[i]] >= rank[s[i]]
  {
    forall k | 0 <= k < i ensures s'[k] != s[i] { assert s[..i][k] == s'[..i][k]; }
    var j :| 0 <= j < |s'| && s'[j] == s[i];
    assert i <= j;
  }

  lemma {:induction false} ListingsAgree(rank: map<Id, int>, ids: set<Id>, s: seq<Id>, s': seq<Id>, n: nat)
    requires Distinct(rank, ids) && IsListing(rank, ids, s) && IsListing(rank, ids, s')
    requires n <= |s| && n <= |s'|
    ensures s[..n] == s'[..n]
  {
    if n > 0 {
      var i := n - 1;
      ListingsAgree(rank, ids, s, s', i);
      NotLower(rank, ids, s, s', i);
      NotLower(rank, ids, s', s, i);
      assert s[..n] == s[..i] + [s[i]] && s'[..n] == s'[..i] + [s'[i]];
    }
  }

  /** With distinct ranks there is only one listing. */
  lemma ListingUnique(rank: map<Id, int>, ids: set<Id>, s: seq<Id>, s': seq<Id>)
    requires Distinct(rank, ids) && IsListing(rank, ids, s) && IsListing(rank, ids, s')
    ensures s == s'
  {
    ListingLength(rank, ids, s);
    ListingLength(rank, ids, s');
    ListingsAgree(rank, ids, s, s', |s|);
    assert s[..|s|] == s && s'[..|s'|] == s';
  }

  /** Fetching two consecutive pages gives what fetching them as one page gives, however the
      database orders ties on each of the three calls. */
  ghost predicate PagesAlwaysTile(rank: map<Id, int>, ids: set<Id>) {
    forall s, s', s'', limit, limit', offset |
      IsListing(rank, ids, s) && IsListing(rank, ids, s') && IsListing(rank, ids, s'') ::
      Tile(s, s', s'', limit, limit', offset)
  }

  predicate Tile(s: seq<Id>, s': seq<Id>, s'': seq<Id>, limit: nat, limit': nat, offset: nat) {
    Page(s, limit, offset) + Page(s', limit', offset + limit) == Page(s'', limit + limit', offset)
  }

  lemma PagesOfOneListing(s: seq<Id>, limit: nat, limit': nat, offset: nat)
    ensures Tile(s, s, s, limit, limit', offset)
  {
  }

  lemma SwapTie(rank: map<Id, int>, ids: set<Id>, s: seq<Id>, i: nat)
    requires IsListing(rank, ids, s) && i + 1 < |s| && rank[s[i]] == rank[s[i + 1]]
    ensures IsListing(rank, ids, s[i := s[i + 1]][i + 1 := s[i]])
  {
    var s' := s[i := s[i + 1]][i + 1 := s[i]];
    forall x | x in ids ensures x in s' {
      var k :| 0 <= k < |s| && s[k] == x;
      assert s'[if k == i then i + 1 else if k == i + 1 then i else k] == x;
    }
  }

  /** Paging by created_at never repeats and never skips a message exactly when no two messages of
      the listing were created at the same time. */
  lemma PagesTileIffDistinct(rank: map<Id, int>, ids: set<Id>)
    requires ids <= rank.Keys
    ensures PagesAlwaysTile(rank, ids) <==> Distinct(rank, ids)
  {
    if Distinct(rank, ids) {
      forall s, s', s'', limit, limit', offset |
        IsListing(rank, ids, s) && IsListing(rank, ids, s') && IsListing(rank, ids, s'')
        ensures Tile(s, s', s'', limit, limit', offset)
      {
        ListingUnique(rank, ids, s, s');
        ListingUnique(rank, ids, s, s'');
        PagesOfOneListing(s, limit, limit', offset);
      }
    } else {
      var s, i := SomeTie(rank, ids);
      var s' := s[i := s[i + 1]][i + 1 := s[i]];
      SwapTie(rank, ids, s, i);
      assert Page(s, 1, i) == [s[i]] && Page(s', 1, i + 1) == [s[i]] && Page(s, 2, i) == [s[i], s[i + 1]];
      assert !Tile(s, s', s, 1, 1, i);
    }
  }

  lemma SomeTie(rank: map<Id, int>, ids: set<Id>) returns (s: seq<Id>, i: nat)
    requires ids <= rank.Keys && !Distinct(rank, ids)
    ensures IsListing(rank, ids, s) && i + 1 < |s| && rank[s[i]] == rank[s[i + 1]]
  {
    var x, y :| x in ids && y in ids && rank[x] == rank[y] && x != y;
    s := SomeListing(rank, ids);
    var j :| 0 <= j < |s| && s[j] == x;
    var k :| 0 <= k < |s| && s[k] == y;
    i := if j < k then j else k;
    assert rank[s[i]] >= rank[s[i + 1]] >= rank[s[if j < k then k else j]];
  }

  // ---------------------------------------------------------------- direct conversations

  function Lesser(a: Id, b: Id): Id { if a <= b then a else b }
  function Greater(a: Id, b: Id): Id { if a <= b then b else a }

  /** The indexed filter of ListDirectMessagesBetween. */
  predicate InConversation(d: Direct, a: Id, b: Id) {
    Lesser(d.author, d.recipient) == Lesser(a, b) && Greater(d.author, d.recipient) == Greater(a, b)
  }

  /** One of the two sent it to the other. */
  predicate Between(d: Direct, a: Id, b: Id) {
    (d.author == a && d.recipient == b) || (d.author == b && d.recipient == a)
  }

  /** The filter finds exactly the messages one of the two sent to the other. */
  lemma ConversationIff(d: Direct, a: Id, b: Id)
    ensures InConversation(d, a, b) <==> Between(d, a, b)
  {
  }

  function Conversation(t: Tables, a: Id, b: Id): set<Id> {
    set d | d in t.directs && InConversation(t.directs[d], a, b)
  }

  /** Conversations of distinct users divide all stored messages: every message is in one of them,
      the order of the two users does not matter, and different pairs share none. */
  lemma ConversationsPartition(t: Tables, d: Id)
    requires NobodyWritesToThemselves(t) && d in t.directs
    ensures exists a, b :: a != b && d in Conversation(t, a, b)
    ensures forall a, b :: Conversation(t, a, b) == Conversation(t, b, a)
    ensures forall a, b, x, y | d in Conversation(t, a, b) && d in Conversation(t, x, y) :: {a, b} == {x, y}
  {
    assert d in Conversation(t, t.directs[d].author, t.directs[d].recipient);
    forall a, b, x, y | d in Conversation(t, a, b) && d in Conversation(t, x, y) ensures {a, b} == {x, y} {
      ConversationIff(t.directs[d], a, b);
      ConversationIff(t.directs[d], x, y);
    }
  }

  function DirectRank(t: Tables): map<Id, int> { map d | d in t.directs :: t.directs[d].createdAt }

  // ---------------------------------------------------------------- channel listings

  /** WHERE channel_id = c AND thread_root_id IS NULL. */
  function TopLevel(t: Tables, c: Id): set<Id> {
    set m | m in t.messages && t.messages[m].channel == c && t.messages[m].root == None
  }

  function NewestFirst(t: Tables): map<Id, int> { map m | m in t.messages :: t.messages[m].createdAt }
  function OldestFirst(t: Tables): map<Id, int> { map m | m in t.messages :: Negated(t.messages[m].createdAt) }
  function Negated(time: nat): int { 0 - time as int }

  /** s has each message of the channel that is no reply, once, the newest first. */
  ghost predicate ChannelListing(t: Tables, c: Id, s: seq<Id>) {
    && (forall m :: m in s <==> m in t.messages && t.messages[m].channel == c && t.messages[m].root == None)
    && (forall i, j | 0 <= i < j < |s| ::
          s[i] != s[j] && t.messages[s[i]].createdAt >= t.messages[s[j]].createdAt)
  }

  /** s has each reply to the root, once, the oldest first. */
  ghost predicate ThreadListing(t: Tables, root: Id, s: seq<Id>) {
    && (forall m :: m in s <==> m in t.messages && t.messages[m].root == Some(root))
    && (forall i, j | 0 <= i < j < |s| ::
          s[i] != s[j] && t.messages[s[i]].createdAt <= t.messages[s[j]].createdAt)
  }

  /** s has each message one of the two sent to the other, once, the newest first. */
  ghost predicate DirectListing(t: Tables, a: Id, b: Id, s: seq<Id>) {
    && (forall d :: d in s <==> d in t.directs && Between(t.directs[d], a, b))
    && (forall i, j | 0 <= i < j < |s| :: s[i] != s[j] && t.directs[s[i]].createdAt >= t.directs[s[j]].createdAt)
  }

  /** The ranks put channel pages, threads and conversations in the order the queries ask for. */
  lemma RanksOrder(t: Tables, c: Id, root: Id, a: Id, b: Id, s: seq<Id>)
    ensures IsListing(NewestFirst(t), TopLevel(t, c), s) <==> ChannelListing(t, c, s)
    ensures IsListing(OldestFirst(t), Replies(t.messages, root), s) <==> ThreadListing(t, root, s)
    ensures IsListing(DirectRank(t), Conversation(t, a, b), s) <==> DirectListing(t, a, b, s)
  {
    ChannelListingIs(t, c, s);
    ThreadListingIs(t, root, s);
    DirectListingIs(t, a, b, s);
  }

  lemma ChannelListingIs(t: Tables, c: Id, s: seq<Id>)
    ensures IsListing(NewestFirst(t), TopLevel(t, c), s) <==> ChannelListing(t, c, s)
  {
    assert forall m :: m in TopLevel(t, c) <==>
        m in t.messages && t.messages[m].channel == c && t.messages[m].root == None;
    assert forall i | 0 <= i < |s| :: s[i] in s;
    hide TopLevel;
  }

  lemma ThreadListingIs(t: Tables, root: Id, s: seq<Id>)
    ensures IsListing(OldestFirst(t), Replies(t.messages, root), s) <==> ThreadListing(t, root, s)
  {
    assert forall m :: m in Replies(t.messages, root) <==> m in t.messages && t.messages[m].root == Some(root);
    assert forall i | 0 <= i < |s| :: s[i] in s;
    hide Replies;
  }

  lemma DirectListingIs(t: Tables, a: Id, b: Id, s: seq<Id>)
    ensures IsListing(DirectRank(t), Conversation(t, a, b), s) <==> DirectListing(t, a, b, s)
  {
    forall d ensures d in Conversation(t, a, b) <==> d in t.directs && Between(t.directs[d], a, b) {
      if d in t.directs { ConversationIff(t.directs[d], a, b); }
    }
    assert forall i | 0 <= i < |s| :: s[i] in s;
    hide Conversation;
  }

  /** Every message is in exactly one listing: its channel's top-level list, or the replies of its
      root, which is itself a stored message. No reply is ever in a channel page. */
  lemma ListedExactlyOnce(t: Tables, m: Id)
    requires MessageKeys(t) && m in t.messages
    ensures t.messages[m].root == None ==>
              && m in TopLevel(t, t.messages[m].channel)
              && (forall c | m in TopLevel(t, c) :: c == t.messages[m].channel)
              && (forall r :: m !in Replies(t.messages, r))
    ensures t.messages[m].root.Some? ==>
              && t.messages[m].root.value in t.messages
              && m in Replies(t.messages, t.messages[m].root.value)
              && (forall r | m in Replies(t.messages, r) :: r == t.messages[m].root.value)
              && (forall c :: m !in TopLevel(t, c))
  {
  }

  lemma {:induction false} ListingLength(rank: map<Id, int>, ids: set<Id>, s: seq<Id>)
    requires IsListing(rank, ids, s)
    ensures |s| == |ids|
  {
    if s != [] {
      var last := s[|s| - 1];
      var front := s[..|s| - 1];
      forall x | x in ids - {last} ensures x in front {
        var k :| 0 <= k < |s| && s[k] == x;
        assert front[k] == x;
      }
      ListingLength(rank, ids - {last}, front);
    }
  }
}
