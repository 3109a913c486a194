/** The least set of rows closed under a finite relation: what a delete cascade removes. */
module Reachability {

  ghost predicate Closed<K(!new)>(edges: set<(K, K)>, s: set<K>) {
    forall e | e in edges && e.0 in s :: e.1 in s
  }

  /** seeds and everything edges lead to from them. */
  ghost function Reach<K(!new)>(edges: set<(K, K)>, seeds: set<K>): (r: set<K>)
    ensures seeds <= r
    ensures Closed(edges, r)
    decreases |set e | e in edges && e.1 !in seeds|
  {
    var more := set e | e in edges && e.0 in seeds :: e.1;
    if more <= seeds then
      assert forall e | e in edges && e.0 in seeds :: e.1 in more;
      seeds
    else
      FewerOutside(edges, seeds, more);
      Reach(edges, seeds + more)
  }

  lemma FewerOutside<K(!new)>(edges: set<(K, K)>, s: set<K>, more: set<K>)
    requires more == (set e | e in edges && e.0 in s :: e.1) && !(more <= s)
    ensures |set e | e in edges && e.1 !in s + more| < |set e | e in edges && e.1 !in s|
  {
    var x :| x in more && x !in s;
    var e :| e in edges && e.0 in s && e.1 == x;
    var small, large := set e | e in edges && e.1 !in s + more, set e | e in edges && e.1 !in s;
    assert e in large && e !in small && small <= large;
    ProperSubset(small, large, e);
  }

  lemma ProperSubset<T>(small: set<T>, large: set<T>, x: T)
    requires small <= large && x in large && x !in small
    ensures |small| < |large|
  {
    Cardinality(small, large - {x});
  }

  lemma {:induction false} Cardinality<T>(a: set<T>, b: set<T>)
    requires a <= b
    ensures |a| <= |b|
  {
    if a != {} {
      var x :| x in a;
      Cardinality(a - {x}, b - {x});
    }
  }

  /** Reach is below every closed set that contains the seeds. */
  lemma {:induction false} ReachLeast<K(!new)>(edges: set<(K, K)>, seeds: set<K>, c: set<K>)
    requires seeds <= c && Closed(edges, c)
    ensures Reach(edges, seeds) <= c
    decreases |set e | e in edges && e.1 !in seeds|
  {
    var more := set e | e in edges && e.0 in seeds :: e.1;
    if !(more <= seeds) {
      FewerOutside(edges, seeds, more);
      ReachLeast(edges, seeds + more, c);
    }
  }

  lemma ReachMonotone<K(!new)>(edges: set<(K, K)>, seeds: set<K>, edges': set<(K, K)>, seeds': set<K>)
    requires edges <= edges' && seeds <= seeds'
    ensures Reach(edges, seeds) <= Reach(edges', seeds')
  {
    ReachLeast(edges, seeds, Reach(edges', seeds'));
  }

  /** A set is the reach of seeds exactly when it contains them, is closed, and is grounded in them. */
  lemma ReachUnique<K(!new)>(edges: set<(K, K)>, seeds: set<K>, s: set<K>, within: set<(K, K)>, from: set<K>)
    requires seeds <= s && Closed(edges, s)
    requires within <= edges && from <= seeds && s <= Reach(within, from)
    ensures s == Reach(edges, seeds)
  {
    ReachLeast(edges, seeds, s);
    ReachMonotone(within, from, edges, seeds);
  }

  /** Cascading from two sets of rows at once removes what cascading from each removes. */
  lemma ReachUnion<K(!new)>(edges: set<(K, K)>, a: set<K>, b: set<K>)
    ensures Reach(edges, a + b) == Reach(edges, a) + Reach(edges, b)
  {
    ReachLeast(edges, a + b, Reach(edges, a) + Reach(edges, b));
    ReachMonotone(edges, a, edges, a + b);
    ReachMonotone(edges, b, edges, a + b);
  }

  /** A path from a seed, edge by edge. */
  ghost predicate IsPath<K(!new)>(edges: set<(K, K)>, seeds: set<K>, path: seq<K>) {
    && path != []
    && path[0] in seeds
    && forall i | 0 < i < |path| :: (path[i - 1], path[i]) in edges
  }

  ghost predicate HasPath<K(!new)>(edges: set<(K, K)>, seeds: set<K>, x: K) {
    exists path :: IsPath(edges, seeds, path) && path[|path| - 1] == x
  }

  lemma {:induction false} PathStaysInside<K(!new)>(edges: set<(K, K)>, seeds: set<K>, path: seq<K>)
    requires IsPath(edges, seeds, path)
    ensures path[|path| - 1] in Reach(edges, seeds)
  {
    if |path| > 1 {
      var front := path[..|path| - 1];
      PathStaysInside(edges, seeds, front);
      assert (front[|front| - 1], path[|path| - 1]) in edges;
    }
  }

  lemma ExtendPath<K(!new)>(edges: set<(K, K)>, seeds: set<K>, path: seq<K>, x: K)
    requires IsPath(edges, seeds, path) && (path[|path| - 1], x) in edges
    ensures IsPath(edges, seeds, path + [x])
  {
  }

  /** The closure is exactly what finite chains of edges from the seeds lead to. */
  lemma ReachIsPaths<K(!new)>(edges: set<(K, K)>, seeds: set<K>, x: K)
    ensures x in Reach(edges, seeds) <==> HasPath(edges, seeds, x)
  {
    if HasPath(edges, seeds, x) {
      var path :| IsPath(edges, seeds, path) && path[|path| - 1] == x;
      PathStaysInside(edges, seeds, path);
    }
    var r := Reach(edges, seeds);
    var s := set y | y in r && HasPath(edges, seeds, y);
    forall y | y in seeds ensures y in s {
      assert IsPath(edges, seeds, [y]);
    }
    forall e | e in edges && e.0 in s ensures e.1 in s {
      var path :| IsPath(edges, seeds, path) && path[|path| - 1] == e.0;
      ExtendPath(edges, seeds, path, e.1);
      assert (path + [e.1])[|path|] == e.1;
    }
    ReachLeast(edges, seeds, s);
  }
}
