/** Every run of the membership model, reads included, is one after the other: its finished calls can
    be put in an order, each at a moment while it was open, in which every answer is exact. */
module OwnershipOrder {
  import opened OwnershipModel
  import opened OwnershipTheorems
  import opened OwnershipListings

  /** A finished call: the state it is placed at, the step it finished in, its entry in the log. */
  datatype Placed = Placed(at: nat, step: nat, event: Event)

  function Events(order: seq<Placed>): seq<Event> {
    seq(|order|, i requires 0 <= i < |order| => order[i].event)
  }

  /** The call finished in that step with that answer, and was open from the state it is placed at. */
  ghost predicate Happened(ss: seq<State>, ls: seq<Label>, x: Placed)
    requires |ss| == |ls| + 1
  {
    && x.at <= x.step < |ls| && ls[x.step].Act?
    && ss[x.step + 1].log == ss[x.step].log + [x.event]
    && forall i | x.at <= i <= x.step :: ls[x.step].t in ss[i].txs && ss[i].txs[ls[x.step].t].op == x.event.op
  }

  /** All calls finished by state n, each once, in the order of the states they are placed at. */
  ghost predicate AllPlaced(ss: seq<State>, ls: seq<Label>, n: nat, order: seq<Placed>)
    requires |ss| == |ls| + 1 && n <= |ls|
  {
    && |order| == |ss[n].log|
    && (forall q | 0 <= q < |order| :: order[q].step < n && Happened(ss, ls, order[q]))
    && (forall q, r | 0 <= q < r < |order| :: order[q].at <= order[r].at && order[q].step != order[r].step)
  }

  /** Each call answers what it answers alone on the tables the calls before it leave. */
  ghost predicate Exact(order: seq<Placed>) {
    forall q | 0 <= q < |order| :: order[q].event.outcome == Verdict(order[q].event.op, Replay(Events(order[..q])))
  }

  /** cut[i] calls are placed before state i. */
  ghost predicate Counts(n: nat, order: seq<Placed>, cut: seq<nat>) {
    && |cut| == n + 1 && cut[n] == |order|
    && (forall i | 0 <= i <= n :: cut[i] <= |order|)
    && (forall i, q | 0 <= i <= n && 0 <= q < |order| :: q < cut[i] <==> order[q].at < i)
  }

  /** They leave its tables. */
  ghost predicate Cuts(ss: seq<State>, n: nat, order: seq<Placed>, cut: seq<nat>)
    requires n < |ss|
  {
    && Counts(n, order, cut)
    && forall i | 0 <= i <= n :: Replay(Events(order[..cut[i]])) == ss[i].db
  }

  function Insert(order: seq<Placed>, p: nat, x: Placed): seq<Placed>
    requires p <= |order|
  {
    order[..p] + [x] + order[p..]
  }

  lemma ReplayOneMore(order: seq<Placed>, x: Placed)
    ensures Replay(Events(order + [x])) == Effect(x.event.op, Replay(Events(order)))
  {
    assert Events(order + [x])[..|order|] == Events(order);
  }

  /** A read changes no table, so it may be put anywhere. */
  lemma {:induction false} ReadsLeaveNoTrace(order: seq<Placed>, p: nat, x: Placed, q: nat)
    requires p <= q <= |order| && x.event.op.Read?
    ensures Replay(Events(Insert(order, p, x)[..q + 1])) == Replay(Events(order[..q]))
  {
    var order' := Insert(order, p, x);
    if q == p {
      assert order'[..q + 1] == order[..p] + [x];
      ReplayOneMore(order[..p], x);
    } else {
      ReadsLeaveNoTrace(order, p, x, q - 1);
      assert order'[..q + 1] == order'[..q] + [order[q - 1]];
      assert order[..q] == order[..q - 1] + [order[q - 1]];
      ReplayOneMore(order'[..q], order[q - 1]);
      ReplayOneMore(order[..q - 1], order[q - 1]);
    }
  }

  lemma InsertKeepsExact(order: seq<Placed>, p: nat, x: Placed)
    requires Exact(order) && p <= |order| && (p == |order| || x.event.op.Read?)
    requires x.event.outcome == Verdict(x.event.op, Replay(Events(order[..p])))
    ensures Exact(Insert(order, p, x))
  {
    hide Verdict, Replay, Events;
    var order' := Insert(order, p, x);
    forall q | 0 <= q < |order'|
      ensures order'[q].event.outcome == Verdict(order'[q].event.op, Replay(Events(order'[..q])))
    {
      if q <= p {
        assert order'[..q] == order[..q];
      } else {
        ReadsLeaveNoTrace(order, p, x, q - 1);
        assert order'[q] == order[q - 1];
      }
    }
  }

  lemma InsertKeepsPlaced(ss: seq<State>, ls: seq<Label>, n: nat, order: seq<Placed>, p: nat, x: Placed)
    requires |ss| == |ls| + 1 && n < |ls| && AllPlaced(ss, ls, n, order) && p <= |order|
    requires forall q | 0 <= q < |order| :: q < p <==> order[q].at < x.at
    requires x.step == n && Happened(ss, ls, x)
    ensures AllPlaced(ss, ls, n + 1, Insert(order, p, x))
  {
    hide Happened;
    HappenedGrows(ss, ls, x);
    assert |ss[n + 1].log| == |ss[n].log| + 1;
    var order' := Insert(order, p, x);
    assert forall q | 0 <= q < |order'| ::
        order'[q] == if q < p then order[q] else if q == p then x else order[q - 1];
  }

  lemma HappenedGrows(ss: seq<State>, ls: seq<Label>, x: Placed)
    requires |ss| == |ls| + 1 && Happened(ss, ls, x)
    ensures x.step < |ls| && ss[x.step + 1].log == ss[x.step].log + [x.event]
  {
  }

  function CutAfter(cut: seq<nat>, k: nat, size: nat): seq<nat> {
    seq(|cut|, i requires 0 <= i < |cut| => if i <= k then cut[i] else cut[i] + 1) + [size]
  }

  lemma CountsGrow(n: nat, order: seq<Placed>, cut: seq<nat>, i: nat, j: nat)
    requires Counts(n, order, cut) && i <= j <= n
    ensures cut[i] <= cut[j] <= |order|
  {
    assert cut[i] > 0 ==> order[cut[i] - 1].at < i;
  }

  lemma InsertKeepsCounts(n: nat, order: seq<Placed>, cut: seq<nat>, x: Placed)
    requires Counts(n, order, cut) && x.at <= n
    requires forall q | 0 <= q < |order| :: order[q].at <= n
    ensures Counts(n + 1, Insert(order, cut[x.at], x), CutAfter(cut, x.at, |order| + 1))
  {
    var p := cut[x.at];
    var order', cut' := Insert(order, p, x), CutAfter(cut, x.at, |order| + 1);
    forall i, q | 0 <= i <= n + 1 && 0 <= q < |order'| ensures q < cut'[i] <==> order'[q].at < i {
      if q < p {
        assert order'[q] == order[q];
      } else if q > p {
        assert order'[q] == order[q - 1];
      }
      if i <= n { CountsGrow(n, order, cut, if i <= x.at then i else x.at, if i <= x.at then x.at else i); }
    }
  }

  lemma TablesBefore(ss: seq<State>, n: nat, order: seq<Placed>, cut: seq<nat>, x: Placed, i: nat)
    requires n + 1 < |ss| && Cuts(ss, n, order, cut) && x.at <= n && i <= n + 1
    requires ss[n + 1].db == Effect(x.event.op, ss[n].db)
    requires x.at == n || (x.event.op.Read? && ss[n + 1].db == ss[n].db)
    ensures var order', c := Insert(order, cut[x.at], x), CutAfter(cut, x.at, |order| + 1)[i];
            c <= |order'| && Replay(Events(order'[..c])) == ss[i].db
  {
    hide Replay, Effect, Events;
    var p := cut[x.at];
    var order' := Insert(order, p, x);
    assert order[..cut[n]] == order == order[..|order|];
    if i <= x.at {
      CountsGrow(n, order, cut, i, x.at);
      assert order'[..cut[i]] == order[..cut[i]];
    } else if x.at < n {
      CountsGrow(n, order, cut, x.at, if i <= n then i else n);
      ReadsLeaveNoTrace(order, p, x, if i <= n then cut[i] else |order|);
    } else {
      assert order' == order + [x] && order'[..|order| + 1] == order';
      ReplayOneMore(order, x);
    }
  }

  lemma InsertKeepsCuts(ss: seq<State>, n: nat, order: seq<Placed>, cut: seq<nat>, x: Placed)
    requires n + 1 < |ss| && Cuts(ss, n, order, cut) && x.at <= n
    requires ss[n + 1].db == Effect(x.event.op, ss[n].db)
    requires x.at == n || (x.event.op.Read? && ss[n + 1].db == ss[n].db)
    requires forall q | 0 <= q < |order| :: order[q].at <= n
    ensures Cuts(ss, n + 1, Insert(order, cut[x.at], x), CutAfter(cut, x.at, |order| + 1))
  {
    hide Replay, Effect, Events, Insert;
    InsertKeepsCounts(n, order, cut, x);
    forall i: nat | i <= n + 1
      ensures var order', c := Insert(order, cut[x.at], x), CutAfter(cut, x.at, |order| + 1)[i];
              c <= |order'| && Replay(Events(order'[..c])) == ss[i].db
    {
      TablesBefore(ss, n, order, cut, x, i);
    }
  }

  lemma SameTables(ss: seq<State>, ls: seq<Label>, n: nat)
    requires IsRun(ss, ls) && n < |ls| && ss[n + 1].log == ss[n].log
    ensures ss[n + 1].db == ss[n].db
  {
    InvAt(ss, ls, n);
    InvAt(ss, ls, n + 1);
  }

  lemma TablesAfter(ss: seq<State>, ls: seq<Label>, n: nat, e: Event)
    requires IsRun(ss, ls) && n < |ls| && ss[n + 1].log == ss[n].log + [e]
    ensures ss[n + 1].db == Effect(e.op, ss[n].db)
  {
    InvAt(ss, ls, n);
    InvAt(ss, ls, n + 1);
    assert (ss[n].log + [e])[..|ss[n].log|] == ss[n].log;
  }

  lemma LogStep(ss: seq<State>, ls: seq<Label>, n: nat)
    requires IsRun(ss, ls) && n < |ls|
    ensures ss[n + 1].log == ss[n].log || (ls[n].Act? && exists e :: ss[n + 1].log == ss[n].log + [e])
  {
    assert Next(ss[n], ls[n], ss[n + 1]);
  }

  lemma NothingPlaced(ss: seq<State>, ls: seq<Label>)
    requires IsRun(ss, ls)
    ensures AllPlaced(ss, ls, 0, []) && Exact([]) && Cuts(ss, 0, [], [0])
  {
    assert Events([]) == [];
  }

  lemma NothingFinished(ss: seq<State>, ls: seq<Label>, n: nat, order: seq<Placed>, cut: seq<nat>)
    requires IsRun(ss, ls) && n < |ls| && ss[n + 1].log == ss[n].log
    requires AllPlaced(ss, ls, n, order) && Cuts(ss, n, order, cut)
    ensures AllPlaced(ss, ls, n + 1, order) && Cuts(ss, n + 1, order, cut + [|order|])
  {
    hide Next, Replay, Events;
    SameTables(ss, ls, n);
    assert order[..|order|] == order[..cut[n]];
    assert forall q | 0 <= q < |order| :: order[q].at <= order[q].step < n by {
      forall q | 0 <= q < |order| ensures order[q].at <= order[q].step { assert Happened(ss, ls, order[q]); }
    }
  }

  lemma {:induction false} PlaceAll(ss: seq<State>, ls: seq<Label>, n: nat)
    returns (order: seq<Placed>, cut: seq<nat>)
    requires IsRun(ss, ls) && n <= |ls|
    ensures AllPlaced(ss, ls, n, order) && Exact(order) && Cuts(ss, n, order, cut)
  {
    hide *;
    if n == 0 {
      NothingPlaced(ss, ls);
      order, cut := [], [0];
    } else {
      order, cut := PlaceAll(ss, ls, n - 1);
      RunStates(ss, ls);
      LogStep(ss, ls, n - 1);
      if ss[n].log == ss[n - 1].log {
        NothingFinished(ss, ls, n - 1, order, cut);
        cut := cut + [|order|];
      } else {
        order, cut := PlaceNext(ss, ls, n - 1, order, cut);
      }
    }
  }

  lemma RunStates(ss: seq<State>, ls: seq<Label>)
    requires IsRun(ss, ls)
    ensures |ss| == |ls| + 1
  {
    hide Next;
  }

  lemma PlaceNext(ss: seq<State>, ls: seq<Label>, n: nat, order: seq<Placed>, cut: seq<nat>)
    returns (order': seq<Placed>, cut': seq<nat>)
    requires IsRun(ss, ls) && n < |ls| && ls[n].Act? && exists e :: ss[n + 1].log == ss[n].log + [e]
    requires AllPlaced(ss, ls, n, order) && Exact(order) && Cuts(ss, n, order, cut)
    ensures AllPlaced(ss, ls, n + 1, order') && Exact(order') && Cuts(ss, n + 1, order', cut')
  {
    hide *;
    RunStates(ss, ls);
    var e :| ss[n + 1].log == ss[n].log + [e];
    var k := ExactAtOneMoment(ss, ls, n, ls[n].t, e);
    var x := Placed(k, n, e);
    TablesAfter(ss, ls, n, e);
    PlaceFits(ss, ls, n, order, cut, x);
    order', cut' := Insert(order, cut[k], x), CutAfter(cut, k, |order| + 1);
    InsertKeepsPlaced(ss, ls, n, order, cut[k], x);
    InsertKeepsExact(order, cut[k], x);
    InsertKeepsCuts(ss, n, order, cut, x);
  }

  lemma PlaceFits(ss: seq<State>, ls: seq<Label>, n: nat, order: seq<Placed>, cut: seq<nat>, x: Placed)
    requires |ss| == |ls| + 1 && n < |ls| && AllPlaced(ss, ls, n, order) && Cuts(ss, n, order, cut)
    requires x.step == n && x.at <= n && ls[n].Act? && ss[n + 1].log == ss[n].log + [x.event]
    requires forall i | x.at <= i <= n :: ls[n].t in ss[i].txs && ss[i].txs[ls[n].t].op == x.event.op
    requires x.event.op.Read? || x.at == n
    ensures Happened(ss, ls, x)
    ensures |cut| == n + 1 && cut[x.at] <= |order| && (cut[x.at] == |order| || x.event.op.Read?)
    ensures Replay(Events(order[..cut[x.at]])) == ss[x.at].db
    ensures forall q | 0 <= q < |order| :: (q < cut[x.at] <==> order[q].at < x.at) && order[q].at <= n
    ensures x.event.op.Read? ==> Effect(x.event.op, ss[n].db) == ss[n].db
  {
    hide Replay, Events;
    assert forall q | 0 <= q < |order| :: Happened(ss, ls, order[q]);
  }

  /** Every run is equivalent to running its finished calls alone, one after the other: there is an
      order of them, each call placed at a moment while it was open, in which every answer, the
      listings included, is the sequential one, and which leaves the same tables. */
  lemma EveryRunIsSerializable(ss: seq<State>, ls: seq<Label>, n: nat) returns (order: seq<Placed>)
    requires IsRun(ss, ls) && n <= |ls|
    ensures AllPlaced(ss, ls, n, order)
    ensures Exact(order)
    ensures Replay(Events(order)) == ss[n].db
  {
    hide Next, Verdict, Replay, AllPlaced, Exact;
    var cut;
    order, cut := PlaceAll(ss, ls, n);
    assert order[..cut[n]] == order;
  }
}
