/** The tables in the middle of a delete cascade: some rows gone, some decrements not yet run. */
module CascadeSteps {
  import opened Base
  import opened Reachability
  import opened Entities
  import opened Schema

  function PartialMessages(msgs: map<Id, Message>, gone: set<Id>, decs: map<Id, Id>): map<Id, Message> {
    map m | m in msgs && m !in gone :: msgs[m].(count := msgs[m].count - |Counted(msgs, gone, decs, m)|)
  }

  /** The state of the tables when gone are deleted and decs (OLD.id -> OLD.thread_root_id) are still to run. */
  function Partial(t: Tables, gone: set<Row>, decs: map<Id, Id>): Tables {
    Strip(t, gone).(messages := PartialMessages(t.messages, MessagesIn(gone), decs))
  }

  /** The decrements that deleting rows leaves to be run. */
  function Decrements(t: Tables, rows: set<Row>): map<Id, Id> {
    map m | m in MessagesIn(rows) && m in t.messages && t.messages[m].root.Some? :: t.messages[m].root.value
  }

  predicate DecsOk(t: Tables, gone: set<Row>, decs: map<Id, Id>) {
    forall d | d in decs :: d in t.messages && MessageRow(d) in gone && t.messages[d].root == Some(decs[d])
  }

  lemma MessagesInAdd(a: set<Row>, b: set<Row>)
    ensures MessagesIn(a + b) == MessagesIn(a) + MessagesIn(b)
  {
  }

  lemma MessagesInHas(rows: set<Row>, m: Id)
    ensures m in MessagesIn(rows) <==> MessageRow(m) in rows
  {
  }

  lemma PartialStart(t: Tables, seeds: set<Row>)
    requires forall r | r in seeds :: Present(t, r)
    ensures Strip(t, seeds) == Partial(t, seeds, Decrements(t, seeds))
  {
    var decs := Decrements(t, seeds);
    forall m | m in t.messages && m !in MessagesIn(seeds)
      ensures Counted(t.messages, MessagesIn(seeds), decs, m) == {}
    {
    }
    assert Strip(t, seeds).messages == Partial(t, seeds, decs).messages;
  }

  lemma PartialRow(t: Tables, gone: set<Row>, decs: map<Id, Id>, r: Row)
    ensures Present(Partial(t, gone, decs), r) <==> Present(t, r) && r !in gone
    ensures Present(Partial(t, gone, decs), r) ==>
              forall key :: Referenced(Partial(t, gone, decs), r, key) == Referenced(t, r, key)
  {
    if r.MessageRow? { MessagesInHas(gone, r.message); }
  }

  lemma StripMessages(msgs: map<Id, Message>, gone: set<Id>, decs: map<Id, Id>, kids: set<Id>, decs': map<Id, Id>)
    requires kids <= msgs.Keys && kids !! gone
    requires forall d | d in gone :: d in decs' <==> d in decs
    requires forall d | d in kids && msgs[d].root.Some? :: d in decs'
    ensures PartialMessages(msgs, gone, decs) - kids == PartialMessages(msgs, gone + kids, decs')
  {
    forall m | m in msgs && m !in gone + kids
      ensures Counted(msgs, gone + kids, decs', m) == Counted(msgs, gone, decs, m)
    {
    }
  }

  /** Deleting the children of a deleted row. */
  lemma PartialStrip(t: Tables, gone: set<Row>, decs: map<Id, Id>, kids: set<Row>)
    requires DecsOk(t, gone, decs)
    requires forall r | r in kids :: Present(t, r) && r !in gone
    ensures var decs' := decs + Decrements(Partial(t, gone, decs), kids);
            && Strip(Partial(t, gone, decs), kids) == Partial(t, gone + kids, decs')
            && DecsOk(t, gone + kids, decs')
  {
    var work := Partial(t, gone, decs);
    var decs' := decs + Decrements(work, kids);
    MessagesInAdd(gone, kids);
    StripTwice(t, gone, kids);
    assert Strip(work, kids).(messages := map[]) == Strip(Strip(t, gone), kids).(messages := map[]);
    DecrementsOk(t, gone, decs, kids);
    StripMessages(t.messages, MessagesIn(gone), decs, MessagesIn(kids), decs');
  }

  lemma DecrementsOk(t: Tables, gone: set<Row>, decs: map<Id, Id>, kids: set<Row>)
    requires DecsOk(t, gone, decs)
    requires forall r | r in kids :: Present(t, r) && r !in gone
    ensures var decs' := decs + Decrements(Partial(t, gone, decs), kids);
            && DecsOk(t, gone + kids, decs')
            && MessagesIn(kids) <= t.messages.Keys && MessagesIn(kids) !! MessagesIn(gone)
            && (forall d | d in MessagesIn(gone) :: d in decs' <==> d in decs)
            && (forall d | d in MessagesIn(kids) && t.messages[d].root.Some? :: d in decs')
  {
    hide Strip, Counted;
    forall m ensures m in MessagesIn(kids) <==> MessageRow(m) in kids { MessagesInHas(kids, m); }
    forall m ensures m in MessagesIn(gone) <==> MessageRow(m) in gone { MessagesInHas(gone, m); }
  }

  lemma SubtractCount(msgs: map<Id, Message>, gone: set<Id>, decs: map<Id, Id>, d: Id, m: Id)
    requires d in decs && d in gone && d in msgs && msgs[d].root == Some(decs[d])
    ensures |Counted(msgs, gone, decs - {d}, m)| == |Counted(msgs, gone, decs, m)| + (if m == decs[d] then 1 else 0)
  {
    assert Counted(msgs, gone, decs - {d}, m) == Counted(msgs, gone, decs, m) + (if m == decs[d] then {d} else {});
  }

  lemma SubtractMessages(msgs: map<Id, Message>, gone: set<Id>, decs: map<Id, Id>, d: Id)
    requires d in decs && d in gone && d in msgs && msgs[d].root == Some(decs[d])
    ensures var m, work := decs[d], PartialMessages(msgs, gone, decs);
            PartialMessages(msgs, gone, decs - {d})
            == if m in work then work[m := work[m].(count := work[m].count - 1)] else work
  {
    var m, work := decs[d], PartialMessages(msgs, gone, decs);
    var after := if m in work then work[m := work[m].(count := work[m].count - 1)] else work;
    var now := PartialMessages(msgs, gone, decs - {d});
    assert now.Keys == after.Keys;
    forall x | x in now ensures now[x] == after[x] {
      SubtractCount(msgs, gone, decs, d, x);
    }
  }

  /** Running one decrement. */
  lemma PartialSubtract(t: Tables, gone: set<Row>, decs: map<Id, Id>, d: Id)
    requires DecsOk(t, gone, decs) && d in decs
    ensures var m, work := decs[d], Partial(t, gone, decs);
            && DecsOk(t, gone, decs - {d})
            && Partial(t, gone, decs - {d})
               == if m in work.messages
                  then work.(messages := work.messages[m := work.messages[m].(count := work.messages[m].count - 1)])
                  else work
  {
    MessagesInHas(gone, d);
    SubtractMessages(t.messages, MessagesIn(gone), decs, d);
  }

  /** A decrement finds the row it counts down at one or more. */
  lemma DecrementHasRoom(t: Tables, gone: set<Row>, decs: map<Id, Id>, d: Id)
    requires CountsOk(t.messages) && DecsOk(t, gone, decs) && d in decs
    requires decs[d] in Partial(t, gone, decs).messages
    ensures Partial(t, gone, decs).messages[decs[d]].count >= 1
  {
    var m := decs[d];
    var counted := Counted(t.messages, MessagesIn(gone), decs, m);
    assert counted <= Replies(t.messages, m) - {d};
    Cardinality(counted, Replies(t.messages, m) - {d});
  }

  lemma PartialDone(t: Tables, gone: set<Row>)
    ensures Partial(t, gone, map[]) == Prune(t, gone)
  {
    forall m | m in t.messages
      ensures Counted(t.messages, MessagesIn(gone), map[], m) == Replies(t.messages, m) * MessagesIn(gone)
    {
    }
    assert PartialMessages(t.messages, MessagesIn(gone), map[]) == Without(t.messages, MessagesIn(gone));
  }

  /** One run of the trigger that ON DELETE CASCADE of a foreign key puts on a deleted row. */
  datatype Trigger = Trigger(parent: Row, key: ForeignKey)

  /** The triggers that deleting rows leaves to be run. */
  function Triggers(rows: set<Row>): set<Trigger> {
    set p, key | p in rows && key in KeysOn(p) :: Trigger(p, key)
  }

  /** The rows a trigger run finds. */
  function Found(t: Tables, g: Trigger): set<Row> {
    set r | r in Rows(t) && Referenced(t, r, g.key) == Some(g.parent)
  }

  /** What holds between any two trigger runs, in whatever order they are run. */
  ghost predicate Cascading(t: Tables, work: Tables, seeds: set<Row>, gone: set<Row>, pend: set<Trigger>,
                            decs: map<Id, Id>)
  {
    && work == Partial(t, gone, decs)
    && DecsOk(t, gone, decs)
    && seeds <= gone <= Cascaded(t, seeds)
    && (forall g | g in pend :: g.parent in gone)
    && (forall r | r in gone :: Present(t, r))
    && (forall r, key | Present(t, r) && r !in gone && Referenced(t, r, key).Some? ::
          Referenced(t, r, key).value in gone ==> Trigger(Referenced(t, r, key).value, key) in pend)
  }

  lemma FoundRow(t: Tables, work: Tables, seeds: set<Row>, gone: set<Row>, pend: set<Trigger>, decs: map<Id, Id>,
                 g: Trigger, r: Row)
    requires Cascading(t, work, seeds, gone, pend, decs) && g in pend && r in Found(work, g)
    ensures Present(t, r) && r !in gone && r in Cascaded(t, seeds)
  {
    hide Cascaded, Strip;
    PartialRow(t, gone, decs, r);
    ParentsAreReferenced(t, r, g.parent);
    assert Referenced(t, r, g.key) == Some(g.parent);
    CascadeTakesChildren(t, seeds, r, g.parent);
  }

  lemma LeftRow(t: Tables, work: Tables, seeds: set<Row>, gone: set<Row>, pend: set<Trigger>, decs: map<Id, Id>,
                g: Trigger, kids: set<Row>, r: Row, key: ForeignKey)
    requires Cascading(t, work, seeds, gone, pend, decs) && g in pend && kids == Found(work, g)
    requires Present(t, r) && r !in gone + kids && Referenced(t, r, key).Some?
    requires Referenced(t, r, key).value in gone + kids
    ensures Trigger(Referenced(t, r, key).value, key) in pend - {g} + Triggers(kids)
  {
    hide Cascaded, Strip;
    var p := Referenced(t, r, key).value;
    PartialRow(t, gone, decs, r);
    ParentsAreReferenced(t, r, p);
    assert r in Rows(work);
  }

  lemma CascadeStep(t: Tables, work: Tables, seeds: set<Row>, gone: set<Row>, pend: set<Trigger>, decs: map<Id, Id>,
                    g: Trigger, kids: set<Row>)
    requires Cascading(t, work, seeds, gone, pend, decs) && g in pend && kids == Found(work, g)
    ensures Cascading(t, Strip(work, kids), seeds, gone + kids, pend - {g} + Triggers(kids),
                      decs + Decrements(work, kids))
  {
    hide Cascaded, Strip, Rows, Present, Referenced;
    forall r | r in kids ensures Present(t, r) && r !in gone && r in Cascaded(t, seeds) {
      FoundRow(t, work, seeds, gone, pend, decs, g, r);
    }
    PartialStrip(t, gone, decs, kids);
    forall r, key | Present(t, r) && r !in gone + kids && Referenced(t, r, key).Some?
      ensures Referenced(t, r, key).value in gone + kids ==>
                Trigger(Referenced(t, r, key).value, key) in pend - {g} + Triggers(kids)
    {
      if Referenced(t, r, key).value in gone + kids { LeftRow(t, work, seeds, gone, pend, decs, g, kids, r, key); }
    }
  }

  lemma CascadeStart(t: Tables, seeds: set<Row>)
    requires forall r | r in seeds :: Present(t, r)
    ensures Cascading(t, Strip(t, seeds), seeds, seeds, Triggers(seeds), Decrements(t, seeds))
  {
    PartialStart(t, seeds);
    forall m ensures m in MessagesIn(seeds) <==> MessageRow(m) in seeds { MessagesInHas(seeds, m); }
    forall r, key | Present(t, r) && Referenced(t, r, key).Some? && Referenced(t, r, key).value in seeds
      ensures Trigger(Referenced(t, r, key).value, key) in Triggers(seeds)
    {
      ParentsAreReferenced(t, r, Referenced(t, r, key).value);
    }
  }

  /** Running one decrement, which always finds a count to take it from. */
  lemma CascadeSubtract(t: Tables, work: Tables, seeds: set<Row>, gone: set<Row>, pend: set<Trigger>,
                        decs: map<Id, Id>, d: Id)
    requires Cascading(t, work, seeds, gone, pend, decs) && CountsOk(t.messages) && d in decs
    ensures var m := decs[d];
            if m in work.messages then
              && work.messages[m].count >= 1
              && var row := work.messages[m].(count := work.messages[m].count - 1);
              Cascading(t, work.(messages := work.messages[m := row]), seeds, gone, pend, decs - {d})
            else Cascading(t, work, seeds, gone, pend, decs - {d})
  {
    hide Strip, Cascaded, Partial, CountsOk, DecsOk;
    PartialSubtract(t, gone, decs, d);
    if decs[d] in work.messages { DecrementHasRoom(t, gone, decs, d); }
  }

  lemma KidsAreNew(t: Tables, work: Tables, seeds: set<Row>, gone: set<Row>, pend: set<Trigger>, decs: map<Id, Id>,
                   kids: set<Row>)
    requires Cascading(t, work, seeds, gone, pend, decs)
    requires forall r | r in kids :: Present(work, r)
    ensures kids !! gone && kids <= Rows(t)
  {
    forall r | r in kids ensures r !in gone && r in Rows(t) { PartialRow(t, gone, decs, r); }
  }

  /** When nothing is left to run, exactly the closure of the deleted rows is gone. */
  lemma CascadeDone(t: Tables, work: Tables, seeds: set<Row>, gone: set<Row>)
    requires Cascading(t, work, seeds, gone, {}, map[])
    ensures work == Prune(t, Cascaded(t, seeds))
  {
    forall e | e in Edges(t) && e.0 in gone ensures e.1 in gone {
      EdgesContents(t, e.0, e.1);
      ParentsAreReferenced(t, e.1, e.0);
      var key :| Referenced(t, e.1, key) == Some(e.0);
      assert e.1 !in gone ==> Trigger(e.0, key) in {};
    }
    ReachLeast(Edges(t), seeds, gone);
    assert gone == Cascaded(t, seeds);
    PartialDone(t, gone);
  }
}
