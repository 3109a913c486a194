/** Calls of the thread model never get stuck while replies go together with their roots, no message
    delete is open and at most one account deletion is: every open call can still be finished. */
module ThreadProgress {
  import opened Base
  import opened Entities
  import opened Reachability
  import opened ThreadModel
  import opened ThreadInvariant
  import opened ThreadRuns
  import opened ThreadTheorems
  import opened ThreadLocks
  import opened ThreadWaiting

  // ---------------------------------------------------------------- statements keep replies where they are

  lemma RowsOfEffect(op: Op, db: Db)
    ensures forall c | c in Effect(op, db).channels ::
              || (c in db.channels && db.channels[c] == Effect(op, db).channels[c])
              || op == MakeChannel(Effect(op, db).channels[c], c)
    ensures forall m | m in Effect(op, db).msgs ::
              var row := Effect(op, db).msgs[m];
              || (m in db.msgs && db.msgs[m].channel == row.channel && db.msgs[m].root == row.root)
              || IsPost(op, m, row.channel, row.root)
  {
    hide Reach, ThreadEdges, Replies, WrittenBy;
  }

  lemma CommitAddsItsRow(db: Db, born: set<Id>, tx: Tx)
    requires TxOk(db, born, tx) && tx.phase == Ready
    ensures var db' := Apply(db, tx.delta);
            && (forall c | c in db'.channels ::
                  (c in db.channels && db.channels[c] == db'.channels[c]) || tx.op == MakeChannel(db'.channels[c], c))
            && (forall m | m in db'.msgs ::
                  || (m in db.msgs && db.msgs[m].channel == db'.msgs[m].channel && db.msgs[m].root == db'.msgs[m].root)
                  || IsPost(tx.op, m, db'.msgs[m].channel, db'.msgs[m].root))
  {
    hide TxOk, Effect, Apply, Verdict, IsPost;
    CommitIsEffect(db, born, tx);
    RowsOfEffect(tx.op, db);
  }

  /** What is in a channel or workspace after a statement was, or was about to be, before it. */
  ghost predicate NothingNew(s: State, s': State) {
    && (forall t | t in s'.txs :: t in s.txs && s'.txs[t].op == s.txs[t].op)
    && (forall c, w | LiesIn(s', c, w) :: LiesIn(s, c, w))
    && (forall m, c, root | Writes(s', m, c, root) :: Writes(s, m, c, root))
  }

  lemma ActAddsNothing(s: State, t: Tid, c: Choice, s': State)
    requires Inv(s) && Next(s, Act(t, c), s')
    ensures NothingNew(s, s')
  {
    hide Advance, DbOk, Faithful, Replay, Apart, Stored, Granted, IsPost, Apply, TxOk;
    OnlyReadyPublishes(s.db, s.txs[t], c);
    if s.txs[t].phase == Ready {
      assert TxOk(s.db, s.born, s.txs[t]);
      CommitAddsItsRow(s.db, s.born, s.txs[t]);
    } else if Advance(s.db, s.txs[t], c).Continue? {
      HeldGrows(s.db, s.txs[t], c);
    }
  }

  lemma OrderlyLasts(s: State, s': State)
    requires NothingNew(s, s') && Orderly(s)
    ensures Orderly(s')
  {
    hide LiesIn, Writes;
    forall m, a, r, b, top | Writes(s', m, a, Some(r)) && Writes(s', r, b, top) ensures Together(s', a, b) {
      assert Writes(s, m, a, Some(r)) && Writes(s, r, b, top) && Together(s, a, b);
    }
  }

  // ---------------------------------------------------------------- how far a call still has to go

  lemma SubtractMoves(v: Db, tx: Tx, d: Id)
    requires tx.phase.Cascade? && d in tx.phase.decs
    ensures !Subtract(v, tx, d).Stuck?
  {
  }

  lemma CascadeHasMove(db: Db, tx: Tx) returns (c: Choice)
    requires tx.phase.Cascade?
    ensures !Advance(db, tx, c).Stuck?
  {
    hide Apply, VisitRow, StartCascade, Subtract;
    var Cascade(pend, rows, decs) := tx.phase;
    if rows != {} {
      var r :| r in rows;
      c := Child(r);
    } else if decs != map[] {
      var d :| d in decs;
      c := Decrement(d);
      SubtractMoves(Apply(db, tx.delta), tx, d);
    } else if pend != {} {
      var p :| p in pend;
      c := Parent(p);
    } else {
      c := Only;
    }
  }

  lemma OtherMove(db: Db, tx: Tx) returns (c: Choice)
    requires PhaseFits(tx) && !tx.phase.Cascade?
    ensures !Advance(db, tx, c).Stuck?
  {
    hide Apply, OwnedBy, WrittenBy, Pending, NewMessage;
    c := Only;
    match tx.phase
    case LockOwned(todo) => if todo != {} { var w :| w in todo; c := Ws(w); }
    case Restrict(todo) => if todo != {} { var m :| m in todo; c := Written(m); }
    case _ =>
  }

  /** An open transaction always has a statement to go on with. */
  lemma HasMove(db: Db, born: set<Id>, tx: Tx) returns (c: Choice)
    requires TxOk(db, born, tx)
    ensures !Advance(db, tx, c).Stuck?
  {
    hide TxOk, Advance;
    PhaseOfOp(db, born, tx);
    if tx.phase.Cascade? { c := CascadeHasMove(db, tx); } else { c := OtherMove(db, tx); }
  }

  function Stage(tx: Tx): nat {
    match tx.phase
    case Begun => 10
    case OwnerFk => 9
    case WorkspaceFk => 9
    case AuthorFk => 9
    case FindOwned => 9
    case ChannelFk => 8
    case LockOwned(_) => 8
    case RootFk => 7
    case Bump => 6
    case Cascade(_, _, _) => 5
    case DeleteUserRow => 4
    case FindWritten => 3
    case Restrict(_) => 2
    case Ready => 0
  }

  /** Rows a cascade could still delete. */
  function Untouched(db: Db, tx: Tx): set<Row> {
    if !tx.phase.Cascade? then {}
    else (set m | m in db.msgs && m !in tx.delta.gone :: MsgRow(m))
         + (set c | c in db.channels && c !in tx.delta.goneChannels :: ChannelRow(c))
  }

  /** Deleted rows, or rows of a finished query, still to be visited. */
  function Parents(tx: Tx): set<Row> {
    match tx.phase
    case LockOwned(todo) => set w | w in todo :: WsRow(w)
    case Restrict(todo) => set m | m in todo :: MsgRow(m)
    case Cascade(pend, _, _) => pend
    case _ => {}
  }

  /** Each statement gets the call on. */
  ghost predicate GetsOn(db: Db, tx: Tx, tx': Tx) {
    || Stage(tx') < Stage(tx)
    || (Stage(tx') == Stage(tx) &&
        (|| Untouched(db, tx') < Untouched(db, tx)
         || (Untouched(db, tx') == Untouched(db, tx) &&
             (|| Parents(tx') < Parents(tx)
              || (Parents(tx') == Parents(tx) &&
                  (|| Rows(tx') < Rows(tx)
                   || (Rows(tx') == Rows(tx) && Decs(tx').Keys < Decs(tx).Keys)))))))
  }

  lemma MsgTaken(db: Db, tx: Tx, tx': Tx, m: Id)
    requires tx.phase.Cascade? && tx'.phase.Cascade? && m in db.msgs && m !in tx.delta.gone
    requires tx'.delta.gone == tx.delta.gone + {m} && tx'.delta.goneChannels == tx.delta.goneChannels
    ensures Untouched(db, tx') < Untouched(db, tx)
  {
    assert MsgRow(m) in Untouched(db, tx) && MsgRow(m) !in Untouched(db, tx');
  }

  lemma ChannelTaken(db: Db, tx: Tx, tx': Tx, c: Id)
    requires tx.phase.Cascade? && tx'.phase.Cascade? && c in db.channels && c !in tx.delta.goneChannels
    requires tx'.delta.gone == tx.delta.gone && tx'.delta.goneChannels == tx.delta.goneChannels + {c}
    ensures Untouched(db, tx') < Untouched(db, tx)
  {
    assert ChannelRow(c) in Untouched(db, tx) && ChannelRow(c) !in Untouched(db, tx');
  }

  lemma VisitTakes(v: Db, tx: Tx, r: Row)
    requires tx.phase.Cascade?
    ensures var tx' := VisitRow(v, tx, r);
            && tx'.phase.Cascade?
            && (if Visible(v, r) && r.MsgRow? then
                  tx'.delta.gone == tx.delta.gone + {r.id} && tx'.delta.goneChannels == tx.delta.goneChannels
                else if Visible(v, r) && r.ChannelRow? then
                  tx'.delta.gone == tx.delta.gone && tx'.delta.goneChannels == tx.delta.goneChannels + {r.channel}
                else tx' == tx.(phase := tx.phase.(rows := tx.phase.rows - {r})))
  {
    hide Pending;
  }

  lemma ChildGetsOn(db: Db, born: set<Id>, tx: Tx, r: Row)
    requires Running(db, born, tx) && tx.phase.Cascade? && r in tx.phase.rows
    ensures GetsOn(db, tx, VisitRow(Apply(db, tx.delta), tx, r))
  {
    assert MayVisit(db, born, tx.delta, r);
    NoNewChannels(db, tx);
    hide Running, Apply, OnlyRecounts, VisitRow, Untouched, InScope;
    var tx' := VisitRow(Apply(db, tx.delta), tx, r);
    VisitTakes(Apply(db, tx.delta), tx, r);
    if Visible(Apply(db, tx.delta), r) {
      InTables(db, tx, r);
      match r
      case ChannelRow(c) =>
        VisibleChannel(db, tx, c);
        ChannelTaken(db, tx, tx', c);
      case MsgRow(m) =>
        VisibleMsg(db, tx, m);
        MsgTaken(db, tx, tx', m);
    } else {
      SameUntouched(db, tx, tx');
    }
  }

  lemma SameUntouched(db: Db, tx: Tx, tx': Tx)
    requires tx.phase.Cascade? == tx'.phase.Cascade?
    requires tx'.delta.gone == tx.delta.gone && tx'.delta.goneChannels == tx.delta.goneChannels
    ensures Untouched(db, tx') == Untouched(db, tx)
  {
  }

  lemma CascadeGetsOn(db: Db, born: set<Id>, tx: Tx, c: Choice)
    requires Running(db, born, tx) && tx.phase.Cascade? && Advance(db, tx, c).Continue?
    ensures GetsOn(db, tx, Advance(db, tx, c).tx)
  {
    hide Running, Apply, Referring, VisitRow;
    var tx' := Advance(db, tx, c).tx;
    match c
    case Child(r) => ChildGetsOn(db, born, tx, r);
    case Parent(p) => assert p in Parents(tx) && p !in Parents(tx'); assert Untouched(db, tx') == Untouched(db, tx);
    case Decrement(d) =>
      assert d in Decs(tx) && d !in Decs(tx');
      assert Untouched(db, tx') == Untouched(db, tx);
    case _ =>
  }

  /** Locks and foreign keys come in a fixed order; a query visits each row it found once. */
  lemma StageFalls(db: Db, tx: Tx, c: Choice)
    requires !tx.phase.Cascade? && Advance(db, tx, c).Continue?
    ensures var tx' := Advance(db, tx, c).tx;
            || Stage(tx') < Stage(tx)
            || (tx.phase.LockOwned? && c.Ws? && c.ws in tx.phase.todo && tx'.phase == LockOwned(tx.phase.todo - {c.ws}))
            || (tx.phase.Restrict? && c.Written? && c.id in tx.phase.todo
                && tx'.phase == Restrict(tx.phase.todo - {c.id}))
  {
    hide Apply, OwnedBy, WrittenBy, Pending, NewMessage;
  }

  lemma AdvanceGetsOn(db: Db, born: set<Id>, tx: Tx, c: Choice)
    requires TxOk(db, born, tx) && Advance(db, tx, c).Continue?
    ensures GetsOn(db, tx, Advance(db, tx, c).tx)
  {
    var tx' := Advance(db, tx, c).tx;
    if tx.phase.Cascade? {
      CascadeGetsOn(db, born, tx, c);
    } else {
      hide TxOk, Advance;
      StageFalls(db, tx, c);
      if tx.phase.LockOwned? && c.Ws? && c.ws in tx.phase.todo {
        assert WsRow(c.ws) in Parents(tx);
      } else if tx.phase.Restrict? && c.Written? && c.id in tx.phase.todo {
        assert MsgRow(c.id) in Parents(tx);
      }
    }
  }

  // ---------------------------------------------------------------- running calls to their end

  /** Steps from any state; a run is a path from INIT. */
  predicate IsPath(ss: seq<State>, ls: seq<Label>) {
    && |ss| == |ls| + 1
    && forall i | 0 <= i < |ls| :: Next(ss[i], ls[i], ss[i + 1])
  }

  predicate OnlyActs(ls: seq<Label>) {
    forall i | 0 <= i < |ls| :: ls[i].Act?
  }

  lemma JoinPaths(ss: seq<State>, ls: seq<Label>, ss': seq<State>, ls': seq<Label>)
    requires IsPath(ss, ls) && IsPath(ss', ls') && ss[|ls|] == ss'[0]
    ensures IsPath(ss + ss'[1..], ls + ls')
    ensures (ss + ss'[1..])[|ls + ls'|] == ss'[|ls'|]
  {
    hide Next;
    var joined := ss + ss'[1..];
    forall i | 0 <= i < |ls + ls'| ensures Next(joined[i], (ls + ls')[i], joined[i + 1]) {
      if i < |ls| {
        assert Next(ss[i], ls[i], ss[i + 1]);
      } else {
        assert Next(ss'[i - |ls|], ls'[i - |ls|], ss'[i - |ls| + 1]);
      }
    }
  }

  ghost predicate InOrder(s: State) { Inv(s) && LocksKnown(s) }

  function After(s: State, t: Tid, m: Move): State
    requires t in s.txs && !m.Stuck?
  {
    match m
    case Continue(tx) => s.(txs := s.txs[t := tx])
    case Return(o) => s.(txs := s.txs - {t}, log := s.log + [Event(s.txs[t].op, o)])
    case Publish =>
      State(Apply(s.db, s.txs[t].delta), s.born + Reserved(s.txs[t].op), s.txs - {t},
            s.log + [Event(s.txs[t].op, Done)])
  }

  /** A transaction that nobody stands in the way of takes its next statement. */
  lemma GoOn(s: State, t: Tid, c: Choice) returns (s': State)
    requires InOrder(s) && t in s.txs
    requires !Advance(s.db, s.txs[t], c).Stuck? && Granted(s, t, c)
    ensures Next(s, Act(t, c), s') && InOrder(s') && NothingNew(s, s')
    ensures s' == After(s, t, Advance(s.db, s.txs[t], c))
  {
    hide Advance, Granted, Inv, LocksKnown;
    s' := After(s, t, Advance(s.db, s.txs[t], c));
    assert Next(s, Act(t, c), s');
    NextKeepsInv(s, Act(t, c), s');
    NextKeepsKnown(s, Act(t, c), s');
    ActAddsNothing(s, t, c, s');
  }

  /** The call t, open in s, has been answered in s', and nothing else has happened to the open calls. */
  ghost predicate Finished(s: State, t: Tid, s': State)
    requires t in s.txs
  {
    && s'.txs == s.txs - {t}
    && (exists o :: s'.log == s.log + [Event(s.txs[t].op, o)])
    && s'.born <= s.born + Reserved(s.txs[t].op)
  }

  /** The call t has gone on from s as far as it could, and waits. */
  ghost predicate Halted(s: State, t: Tid, s': State)
    requires t in s.txs
  {
    && t in s'.txs
    && s' == s.(txs := s.txs[t := s'.txs[t]])
    && s'.txs[t].op == s.txs[t].op
    && Level(s'.txs[t]) <= Level(s.txs[t])
    && exists o :: Waits(s', t, o)
  }

  lemma EndsLater(s: State, t: Tid, s1: State, s2: State)
    requires t in s.txs && t in s1.txs && s1 == s.(txs := s.txs[t := s1.txs[t]])
    requires s1.txs[t].op == s.txs[t].op && Level(s1.txs[t]) <= Level(s.txs[t])
    ensures Halted(s1, t, s2) ==> Halted(s, t, s2)
    ensures Finished(s1, t, s2) ==> Finished(s, t, s2)
  {
    hide Level;
    assert s1.txs - {t} == s.txs - {t};
    if Halted(s1, t, s2) {
      assert s1.txs[t := s2.txs[t]] == s.txs[t := s2.txs[t]];
    }
  }

  lemma LevelFalls(db: Db, born: set<Id>, tx: Tx, c: Choice)
    requires TxOk(db, born, tx) && Advance(db, tx, c).Continue?
    ensures Level(Advance(db, tx, c).tx) <= Level(tx)
    ensures Advance(db, tx, c).tx.op == tx.op
  {
    PhaseOfOp(db, born, tx);
    HeldGrows(db, tx, c);
    if !Early(tx.phase) {
      DeletesGrow(db, tx, c);
      if tx.op.Post? { PostGoesOn(db, tx, c); }
    }
    hide TxOk, Advance;
  }

  lemma NothingNewTwice(s: State, s1: State, s2: State)
    requires NothingNew(s, s1) && NothingNew(s1, s2)
    ensures NothingNew(s, s2)
  {
    hide LiesIn, Writes;
  }

  lemma NothingNewAtAll(s: State)
    ensures NothingNew(s, s)
  {
  }

  lemma SomeMove(s: State, t: Tid) returns (c: Choice)
    requires InOrder(s) && t in s.txs
    ensures !Advance(s.db, s.txs[t], c).Stuck?
  {
    KnownParts(s, t);
    c := HasMove(s.db, s.born, s.txs[t]);
  }

  lemma Progress(s: State, t: Tid, c: Choice)
    requires InOrder(s) && t in s.txs && Advance(s.db, s.txs[t], c).Continue?
    ensures var tx' := Advance(s.db, s.txs[t], c).tx;
            GetsOn(s.db, s.txs[t], tx') && tx'.op == s.txs[t].op && Level(tx') <= Level(s.txs[t])
  {
    hide Advance, TxOk, GetsOn, Level;
    KnownParts(s, t);
    AdvanceGetsOn(s.db, s.born, s.txs[t], c);
    LevelFalls(s.db, s.born, s.txs[t], c);
  }

  /** Statement by statement, a call on its own gets to its answer or to a lock it has to wait for. */
  lemma {:induction false} RunOn(s: State, t: Tid) returns (ss: seq<State>, ls: seq<Label>)
    requires InOrder(s) && t in s.txs
    ensures IsPath(ss, ls) && ss[0] == s && OnlyActs(ls)
    ensures InOrder(ss[|ls|]) && NothingNew(s, ss[|ls|])
    ensures Finished(s, t, ss[|ls|]) || Halted(s, t, ss[|ls|])
    decreases Stage(s.txs[t]), Untouched(s.db, s.txs[t]), Parents(s.txs[t]), Rows(s.txs[t]), Decs(s.txs[t]).Keys
  {
    hide InOrder, NothingNew, Advance, Stage, Untouched, Parents, Rows, Decs, Level;
    var c := SomeMove(s, t);
    if !Granted(s, t, c) {
      var o :| o in s.txs && Blocks(s, t, c, o);
      assert Waits(s, t, o);
      NothingNewAtAll(s);
      ss, ls := [s], [];
      return;
    }
    var s' := GoOn(s, t, c);
    ss, ls := [s, s'], [Act(t, c)];
    if Advance(s.db, s.txs[t], c).Continue? {
      Progress(s, t, c);
      var ss', ls' := RunOn(s', t);
      EndsLater(s, t, s', ss'[|ls'|]);
      NothingNewTwice(s, s', ss'[|ls'|]);
      JoinPaths(ss, ls, ss', ls');
      ss, ls := ss + ss'[1..], ls + ls';
    } else {
      NoOtherEnd(s, t, c);
    }
  }

  lemma NoOtherEnd(s: State, t: Tid, c: Choice)
    requires t in s.txs && (Advance(s.db, s.txs[t], c).Return? || Advance(s.db, s.txs[t], c).Publish?)
    ensures Finished(s, t, After(s, t, Advance(s.db, s.txs[t], c)))
  {
    hide Advance;
    var s' := After(s, t, Advance(s.db, s.txs[t], c));
    var m := Advance(s.db, s.txs[t], c);
    assert s'.log == s.log + [Event(s.txs[t].op, if m.Return? then m.outcome else Done)];
  }

  /** Whoever is waited for is nearer to the end, so running on from any open call finishes one. */
  lemma {:induction false} FinishFrom(s: State, t: Tid) returns (ss: seq<State>, ls: seq<Label>, done: Tid)
    requires InOrder(s) && Orderly(s) && t in s.txs
    ensures IsPath(ss, ls) && ss[0] == s && OnlyActs(ls)
    ensures InOrder(ss[|ls|]) && Orderly(ss[|ls|])
    ensures done in s.txs && ss[|ls|].txs.Keys == s.txs.Keys - {done} && |ss[|ls|].log| == |s.log| + 1
    decreases Level(s.txs[t])
  {
    hide InOrder, Orderly, NothingNew, Level, Waits;
    ss, ls := RunOn(s, t);
    var s1 := ss[|ls|];
    OrderlyLasts(s, s1);
    done := t;
    if !Finished(s, t, s1) {
      var o :| Waits(s1, t, o);
      WaitsForLower(s1, t, o);
      var ss', ls';
      ss', ls', done := FinishFrom(s1, o);
      JoinPaths(ss, ls, ss', ls');
      ss, ls := ss + ss'[1..], ls + ls';
    }
  }

  lemma WaitsForLower(s: State, t: Tid, o: Tid)
    requires InOrder(s) && Orderly(s) && Waits(s, t, o)
    ensures t in s.txs && o in s.txs && Level(s.txs[o]) < Level(s.txs[t])
  {
    hide Inv, LocksKnown, Confined, Level;
    var c :| Blocks(s, t, c, o);
    WaitsGoDown(s, t, c, o);
  }

  lemma {:induction false} FinishAll(s: State) returns (ss: seq<State>, ls: seq<Label>)
    requires InOrder(s) && Orderly(s)
    ensures IsPath(ss, ls) && ss[0] == s && OnlyActs(ls)
    ensures ss[|ls|].txs == map[] && |ss[|ls|].log| == |s.log| + |s.txs|
    decreases |s.txs|
  {
    hide InOrder, Orderly;
    if s.txs == map[] {
      ss, ls := [s], [];
    } else {
      var t :| t in s.txs;
      var done;
      ss, ls, done := FinishFrom(s, t);
      var s' := ss[|ls|];
      assert s.txs.Keys == s'.txs.Keys + {done};
      assert |s.txs| == |s.txs.Keys| && |s'.txs| == |s'.txs.Keys|;
      var ss', ls' := FinishAll(s');
      JoinPaths(ss, ls, ss', ls');
      ss, ls := ss + ss'[1..], ls + ls';
    }
  }

  /** From every state of every run in which replies go together with their roots, no message delete
      is open and at most one account deletion is, all open calls can be run to their answers, nobody
      being aborted. */
  lemma EveryCallCanFinish(ss: seq<State>, ls: seq<Label>) returns (more: seq<State>, acts: seq<Label>)
    requires IsRun(ss, ls) && Orderly(ss[|ls|])
    ensures IsRun(ss + more, ls + acts) && OnlyActs(acts)
    ensures var last := (ss + more)[|ls + acts|];
            last.txs == map[] && |last.log| == |ss[|ls|].log| + |ss[|ls|].txs|
  {
    hide Next, Inv, LocksKnown, Orderly;
    InvAt(ss, ls, |ls|);
    LocksKnownAt(ss, ls, |ls|);
    var ss';
    ss', acts := FinishAll(ss[|ls|]);
    JoinPaths(ss, ls, ss', acts);
    more := ss'[1..];
  }
}
