/** Schedules that show where concurrency defeats a natural claim: a restore judged on a
    stamp that is no longer in force, an order or a staff call that lands in a closed or an
    abandoned session, two calls within one cooldown, an acknowledgement that overwrites
    another. */
module Witnesses {
  import opened Schema
  import opened Money
  import opened Effects
  import opened Laws
  import opened Interleaving
  import opened Isolation
  import opened RestoreRaces
  import Requests
  import O = Ordering

  /** A world in which nothing has begun. */
  function Start(db: Db, clock: Time): World {
    World(db, clock, map[])
  }

  /** The invariants of interleavings hold at the start. */
  lemma StartKeeps(db: Db, clock: Time)
    requires Sound(db)
    ensures Coherent(Start(db, clock))
    ensures Begun(Start(db, clock)) && OneSweep(Start(db, clock)) && AllOnTime(Start(db, clock))
    ensures StampsBy(db, clock) ==> StampsOk(Start(db, clock))
  {
    var w := Start(db, clock);
    forall a, b, table | Claims(w, a, table) && Claims(w, b, table) ensures a == b {
      assert OpenRow(db.sessions, a, table) && OpenRow(db.sessions, b, table);
    }
  }

  ghost predicate Reaches(w: World, w': World) {
    exists acts :: Schedule(w, acts) && Outcome(w, acts) == w'
  }

  lemma ReachStep(w: World, a: Action)
    requires Enabled(w, a)
    ensures Reaches(w, Step(w, a))
  {
    hide Enabled, Step;
    var acts := [a];
    assert acts[0] == a && acts[1..] == [];
    assert Schedule(Step(w, a), acts[1..]) && Outcome(Step(w, a), acts[1..]) == Step(w, a);
    assert Schedule(w, acts) && Outcome(w, acts) == Step(w, a);
  }

  lemma ReachSame(w: World)
    ensures Reaches(w, w)
  {
    assert Schedule(w, []) && Outcome(w, []) == w;
  }

  lemma ReachTrans(a: World, b: World, c: World)
    requires Reaches(a, b) && Reaches(b, c)
    ensures Reaches(a, c)
  {
    var p :| Schedule(a, p) && Outcome(a, p) == b;
    var q :| Schedule(b, q) && Outcome(b, q) == c;
    ScheduleConcat(a, p, q);
  }

  lemma ReachFour(a: World, b: World, c: World, d: World, e: World)
    requires Reaches(a, b) && Reaches(b, c) && Reaches(c, d) && Reaches(d, e)
    ensures Reaches(a, e)
  {
    ReachTrans(a, b, c);
    ReachTrans(a, c, d);
    ReachTrans(a, d, e);
  }

  lemma {:induction false} ScheduleConcat(w: World, p: seq<Action>, q: seq<Action>)
    requires Schedule(w, p) && Schedule(Outcome(w, p), q)
    ensures Schedule(w, p + q) && Outcome(w, p + q) == Outcome(Outcome(w, p), q)
    decreases |p|
  {
    hide Enabled, Step;
    if p == [] {
      assert p + q == q;
    } else {
      assert (p + q)[1..] == p[1..] + q;
      ScheduleConcat(Step(w, p[0]), p[1..], q);
    }
  }

  // ----- Single statements -----

  /** No one but t, if anyone, holds anything. */
  ghost predicate Alone(w: World, t: Id) {
    forall u | u in w.txns && u != t :: w.txns[u].held == NOTHING
  }

  lemma AloneIsFree(w: World, t: Id, rows: Holding, next: Txn)
    requires Alone(w, t)
    ensures WriteWhenFree(w, t, rows, next) == Write(rows, next) && Free(w, t, rows)
  {
  }

  lemma AloneIsUncontested(w: World, t: Id, table: Id)
    requires Alone(w, t)
    ensures !IndexBusy(w, t, table) && forall k :: SessionFree(w, t, k)
  {
  }

  lemma Spawned(w: World, t: Id, pc: Pc) returns (w': World)
    requires t !in w.txns && Startable(w.db, pc)
    ensures w' == w.(txns := w.txns[t := Txn(w.clock, true, pc, NOTHING)]) && Reaches(w, w')
  {
    w' := Step(w, Spawn(t, pc));
    ReachStep(w, Spawn(t, pc));
  }

  lemma Moved(w: World, t: Id, pick: Id, next: Txn) returns (w': World)
    requires t in w.txns && Next(w, t, pick) == Goto(next)
    ensures w' == w.(txns := w.txns[t := next]) && Reaches(w, w')
  {
    hide Next;
    w' := Step(w, Run(t, pick));
    ReachStep(w, Run(t, pick));
  }

  lemma Wrote(w: World, t: Id, pick: Id, rows: Holding, next: Txn) returns (w': World)
    requires t in w.txns && Next(w, t, pick) == Write(rows, next)
    ensures w' == w.(txns := w.txns[t := next.(held := Plus(next.held, rows))]) && Reaches(w, w')
  {
    hide Next;
    w' := Step(w, Run(t, pick));
    ReachStep(w, Run(t, pick));
  }

  lemma Done(w: World, t: Id, pick: Id, next: Txn) returns (w': World)
    requires t in w.txns && Next(w, t, pick) == Commit(next)
    ensures w' == w.(db := With(w.db, next.held), txns := w.txns[t := next.(idle := true, held := NOTHING)]) &&
        Reaches(w, w')
  {
    hide Next, With;
    w' := Step(w, Run(t, pick));
    ReachStep(w, Run(t, pick));
  }

  lemma WithSession(db: Db, s: Id, row: SessionRow)
    ensures With(db, OneSession(s, row)) == db.(sessions := db.sessions[s := row])
  {
    OneRow(db.sessions, s, row);
    NoRow(db.orders);
    NoRow(db.items);
    NoRow(db.calls);
  }

  /** Writing a session row one already holds replaces it. */
  lemma PlusSession(s: Id, a: SessionRow, b: SessionRow)
    ensures Plus(OneSession(s, a), OneSession(s, b)) == OneSession(s, b)
    ensures Plus(NOTHING, OneSession(s, a)) == OneSession(s, a)
  {
  }

  // ----- Whole requests, run without interruption -----

  /** One session of a sweep. */
  lemma SweepPass(w: World, t: Id, s: Id) returns (w': World)
    requires Alone(w, t) && t in w.txns && w.txns[t].held == NOTHING && Sweeping(w.txns[t])
    requires w.txns[t].pc.SweepNext? && s in w.txns[t].pc.rows
    requires Is(w.db, s, Open) && LiveOf(w.db, s) == map[] && PendingOf(w.db, s) == {}
    ensures Reaches(w, w')
    ensures w' == World(w.db.(sessions := w.db.sessions[s := AbandonRow(w.db.sessions[s], w.txns[t].began)]), w.clock,
                        w.txns[t := w.txns[t].(pc := SweepNext(w.txns[t].pc.rows - {s}), idle := true)])
  {
    hide Reaches, NextOpen, NextOrder, NextItem, NextRestore, NextClose, NextCall, NextAck, MarkOne, DismissOne,
        Stale, LiveOf, PendingOf;
    hide Alone, WriteWhenFree, Free, With;
    var x := w.txns[t];
    var rows := x.pc.rows - {s};
    var row := AbandonRow(w.db.sessions[s], x.began);
    AloneIsFree(w, t, OneSession(s, row), x.(pc := SweepUpdate(s, rows)));
    var w1 := Wrote(w, t, s, OneSession(s, row), x.(pc := SweepUpdate(s, rows)));
    PlusSession(s, row, row);
    w' := SweepRest(w1, t, s, rows, row);
    WithSession(w.db, s, row);
    ReachTrans(w, w1, w');
  }

  lemma SweepIsNext(w: World, t: Id, pick: Id)
    requires t in w.txns && !w.txns[t].idle && (w.txns[t].pc.SweepNext? || Abandoning(w.txns[t].pc))
    ensures Next(w, t, pick) == NextSweep(w, t, w.txns[t], pick)
  {
    hide NextSweep;
  }

  lemma SweepRest(w: World, t: Id, s: Id, rows: set<Id>, row: SessionRow) returns (w': World)
    requires t in w.txns && !w.txns[t].idle && w.txns[t].pc == SweepUpdate(s, rows) &&
        w.txns[t].held == OneSession(s, row)
    requires LiveOf(w.db, s) == map[] && PendingOf(w.db, s) == {}
    ensures Reaches(w, w')
    ensures w' == World(With(w.db, OneSession(s, row)), w.clock,
                        w.txns[t := w.txns[t].(pc := SweepNext(rows), idle := true, held := NOTHING)])
  {
    hide Reaches, Next, MarkOne, DismissOne, LiveOf, PendingOf, With, OneSession;
    assert LiveOf(w.db, s).Keys == {};
    SweepIsNext(w, t, 0);
    var w1 := Moved(w, t, 0, w.txns[t].(pc := SweepMark(s, rows, map[], {})));
    w' := SweepMarked(w1, t, s, rows, row);
    ReachTrans(w, w1, w');
  }

  lemma SweepMarked(w: World, t: Id, s: Id, rows: set<Id>, row: SessionRow) returns (w': World)
    requires t in w.txns && !w.txns[t].idle && w.txns[t].pc == SweepMark(s, rows, map[], {})
    requires w.txns[t].held == OneSession(s, row) && PendingOf(w.db, s) == {}
    ensures Reaches(w, w')
    ensures w' == World(With(w.db, OneSession(s, row)), w.clock,
                        w.txns[t := w.txns[t].(pc := SweepNext(rows), idle := true, held := NOTHING)])
  {
    hide Reaches, Next, MarkOne, DismissOne, LiveOf, PendingOf, With, OneSession;
    SweepIsNext(w, t, 0);
    var w1 := Moved(w, t, 0, w.txns[t].(pc := SweepDismiss(s, rows)));
    w' := SweepEnds(w1, t, s, rows, row);
    ReachTrans(w, w1, w');
  }

  lemma SweepEnds(w: World, t: Id, s: Id, rows: set<Id>, row: SessionRow) returns (w': World)
    requires t in w.txns && !w.txns[t].idle && w.txns[t].pc == SweepDismiss(s, rows) &&
        w.txns[t].held == OneSession(s, row)
    requires PendingOf(w.db, s) == {}
    ensures Reaches(w, w')
    ensures w' == World(With(w.db, OneSession(s, row)), w.clock,
                        w.txns[t := w.txns[t].(pc := SweepNext(rows), idle := true, held := NOTHING)])
  {
    hide Reaches, Next, MarkOne, DismissOne, LiveOf, PendingOf, With, OneSession;
    var x := w.txns[t];
    SweepIsNext(w, t, 0);
    var w1 := Moved(w, t, 0, x.(pc := SweepCalls(s, rows, {})));
    w' := SweepCommits(w1, t, s, rows, row);
    ReachTrans(w, w1, w');
  }

  lemma SweepCommits(w: World, t: Id, s: Id, rows: set<Id>, row: SessionRow) returns (w': World)
    requires t in w.txns && !w.txns[t].idle && w.txns[t].pc == SweepCalls(s, rows, {}) &&
        w.txns[t].held == OneSession(s, row)
    ensures Reaches(w, w')
    ensures w' == World(With(w.db, OneSession(s, row)), w.clock,
                        w.txns[t := w.txns[t].(pc := SweepNext(rows), idle := true, held := NOTHING)])
  {
    hide Reaches, Next, DismissOne, With, OneSession;
    var x := w.txns[t];
    SweepIsNext(w, t, 0);
    var w1 := Moved(w, t, 0, x.(pc := SweepCommit(s, rows)));
    SweepIsNext(w1, t, 0);
    w' := Done(w1, t, 0, x.(pc := SweepNext(rows)));
    ReachTrans(w, w1, w');
  }

  /** A restore that has read its session, to a free table. */
  lemma RestorePass(w: World, t: Id, s: Id) returns (w': World)
    requires Alone(w, t) && t in w.txns && w.txns[t].held == NOTHING && !w.txns[t].idle
    requires w.txns[t].pc.RestoreFind? && w.txns[t].pc.sid == s
    requires Is(w.db, s, Abandoned) && w.db.sessions[s].restaurant == w.txns[t].pc.restaurant
    requires forall x :: !IsOpenAt(w.db, w.db.sessions[s].table, x)
    ensures Reaches(w, w')
    ensures w' == World(w.db.(sessions := w.db.sessions[s := ReopenRow(w.db.sessions[s], w.txns[t].began)]), w.clock,
                        w.txns[t := w.txns[t].(pc := Reopened(s), idle := true)])
  {
    hide Reaches, NextOpen, NextOrder, NextItem, NextSweep, NextClose, NextCall, NextAck;
    var x := w.txns[t];
    var w1 := Moved(w, t, 0, x.(pc := ReopenCas(s, x.pc.restaurant, x.pc.seen)));
    w' := ReopenPass(w1, t, s);
    ReachTrans(w, w1, w');
  }

  lemma ReopenPass(w: World, t: Id, s: Id) returns (w': World)
    requires Alone(w, t) && t in w.txns && w.txns[t].held == NOTHING && !w.txns[t].idle
    requires w.txns[t].pc.ReopenCas? && w.txns[t].pc.sid == s
    requires Is(w.db, s, Abandoned) && w.db.sessions[s].restaurant == w.txns[t].pc.restaurant
    requires forall x :: !IsOpenAt(w.db, w.db.sessions[s].table, x)
    ensures Reaches(w, w')
    ensures w' == World(w.db.(sessions := w.db.sessions[s := ReopenRow(w.db.sessions[s], w.txns[t].began)]), w.clock,
                        w.txns[t := w.txns[t].(pc := Reopened(s), idle := true)])
  {
    hide Reaches, NextOpen, NextOrder, NextItem, NextSweep, NextClose, NextCall, NextAck, WriteWhenFree, Free, With,
        IndexBusy, SessionFree;
    var x := w.txns[t];
    var row := ReopenRow(w.db.sessions[s], x.began);
    AloneIsFree(w, t, OneSession(s, row), x.(pc := ReopenCommit(s, x.pc.seen)));
    AloneIsUncontested(w, t, w.db.sessions[s].table);
    var w1 := Wrote(w, t, 0, OneSession(s, row), x.(pc := ReopenCommit(s, x.pc.seen)));
    PlusSession(s, row, row);
    w' := Done(w1, t, 0, x.(pc := Reopened(s), held := OneSession(s, row)));
    WithSession(w.db, s, row);
    ReachTrans(w, w1, w');
  }

  // ----- Overlapping sweeps -----

  /** A sweep up to its scan. */
  lemma SweepStarts(w: World, t: Id, s: Id) returns (w': World)
    requires t !in w.txns && Stale(w.db, s, w.clock)
    ensures t in w'.txns && w'.txns[t].began == w.clock && Sweeping(w'.txns[t]) && w'.txns[t].held == NOTHING
    ensures w'.txns[t].pc.SweepNext? && s in w'.txns[t].pc.rows
    ensures w' == w.(txns := w.txns[t := w'.txns[t]]) && Reaches(w, w')
  {
    hide Reaches, NextOpen, NextOrder, NextItem, NextRestore, NextClose, NextCall, NextAck;
    var w1 := Spawned(w, t, SweepScan);
    var rows := set k | k in w1.db.sessions && Stale(w1.db, k, w.clock);
    w' := Moved(w1, t, 0, Txn(w.clock, false, SweepNext(rows), NOTHING));
    ReachTrans(w, w1, w');
  }

  /** A restore up to the look for another open session; the 24-hour test has passed. */
  lemma RestoreStarts(w: World, t: Id, s: Id) returns (w': World)
    requires t !in w.txns && Is(w.db, s, Abandoned) && w.db.sessions[s].abandonedAt == Some(w.clock)
    ensures Reaches(w, w')
    ensures w' == w.(txns := w.txns[t := Txn(w.clock, false, RestoreFind(s, w.db.sessions[s].restaurant, w.clock),
        NOTHING)])
  {
    hide Reaches, NextOpen, NextOrder, NextItem, NextSweep, NextClose, NextCall, NextAck;
    var w1 := Spawned(w, t, RestoreRead(s, w.db.sessions[s].restaurant));
    w' := Moved(w1, t, 0, Txn(w.clock, false, RestoreFind(s, w.db.sessions[s].restaurant, w.clock), NOTHING));
    ReachTrans(w, w1, w');
  }

  lemma AloneAtTable(db: Db, db': Db, s: Id)
    requires OneOpenPerTable(db) && Is(db, s, Open)
    requires s in db'.sessions && db'.sessions == db.sessions[s := db'.sessions[s]] && db'.sessions[s].status != Open
    ensures forall x :: !IsOpenAt(db', db.sessions[s].table, x)
  {
  }

  lemma NothingLeft(a: Db, b: Db, s: Id)
    requires a.items == b.items && a.orders == b.orders && a.calls == b.calls
    requires s in a.sessions && s in b.sessions && a.sessions[s].restaurant == b.sessions[s].restaurant
    ensures LiveOf(a, s) == LiveOf(b, s) && PendingOf(a, s) == PendingOf(b, s)
  {
  }

  /** Sweeps overlap until a restore has tested one stamp. */
  lemma TwoSweepsAndARestore(db: Db, clock: Time, later: Time, s: Id) returns (w: World)
    requires Sound(db) && Stale(db, s, clock) && clock < later && Stale(db, s, later)
    requires LiveOf(db, s) == map[] && PendingOf(db, s) == {}
    ensures Reaches(Start(db, clock), w) && w.txns.Keys == {1, 2, 3} && w.clock == later
    ensures w.txns[1].held == w.txns[2].held == w.txns[3].held == NOTHING
    ensures Sweeping(w.txns[1]) && w.txns[1].pc.SweepNext? && s in w.txns[1].pc.rows && w.txns[1].began == clock
    ensures w.txns[3] == Txn(later, false, RestoreFind(s, db.sessions[s].restaurant, later), NOTHING)
    ensures w.db == db.(sessions := db.sessions[s := AbandonRow(db.sessions[s], later)])
  {
    hide Reaches, LiveOf, PendingOf, Sound;
    var w0 := Start(db, clock);
    var w1 := SweepStarts(w0, 1, s);
    var w2 := Step(w1, Tick(later));
    ReachStep(w1, Tick(later));
    var w3 := SweepStarts(w2, 2, s);
    var w4 := SweepPass(w3, 2, s);
    ReachFour(w0, w1, w2, w3, w4);
    w := RestoreStarts(w4, 3, s);
    ReachTrans(w0, w4, w);
  }

  /** Two overlapping sweeps defeat the guarantee of RestoreStamp: a restore is about to act
      on a session whose stamp is older than the one its 24-hour test accepted, by any
      amount, because a sweep stamps with the instant its transaction began. */
  lemma OverlappingSweeps(db: Db, clock: Time, later: Time, s: Id) returns (w: World)
    requires Sound(db) && Stale(db, s, clock) && clock < later && Stale(db, s, later)
    requires LiveOf(db, s) == map[] && PendingOf(db, s) == {}
    ensures Reaches(Start(db, clock), w) && 3 in w.txns
    ensures AboutToRestore(w.txns[3].pc) && Next(w, 3, 0).Write?
    ensures Tested(w.txns[3].pc) == Some((s, later))
    ensures Is(w.db, s, Abandoned) && w.db.sessions[s].abandonedAt == Some(clock)
  {
    hide Reaches, LiveOf, PendingOf, Next, SessionsLinked, Linked, SessionShapes, ItemShapes, Catalogued;
    var w0 := Start(db, clock);
    var w1 := TwoSweepsAndARestore(db, clock, later, s);
    AloneAtTable(db, w1.db, s);
    var w2 := RestoreStarts(w1, 4, s);
    var w3 := RestorePass(w2, 4, s);
    NothingLeft(db, w3.db, s);
    w := SecondStamp(w3, clock, later, s);
    ReachFour(w0, w1, w2, w3, w);
  }

  /** The sweep that scanned first abandons the session again, and the restore goes on. */
  lemma SecondStamp(w: World, clock: Time, later: Time, s: Id) returns (w': World)
    requires {1, 3} <= w.txns.Keys && Alone(w, 1) && w.txns[1].held == NOTHING && OneOpenPerTable(w.db)
    requires Is(w.db, s, Open) && LiveOf(w.db, s) == map[] && PendingOf(w.db, s) == {}
    requires Sweeping(w.txns[1]) && w.txns[1].pc.SweepNext? && s in w.txns[1].pc.rows && w.txns[1].began == clock
    requires w.txns[3] == Txn(later, false, RestoreFind(s, w.db.sessions[s].restaurant, later), NOTHING)
    ensures Reaches(w, w') && 3 in w'.txns && AboutToRestore(w'.txns[3].pc) && Next(w', 3, 0).Write?
    ensures Tested(w'.txns[3].pc) == Some((s, later)) && Is(w'.db, s, Abandoned) &&
        w'.db.sessions[s].abandonedAt == Some(clock)
  {
    hide Reaches, LiveOf, PendingOf, NextOpen, NextOrder, NextItem, NextClose, NextSweep, NextCall, NextAck;
    hide WriteWhenFree, Free, IndexBusy, SessionFree;
    var r := w.db.sessions[s].restaurant;
    var w1 := SweepPass(w, 1, s);
    AloneAtTable(w.db, w1.db, s);
    var x := Txn(later, false, ReopenCas(s, r, later), NOTHING);
    w' := Moved(w1, 3, 0, x);
    ReachTrans(w, w1, w');
    assert Alone(w', 3);
    AloneIsFree(w', 3, OneSession(s, ReopenRow(w'.db.sessions[s], later)), x.(pc := ReopenCommit(s, later)));
    AloneIsUncontested(w', 3, w'.db.sessions[s].table);
  }

  // ----- Late orders and late calls -----

  /** A checkout of a session without live items or pending calls. */
  lemma ClosePass(w: World, t: Id, s: Id) returns (w': World)
    requires Alone(w, t) && Is(w.db, s, Open) && LiveOf(w.db, s) == map[] && PendingOf(w.db, s) == {}
    requires t in w.txns && w.txns[t].held == NOTHING &&
        w.txns[t].pc == CloseCas(s, w.db.sessions[s].restaurant, Open, None)
    ensures Reaches(w, w') && w'.clock == w.clock && t in w'.txns && w'.txns == w.txns[t := w'.txns[t]] &&
        w'.txns[t].held == NOTHING
    ensures s in w'.db.sessions && w'.db.sessions[s].status == Closed &&
        w'.db.sessions[s].restaurant == w.db.sessions[s].restaurant
    ensures w'.db == w.db.(sessions := w.db.sessions[s := w'.db.sessions[s]])
  {
    hide Reaches, Next, Awake, LiveOf, PendingOf, OneSession, CloseRow;
    var row, w1 := CloseStarts(w, t, s);
    var total, w2 := CloseLooks(w1, t, s);
    w' := CloseRest(w2, t, s, row, total);
    ReachTrans(w, w1, w2);
    ReachTrans(w, w2, w');
  }

  lemma CloseStarts(w: World, t: Id, s: Id) returns (row: SessionRow, w': World)
    requires Alone(w, t) && Is(w.db, s, Open)
    requires t in w.txns && w.txns[t].held == NOTHING &&
        w.txns[t].pc == CloseCas(s, w.db.sessions[s].restaurant, Open, None)
    ensures row.status == Closed && row.restaurant == w.db.sessions[s].restaurant
    ensures Reaches(w, w') && t in w'.txns && w' == w.(txns := w.txns[t := w'.txns[t]])
    ensures !w'.txns[t].idle && w'.txns[t].pc == CloseList(s, Open) && w'.txns[t].held == OneSession(s, row)
  {
    hide Reaches, NextOpen, NextOrder, NextItem, NextRestore, NextSweep, NextCall, NextAck, LiveOf, PendingOf,
        MarkOne, DismissOne;
    hide WriteWhenFree, Free;
    var x := Awake(w, w.txns[t]);
    row := CloseRow(w.db.sessions[s], x.began);
    var next := x.(pc := CloseList(s, Open));
    AloneIsFree(w, t, OneSession(s, row), next);
    w' := Wrote(w, t, 0, OneSession(s, row), next);
    PlusSession(s, row, row);
  }

  lemma CloseLooks(w: World, t: Id, s: Id) returns (total: int, w': World)
    requires t in w.txns && !w.txns[t].idle && w.txns[t].pc == CloseList(s, Open) && LiveOf(w.db, s) == map[]
    ensures w' == w.(txns := w.txns[t := w.txns[t].(pc := CloseTotal(s, Open, map[], total))]) && Reaches(w, w')
  {
    hide Reaches, Next, LiveOf, ServedLines, PendingOf, DismissOne, MarkOne;
    CloseIsNext(w, t, 0);
    var w1 := Moved(w, t, 0, w.txns[t].(pc := CloseSum(s, Open, map[])));
    total, w' := CloseAdds(w1, t, s);
    ReachTrans(w, w1, w');
  }

  lemma CloseAdds(w: World, t: Id, s: Id) returns (total: int, w': World)
    requires t in w.txns && !w.txns[t].idle && w.txns[t].pc == CloseSum(s, Open, map[])
    ensures w' == w.(txns := w.txns[t := w.txns[t].(pc := CloseTotal(s, Open, map[], total))]) && Reaches(w, w')
  {
    hide Reaches, Next, LiveOf, ServedLines, PendingOf, DismissOne, MarkOne;
    CloseIsNext(w, t, 0);
    total := Sum(ServedLines(w.db.items + w.txns[t].held.items, w.db.orders, s));
    w' := Moved(w, t, 0, w.txns[t].(pc := CloseTotal(s, Open, map[], total)));
  }

  lemma CloseIsNext(w: World, t: Id, pick: Id)
    requires t in w.txns && !w.txns[t].idle && Closing(w.txns[t].pc)
    ensures Next(w, t, pick) == NextClose(w, t, w.txns[t], pick)
  {
    hide NextClose;
  }

  lemma TotalIsNext(w: World, t: Id, s: Id, row: SessionRow, total: int)
    requires Alone(w, t) && t in w.txns && !w.txns[t].idle && w.txns[t].pc == CloseTotal(s, Open, map[], total)
    requires w.txns[t].held == OneSession(s, row)
    ensures Next(w, t, 0)
            == Write(OneSession(s, BillRow(row, total)), w.txns[t].(pc := CloseDismiss(s, Open, map[], total)))
  {
    hide Next, WriteWhenFree, Free, BillRow;
    CloseIsNext(w, t, 0);
    AloneIsFree(w, t, OneSession(s, BillRow(row, total)), w.txns[t].(pc := CloseDismiss(s, Open, map[], total)));
  }

  lemma CloseRest(w: World, t: Id, s: Id, row: SessionRow, total: int) returns (w': World)
    requires Alone(w, t) && t in w.txns && !w.txns[t].idle && w.txns[t].pc == CloseTotal(s, Open, map[], total)
    requires w.txns[t].held == OneSession(s, row) && PendingOf(w.db, s) == {}
    ensures Reaches(w, w') && w'.clock == w.clock && t in w'.txns && w'.txns == w.txns[t := w'.txns[t]] &&
        w'.txns[t].held == NOTHING
    ensures w'.db == w.db.(sessions := w.db.sessions[s := BillRow(row, total)])
  {
    hide Reaches, Alone, Next, PendingOf, Plus, OneSession, BillRow;
    var billed := BillRow(row, total);
    TotalIsNext(w, t, s, row, total);
    var w1 := Wrote(w, t, 0, OneSession(s, billed), w.txns[t].(pc := CloseDismiss(s, Open, map[], total)));
    PlusSession(s, row, billed);
    w' := CloseCommits(w1, t, s, billed, total);
    ReachTrans(w, w1, w');
  }

  lemma CloseCommits(w: World, t: Id, s: Id, row: SessionRow, total: int) returns (w': World)
    requires t in w.txns && !w.txns[t].idle && w.txns[t].pc == CloseDismiss(s, Open, map[], total)
    requires w.txns[t].held == OneSession(s, row) && PendingOf(w.db, s) == {}
    ensures Reaches(w, w') && w'.clock == w.clock && t in w'.txns && w'.txns == w.txns[t := w'.txns[t]] &&
        w'.txns[t].held == NOTHING
    ensures w'.db == w.db.(sessions := w.db.sessions[s := row])
  {
    hide Reaches, Next, LiveOf, ServedLines, PendingOf, DismissOne, MarkOne, With;
    var x := w.txns[t];
    CloseIsNext(w, t, 0);
    var w1 := Moved(w, t, 0, x.(pc := CloseCalls(s, Open, map[], total, {}, 0)));
    w' := CloseEnds(w1, t, s, row, total);
    ReachTrans(w, w1, w');
  }

  lemma CloseEnds(w: World, t: Id, s: Id, row: SessionRow, total: int) returns (w': World)
    requires t in w.txns && !w.txns[t].idle && w.txns[t].pc == CloseCalls(s, Open, map[], total, {}, 0)
    requires w.txns[t].held == OneSession(s, row)
    ensures Reaches(w, w') && w'.clock == w.clock && t in w'.txns && w'.txns == w.txns[t := w'.txns[t]] &&
        w'.txns[t].held == NOTHING
    ensures w'.db == w.db.(sessions := w.db.sessions[s := row])
  {
    hide Reaches, Next, LiveOf, ServedLines, PendingOf, DismissOne, MarkOne, With;
    var x := w.txns[t];
    CloseIsNext(w, t, 0);
    var w1 := Moved(w, t, 0, x.(pc := CloseCommit(s, Open, map[], total, 0)));
    CloseIsNext(w1, t, 0);
    w' := Done(w1, t, 0, x.(pc := CloseDone(s, map[], total, 0)));
    WithSession(w.db, s, row);
    ReachTrans(w, w1, w');
  }

  /** Where a request that has found the open session s of its table stands before it reads
      the menu, or before it writes. */
  function Reading(db: Db, s: Id, goal: Goal): Pc
    requires s in db.sessions && (goal.ToOrder? || goal.ToCall?)
  {
    if goal.ToOrder? then OrderRead(s, db.sessions[s].restaurant, goal.basket, map[], 0)
    else CallTouch(s, db.sessions[s].table, db.sessions[s].restaurant)
  }

  predicate MayCall(db: Db, s: Id, clock: Time) {
    && s in db.sessions
    && var row := db.sessions[s];
       !Requests.CalledRecently(db, row.table, Requests.CooldownSeconds(db, row.restaurant), clock)
  }

  lemma GoalStarts(w: World, t: Id, s: Id, goal: Goal) returns (w': World)
    requires Sound(w.db) && t !in w.txns && Is(w.db, s, Open) && Fits(goal)
    requires goal.ToOrder? || (goal.ToCall? && MayCall(w.db, s, w.clock))
    ensures Reaches(w, w') && w' == w.(txns := w.txns[t := Txn(w.clock, false, Reading(w.db, s, goal), NOTHING)])
  {
    hide Reaches, NextOrder, NextItem, NextRestore, NextClose, NextSweep, NextAck, NextCall, Fits;
    var table, r := w.db.sessions[s].table, w.db.sessions[s].restaurant;
    assert IsOpenAt(w.db, table, s);
    var w1 := Spawned(w, t, OpenFind(table, r, None, goal));
    if goal.ToOrder? {
      w' := Moved(w1, t, 0, Txn(w.clock, false, OrderRead(s, r, goal.basket, map[], 0), NOTHING));
      ReachTrans(w, w1, w');
    } else {
      var w2 := Moved(w1, t, 0, Txn(w.clock, false, CallRead(s, table, r), NOTHING));
      w' := CallChecks(w2, t, s, table, r);
      ReachTrans(w, w1, w2);
      ReachTrans(w, w2, w');
    }
  }

  /** A staff call reads the cooldown and passes its check. */
  lemma CallChecks(w: World, t: Id, s: Id, table: Id, r: Id) returns (w': World)
    requires t in w.txns && w.txns[t] == Txn(w.clock, false, CallRead(s, table, r), NOTHING)
    requires !Requests.CalledRecently(w.db, table, Requests.CooldownSeconds(w.db, r), w.clock)
    ensures Reaches(w, w') && w' == w.(txns := w.txns[t := Txn(w.clock, false, CallTouch(s, table, r), NOTHING)])
  {
    hide Reaches, NextOpen, NextOrder, NextItem, NextRestore, NextClose, NextSweep, NextAck, Requests.CalledRecently,
        Requests.CooldownSeconds;
    var w1 := Moved(w, t, 0, w.txns[t].(pc := CallCheck(s, table, r, Requests.CooldownSeconds(w.db, r))));
    w' := Moved(w1, t, 0, w.txns[t].(pc := CallTouch(s, table, r)));
    ReachTrans(w, w1, w');
  }

  /** A request reads the open session of its table, then the session is checked out. */
  lemma ClosedMeanwhile(db: Db, clock: Time, s: Id, goal: Goal) returns (w: World)
    requires Sound(db) && Is(db, s, Open) && LiveOf(db, s) == map[] && PendingOf(db, s) == {}
    requires Fits(goal) && (goal.ToOrder? || (goal.ToCall? && MayCall(db, s, clock)))
    ensures Reaches(Start(db, clock), w) && w.clock == clock && Is(w.db, s, Closed)
    ensures w.db.sessions[s].restaurant == db.sessions[s].restaurant
    ensures w.db == db.(sessions := db.sessions[s := w.db.sessions[s]])
    ensures Alone(w, 1) && 1 in w.txns && w.txns[1] == Txn(clock, false, Reading(db, s, goal), NOTHING)
  {
    hide Reaches, LiveOf, PendingOf, Sound;
    var w0 := Start(db, clock);
    var w1 := GoalStarts(w0, 1, s, goal);
    var w2 := Spawned(w1, 2, CloseCas(s, db.sessions[s].restaurant, Open, None));
    w := ClosePass(w2, 2, s);
    ReachFour(w0, w1, w2, w, w) by { ReachSame(w); }
  }

  /** The same with a sweep in place of the checkout. */
  lemma AbandonedMeanwhile(db: Db, clock: Time, s: Id, goal: Goal) returns (w: World)
    requires Sound(db) && Stale(db, s, clock) && LiveOf(db, s) == map[] && PendingOf(db, s) == {}
    requires Fits(goal) && (goal.ToOrder? || (goal.ToCall? && MayCall(db, s, clock)))
    ensures Reaches(Start(db, clock), w) && w.clock == clock && Is(w.db, s, Abandoned)
    ensures w.db.sessions[s].restaurant == db.sessions[s].restaurant
    ensures w.db == db.(sessions := db.sessions[s := w.db.sessions[s]])
    ensures Alone(w, 1) && 1 in w.txns && w.txns[1] == Txn(clock, false, Reading(db, s, goal), NOTHING)
  {
    hide Reaches, LiveOf, PendingOf, Sound;
    var w0 := Start(db, clock);
    var w1 := GoalStarts(w0, 1, s, goal);
    var w2 := SweepStarts(w1, 2, s);
    w := SweepPass(w2, 2, s);
    ReachFour(w0, w1, w2, w, w) by { ReachSame(w); }
  }

  /** The order and its rows are new. */
  predicate NewTo(db: Db, basket: Basket) {
    basket.order !in db.orders && forall i | i in basket.ids :: i !in db.items
  }

  /** Every line of the basket is on sale in the session's restaurant. */
  predicate Offered(db: Db, s: Id, basket: Basket) {
    s in db.sessions && Requests.AllOrderable(db.menu, db.sessions[s].restaurant, basket.lines)
  }

  predicate OnMenu(dishes: Menu, menu: Menu) {
    forall m | m in dishes :: m in menu && dishes[m] == menu[m]
  }

  /** create_order reads its lines from the k-th on. */
  lemma {:induction false} ReadPass(w: World, t: Id, s: Id, r: Id, basket: Basket, dishes: Menu, k: nat)
      returns (w': World, all: Menu)
    requires t in w.txns && w.txns[t] == Txn(w.txns[t].began, false, OrderRead(s, r, basket, dishes, k), NOTHING)
    requires k <= |basket.lines| == |basket.ids| && Requests.AllOrderable(w.db.menu, r, basket.lines)
    requires OnMenu(dishes, w.db.menu) && forall j | 0 <= j < k :: basket.lines[j].menuItem in dishes
    ensures OnMenu(all, w.db.menu) && AllRead(basket, r, all)
    ensures Reaches(w, w')
    ensures w' == w.(txns := w.txns[t := Txn(w.txns[t].began, false, OrderInsert(s, r, basket, all, w.clock), NOTHING)])
    decreases |basket.lines| - k
  {
    hide Reaches, NextOpen, NextItem, NextRestore, NextClose, NextSweep, NextCall, NextAck, WriteWhenFree, Free;
    var x := w.txns[t];
    if k == |basket.lines| {
      all := dishes;
      forall l | l in basket.lines ensures Requests.Orderable(all, r, l) {
        assert Requests.Orderable(w.db.menu, r, l);
      }
      w' := Moved(w, t, 0, x.(pc := OrderInsert(s, r, basket, dishes, w.clock)));
    } else {
      var m := basket.lines[k].menuItem;
      assert Requests.Orderable(w.db.menu, r, basket.lines[k]) by { assert basket.lines[k] in basket.lines; }
      var more := dishes[m := w.db.menu[m]];
      var w1 := Moved(w, t, 0, x.(pc := OrderRead(s, r, basket, more, k + 1)));
      w', all := ReadPass(w1, t, s, r, basket, more, k + 1);
      ReachTrans(w, w1, w');
    }
  }

  /** The rest of create_order once get_or_open has answered. */
  lemma OrderPass(w: World, t: Id, s: Id, r: Id, basket: Basket) returns (w': World, dishes: Menu)
    requires Alone(w, t) && t in w.txns
    requires w.txns[t] == Txn(w.txns[t].began, false, OrderRead(s, r, basket, map[], 0), NOTHING)
    requires s in w.db.sessions && NewTo(w.db, basket) && Fits(ToOrder(basket))
    requires Catalogued(w.db) && Requests.AllOrderable(w.db.menu, r, basket.lines)
    ensures Reaches(w, w') && OnMenu(dishes, w.db.menu) && AllRead(basket, r, dishes)
    ensures w'.db.orders == w.db.orders[basket.order := OrderRow(r, s)]
    ensures w'.db.items == w.db.items + RowsOf(basket, r, dishes, w.clock)
    ensures w'.db.sessions == w.db.sessions[s := TouchRow(w.db.sessions[s], w.clock)]
    ensures forall i :: i in RowsOf(basket, r, dishes, w.clock) <==> i in basket.ids
    ensures forall i | i in basket.ids :: FreshLine(RowsOf(basket, r, dishes, w.clock)[i], basket.order, r)
  {
    hide Reaches, Requests.AllOrderable, RowsOf;
    var w1, all := ReadPass(w, t, s, r, basket, map[], 0);
    dishes := all;
    RowsAreFresh(basket, r, dishes, w.clock) by { assert Requests.Priced(dishes); }
    w' := InsertPass(w1, t, s, r, basket, dishes);
    ReachTrans(w, w1, w');
  }

  lemma RowsAreFresh(basket: Basket, r: Id, dishes: Menu, at: Time)
    requires Fits(ToOrder(basket)) && AllRead(basket, r, dishes) && Requests.Priced(dishes)
    ensures forall i :: i in RowsOf(basket, r, dishes, at) <==> i in basket.ids
    ensures forall i | i in basket.ids :: FreshLine(RowsOf(basket, r, dishes, at)[i], basket.order, r)
  {
    Requests.LineRowsAreFresh(dishes, r, basket.order, basket.lines, basket.ids, at);
  }

  lemma InsertPass(w: World, t: Id, s: Id, r: Id, basket: Basket, dishes: Menu) returns (w': World)
    requires Alone(w, t) && t in w.txns
    requires w.txns[t] == Txn(w.txns[t].began, false, OrderInsert(s, r, basket, dishes, w.clock), NOTHING)
    requires s in w.db.sessions && basket.order !in w.db.orders
    requires RowsOf(basket, r, dishes, w.clock).Keys !! w.db.items.Keys
    ensures Reaches(w, w') && w'.db.menu == w.db.menu
    ensures w'.db.orders == w.db.orders[basket.order := OrderRow(r, s)]
    ensures w'.db.items == w.db.items + RowsOf(basket, r, dishes, w.clock)
    ensures w'.db.sessions == w.db.sessions[s := TouchRow(w.db.sessions[s], w.clock)]
  {
    hide Reaches, NextOpen, NextItem, NextRestore, NextClose, NextSweep, NextCall, NextAck, WriteWhenFree, Free, RowsOf;
    var order, rows := OneOrder(basket.order, OrderRow(r, s)), RowsOf(basket, r, dishes, w.clock);
    var x1 := w.txns[t].(pc := OrderLines(s, r, basket, dishes, w.clock));
    AloneIsFree(w, t, order, x1);
    var w1 := Wrote(w, t, 0, order, x1);
    assert Plus(NOTHING, order) == order;
    var x2 := x1.(pc := OrderTouch(s, r, basket, dishes, w.clock), held := order);
    AloneIsFree(w1, t, SomeItems(rows), x2);
    var w2 := Wrote(w1, t, 0, SomeItems(rows), x2);
    assert Plus(order, SomeItems(rows)) == order.(items := rows);
    w' := OrderRest(w2, t, s, r, basket, dishes, rows, TouchRow(w.db.sessions[s], w.clock));
    ReachTrans(w, w1, w2);
    ReachTrans(w, w2, w');
  }

  lemma OrderRest(w: World, t: Id, s: Id, r: Id, basket: Basket, dishes: Menu, rows: map<Id, ItemRow>, row: SessionRow)
      returns (w': World)
    requires Alone(w, t) && t in w.txns && s in w.db.sessions && row == TouchRow(w.db.sessions[s], w.clock)
    requires w.txns[t] == Txn(w.txns[t].began, false, OrderTouch(s, r, basket, dishes, w.clock),
                              OneOrder(basket.order, OrderRow(r, s)).(items := rows))
    ensures Reaches(w, w') && w'.db.menu == w.db.menu
    ensures w'.db.orders == w.db.orders[basket.order := OrderRow(r, s)] && w'.db.items == w.db.items + rows
    ensures w'.db.sessions == w.db.sessions[s := row]
  {
    hide Reaches, NextOpen, NextItem, NextRestore, NextClose, NextSweep, NextCall, NextAck, WriteWhenFree, Free, RowsOf;
    var h := w.txns[t].held;
    var x1 := w.txns[t].(pc := OrderCommit(s, r, basket, dishes, w.clock));
    AloneIsFree(w, t, OneSession(s, row), x1);
    var w1 := Wrote(w, t, 0, OneSession(s, row), x1);
    assert Plus(h, OneSession(s, row)) == h.(sessions := map[s := row]);
    w' := Done(w1, t, 0, x1.(pc := OrderDone(s), held := h.(sessions := map[s := row])));
    OneRow(w.db.sessions, s, row);
    OneRow(w.db.orders, basket.order, OrderRow(r, s));
    ReachTrans(w, w1, w');
  }

  /** create_order looks at the session before it writes: an order for an open table can land
      after the checkout, with all its lines live in a closed session and off its bill. */
  lemma LateOrder(db: Db, clock: Time, s: Id, basket: Basket) returns (w: World)
    requires Sound(db) && Is(db, s, Open) && LiveOf(db, s) == map[] && PendingOf(db, s) == {}
    requires Fits(ToOrder(basket)) && NewTo(db, basket) && Offered(db, s, basket)
    ensures Reaches(Start(db, clock), w) && Is(w.db, s, Closed)
    ensures forall i | i in basket.ids :: i in LiveOf(w.db, s)
  {
    hide Reaches, Linked, OneOpenPerTable, SessionShapes, ItemShapes, LiveOf, PendingOf, Fits, RowsOf, AllRead;
    var r := db.sessions[s].restaurant;
    var w1 := ClosedMeanwhile(db, clock, s, ToOrder(basket));
    var w2, dishes := OrderPass(w1, 1, s, r, basket);
    w := w2;
    ReachTrans(Start(db, clock), w1, w);
    LinesAreLive(w.db, s, r, basket, RowsOf(basket, r, dishes, w1.clock));
  }

  /** The same when a sweep comes in between: the order is live in an abandoned session, where
      nothing else can be. */
  lemma OrderIntoAbandoned(db: Db, clock: Time, s: Id, basket: Basket) returns (w: World)
    requires Sound(db) && Stale(db, s, clock) && LiveOf(db, s) == map[] && PendingOf(db, s) == {}
    requires Fits(ToOrder(basket)) && NewTo(db, basket) && Offered(db, s, basket)
    ensures Reaches(Start(db, clock), w) && Is(w.db, s, Abandoned)
    ensures forall i | i in basket.ids :: i in LiveOf(w.db, s)
  {
    hide Reaches, Linked, OneOpenPerTable, SessionShapes, ItemShapes, LiveOf, PendingOf, Fits, RowsOf, AllRead;
    var r := db.sessions[s].restaurant;
    var w1 := AbandonedMeanwhile(db, clock, s, ToOrder(basket));
    var w2, dishes := OrderPass(w1, 1, s, r, basket);
    w := w2;
    ReachTrans(Start(db, clock), w1, w);
    LinesAreLive(w.db, s, r, basket, RowsOf(basket, r, dishes, w1.clock));
  }

  /** An order keeps the price it has read: an edit that commits between the read and the insert
      leaves the new item with a price that is no longer on the menu. */
  lemma OldPrice(db: Db, clock: Time, s: Id, basket: Basket, dish: MenuRow) returns (w: World)
    requires Sound(db) && Is(db, s, Open) && Fits(ToOrder(basket)) && NewTo(db, basket) && Offered(db, s, basket)
    requires basket.lines[0].menuItem in db.menu && dish.price != db.menu[basket.lines[0].menuItem].price
    requires Guard(db, EditMenu(basket.lines[0].menuItem, dish))
    ensures Reaches(Start(db, clock), w) && basket.ids[0] in w.db.items
    ensures var m := basket.lines[0].menuItem;
            m in w.db.menu && w.db.menu[m] == dish && w.db.items[basket.ids[0]].price == db.menu[m].price
  {
    hide Reaches, Linked, OneOpenPerTable, SessionShapes, ItemShapes, RowsOf, LiveOf;
    var r, m := db.sessions[s].restaurant, basket.lines[0].menuItem;
    var w1 := GoalStarts(Start(db, clock), 1, s, ToOrder(basket));
    var w2, dishes := ReadPass(w1, 1, s, r, basket, map[], 0);
    var w3 := Step(w2, Edit(EditMenu(m, dish)));
    ReachStep(w2, Edit(EditMenu(m, dish)));
    RowsAreFresh(basket, r, dishes, clock) by { assert Requests.Priced(dishes); }
    w := InsertPass(w3, 1, s, r, basket, dishes);
    ReachFour(Start(db, clock), w1, w2, w3, w);
    FirstRow(basket, r, dishes, clock);
  }

  lemma FirstRow(basket: Basket, r: Id, dishes: Menu, at: Time)
    requires Fits(ToOrder(basket)) && AllRead(basket, r, dishes)
    ensures basket.lines[0].menuItem in dishes && basket.ids[0] in RowsOf(basket, r, dishes, at)
    ensures RowsOf(basket, r, dishes, at)[basket.ids[0]].price == dishes[basket.lines[0].menuItem].price
  {
    O.LineRowAt(dishes, r, basket.order, basket.lines, basket.ids, at, 0);
  }

  lemma LinesAreLive(db: Db, s: Id, r: Id, basket: Basket, rows: map<Id, ItemRow>)
    requires basket.order in db.orders && db.orders[basket.order].session == s
    requires forall i | i in basket.ids ::
               i in rows && i in db.items && db.items[i] == rows[i] && FreshLine(rows[i], basket.order, r)
    ensures forall i | i in basket.ids :: i in LiveOf(db, s)
  {
  }

  /** The rest of a staff call once the cooldown has been checked. */
  lemma CallPass(w: World, t: Id, s: Id, table: Id, r: Id, call: Id) returns (w': World)
    requires Alone(w, t) && t in w.txns && w.txns[t] == Txn(w.txns[t].began, false, CallTouch(s, table, r), NOTHING)
    requires s in w.db.sessions && call !in w.db.calls
    ensures Reaches(w, w') && w'.clock == w.clock && t in w'.txns && w'.txns == w.txns[t := w'.txns[t]] &&
        w'.txns[t].held == NOTHING
    ensures w'.db == w.db.(sessions := w.db.sessions[s := TouchRow(w.db.sessions[s], w.txns[t].began)],
                           calls := w.db.calls[call := CallRow(r, table, s, Waiting, w.txns[t].began, None, None)])
  {
    hide Reaches, NextOpen, NextOrder, NextItem, NextRestore, NextClose, NextSweep, NextAck, WriteWhenFree, Free;
    var x := w.txns[t];
    var row := TouchRow(w.db.sessions[s], x.began);
    var added := CallRow(r, table, s, Waiting, x.began, None, None);
    var x1 := x.(pc := CallInsert(s, table, r));
    AloneIsFree(w, t, OneSession(s, row), x1);
    var w1 := Wrote(w, t, 0, OneSession(s, row), x1);
    PlusSession(s, row, row);
    w' := CallRest(w1, t, s, table, r, call, row, added);
    ReachTrans(w, w1, w');
  }

  lemma CallRest(w: World, t: Id, s: Id, table: Id, r: Id, call: Id, row: SessionRow, added: CallRow)
      returns (w': World)
    requires Alone(w, t) && t in w.txns && call !in w.db.calls
    requires w.txns[t] == Txn(w.txns[t].began, false, CallInsert(s, table, r), OneSession(s, row))
    requires added == CallRow(r, table, s, Waiting, w.txns[t].began, None, None)
    ensures Reaches(w, w') && w'.clock == w.clock && t in w'.txns && w'.txns == w.txns[t := w'.txns[t]] &&
        w'.txns[t].held == NOTHING
    ensures w'.db == w.db.(sessions := w.db.sessions[s := row], calls := w.db.calls[call := added])
  {
    hide Reaches, NextOpen, NextOrder, NextItem, NextRestore, NextClose, NextSweep, NextAck, WriteWhenFree, Free,
        With, Plus;
    var h := OneSession(s, row).(calls := map[call := added]);
    var x1 := w.txns[t].(pc := CallCommit(s, table, r, call));
    AloneIsFree(w, t, OneCall(call, added), x1);
    var w1 := Wrote(w, t, call, OneCall(call, added), x1);
    PlusCall(s, row, call, added);
    w' := Done(w1, t, 0, x1.(pc := CallDone(call), held := h));
    WithSessionAndCall(w.db, s, row, call, added);
    ReachTrans(w, w1, w');
  }

  lemma PlusCall(s: Id, row: SessionRow, call: Id, added: CallRow)
    ensures Plus(OneSession(s, row), OneCall(call, added)) == OneSession(s, row).(calls := map[call := added])
  {
  }

  lemma WithSessionAndCall(db: Db, s: Id, row: SessionRow, call: Id, added: CallRow)
    ensures With(db, OneSession(s, row).(calls := map[call := added]))
            == db.(sessions := db.sessions[s := row], calls := db.calls[call := added])
  {
    OneRow(db.sessions, s, row);
    OneRow(db.calls, call, added);
    NoRow(db.orders);
    NoRow(db.items);
  }

  /** A staff call, too, can land after the checkout: a closed session with someone waiting. */
  lemma LateCall(db: Db, clock: Time, s: Id, call: Id) returns (w: World)
    requires Sound(db) && Is(db, s, Open) && LiveOf(db, s) == map[] && PendingOf(db, s) == {}
    requires MayCall(db, s, clock) && call !in db.calls
    ensures Reaches(Start(db, clock), w) && Is(w.db, s, Closed) && call in PendingOf(w.db, s)
  {
    hide Reaches, Sound, LiveOf, MayCall;
    var r, table := db.sessions[s].restaurant, db.sessions[s].table;
    var w1 := ClosedMeanwhile(db, clock, s, ToCall);
    w := CallPass(w1, 1, s, table, r, call);
    ReachTrans(Start(db, clock), w1, w);
  }

  /** ... or of an abandoned one. */
  lemma CallIntoAbandoned(db: Db, clock: Time, s: Id, call: Id) returns (w: World)
    requires Sound(db) && Stale(db, s, clock) && LiveOf(db, s) == map[] && PendingOf(db, s) == {}
    requires MayCall(db, s, clock) && call !in db.calls
    ensures Reaches(Start(db, clock), w) && Is(w.db, s, Abandoned) && call in PendingOf(w.db, s)
  {
    hide Reaches, Sound, LiveOf, MayCall;
    var r, table := db.sessions[s].restaurant, db.sessions[s].table;
    var w1 := AbandonedMeanwhile(db, clock, s, ToCall);
    w := CallPass(w1, 1, s, table, r, call);
    ReachTrans(Start(db, clock), w1, w);
  }

  // ----- Two calls, two acknowledgements -----

  /** Two requests that check the cooldown before either commits both create a call, at the
      same instant, whatever the cooldown is. */
  lemma TwoCallsAtOnce(db: Db, clock: Time, s: Id, c1: Id, c2: Id) returns (w: World)
    requires Sound(db) && Is(db, s, Open) && MayCall(db, s, clock)
    requires c1 !in db.calls && c2 !in db.calls && c1 != c2
    ensures Reaches(Start(db, clock), w) && c1 in w.db.calls && c2 in w.db.calls
    ensures w.db.calls[c1].table == w.db.calls[c2].table == db.sessions[s].table
    ensures w.db.calls[c1].createdAt == w.db.calls[c2].createdAt == clock
  {
    hide Reaches, Sound, MayCall;
    var r, table := db.sessions[s].restaurant, db.sessions[s].table;
    var w0 := Start(db, clock);
    var w1 := GoalStarts(w0, 1, s, ToCall);
    var w2 := GoalStarts(w1, 2, s, ToCall);
    var w3 := CallPass(w2, 1, s, table, r, c1);
    w := CallPass(w3, 2, s, table, r, c2);
    ReachFour(w0, w1, w2, w3, w);
  }

  /** An acknowledgement that has read the call as waiting. */
  lemma AckStarts(w: World, t: Id, c: Id, staff: Id) returns (w': World)
    requires t !in w.txns && c in w.db.calls && w.db.calls[c].status == Waiting
    ensures w' == w.(txns := w.txns[t := Txn(w.clock, false, AckWrite(c, staff, w.clock), NOTHING)]) && Reaches(w, w')
  {
    hide Reaches, NextOpen, NextOrder, NextItem, NextRestore, NextClose, NextSweep, NextCall;
    var w1 := Spawned(w, t, AckRead(c, w.db.calls[c].restaurant, staff));
    w' := Moved(w1, t, 0, Txn(w.clock, false, AckWrite(c, staff, w.clock), NOTHING));
    ReachTrans(w, w1, w');
  }

  lemma AckPass(w: World, t: Id, c: Id, staff: Id, at: Time) returns (w': World)
    requires Alone(w, t) && t in w.txns && c in w.db.calls
    requires w.txns[t] == Txn(w.txns[t].began, false, AckWrite(c, staff, at), NOTHING)
    ensures Reaches(w, w') && t in w'.txns && w'.txns == w.txns[t := w'.txns[t]] && w'.txns[t].held == NOTHING
    ensures w'.db == w.db.(calls := w.db.calls[c := DismissRow(w.db.calls[c], at).(ackedBy := Some(staff))])
    ensures w'.clock == w.clock
  {
    hide Reaches, NextOpen, NextOrder, NextItem, NextRestore, NextClose, NextSweep, NextCall, WriteWhenFree, Free;
    var row := DismissRow(w.db.calls[c], at).(ackedBy := Some(staff));
    var x1 := w.txns[t].(pc := AckCommit(c, staff, at));
    AloneIsFree(w, t, OneCall(c, row), x1);
    var w1 := Wrote(w, t, 0, OneCall(c, row), x1);
    assert Plus(NOTHING, OneCall(c, row)) == OneCall(c, row);
    w' := AckEnds(w1, t, c, staff, at, row);
    ReachTrans(w, w1, w');
  }

  lemma AckEnds(w: World, t: Id, c: Id, staff: Id, at: Time, row: CallRow) returns (w': World)
    requires t in w.txns && w.txns[t] == Txn(w.txns[t].began, false, AckCommit(c, staff, at), OneCall(c, row))
    ensures Reaches(w, w') && t in w'.txns && w'.txns == w.txns[t := w'.txns[t]] && w'.txns[t].held == NOTHING
    ensures w'.db == w.db.(calls := w.db.calls[c := row]) && w'.clock == w.clock
  {
    hide Reaches, NextOpen, NextOrder, NextItem, NextRestore, NextClose, NextSweep, NextCall;
    w' := Done(w, t, 0, w.txns[t].(pc := AckDone(c)));
    OneRow(w.db.calls, c, row);
    NoRow(w.db.sessions);
    NoRow(w.db.orders);
    NoRow(w.db.items);
  }

  /** An acknowledgement writes by id alone: a second one that had read the call in time
      replaces the name the first one left. */
  lemma AckOverwritten(db: Db, clock: Time, c: Id, first: Id, second: Id) returns (mid: World, w: World)
    requires c in db.calls && db.calls[c].status == Waiting
    ensures Reaches(Start(db, clock), mid) && Reaches(mid, w) && c in mid.db.calls && c in w.db.calls
    ensures mid.db.calls[c].status == Acknowledged && mid.db.calls[c].ackedBy == Some(first)
    ensures w.db.calls[c].ackedBy == Some(second)
  {
    hide Reaches;
    var w0 := Start(db, clock);
    var w1 := AckStarts(w0, 1, c, first);
    var w2 := AckStarts(w1, 2, c, second);
    mid := AckPass(w2, 1, c, first, clock);
    ReachTrans(w0, w1, w2);
    ReachTrans(w0, w2, mid);
    w := AckPass(mid, 2, c, second, clock);
  }

  // ----- A sweep that scanned too early -----

  lemma CalledAndAcked(a: Db, b: Db, s: Id, c: Id)
    requires LiveOf(a, s) == map[] && PendingOf(a, s) == {} && s in a.sessions && s in b.sessions
    requires b.items == a.items && b.orders == a.orders && b.sessions[s].restaurant == a.sessions[s].restaurant
    requires c in b.calls && b.calls == a.calls[c := b.calls[c]] && b.calls[c].status == Acknowledged
    ensures LiveOf(b, s) == map[] && PendingOf(b, s) == {}
  {
    assert LiveOf(b, s) == LiveOf(a, s);
    assert forall x | x in PendingOf(b, s) :: x in PendingOf(a, s);
  }

  /** A session can be abandoned although its guests have just called: the sweep looks at the
      last activity when it scans and at the status alone when it writes. */
  lemma ActiveYetAbandoned(db: Db, clock: Time, s: Id, call: Id, staff: Id) returns (w: World)
    requires Sound(db) && Stale(db, s, clock) && LiveOf(db, s) == map[] && PendingOf(db, s) == {}
    requires MayCall(db, s, clock) && call !in db.calls
    ensures Reaches(Start(db, clock), w) && Is(w.db, s, Abandoned)
    ensures w.db.sessions[s].lastActivity == clock && w.db.sessions[s].abandonedAt == Some(clock)
  {
    hide Reaches, Sound, LiveOf, PendingOf, MayCall;
    var w0 := Start(db, clock);
    var w1 := SweepStarts(w0, 1, s);
    var w2 := GoalStarts(w1, 2, s, ToCall);
    var w3 := CallPass(w2, 2, s, db.sessions[s].table, db.sessions[s].restaurant, call);
    var w4 := AckStarts(w3, 3, call, staff);
    var w5 := AckPass(w4, 3, call, staff, clock);
    CalledAndAcked(db, w5.db, s, call);
    w := SweepPass(w5, 1, s);
    ReachFour(w0, w1, w2, w3, w4);
    ReachFour(w0, w4, w5, w, w) by { ReachSame(w); }
  }

  lemma NoLongerStale(db: Db, s: Id, row: SettingsRow, now: Time)
    requires s in db.sessions && db.sessions[s].restaurant in db.settings
    requires db.settings[db.sessions[s].restaurant] == row
    requires now - row.timeoutHours * HOUR <= db.sessions[s].lastActivity
    ensures !Stale(db, s, now)
  {
  }

  /** ... or although its restaurant has just raised the timeout beyond its idle time. */
  lemma RaisedYetAbandoned(db: Db, clock: Time, s: Id, row: SettingsRow) returns (mid: World, w: World)
    requires Sound(db) && Stale(db, s, clock) && LiveOf(db, s) == map[] && PendingOf(db, s) == {}
    requires row.timeoutHours >= 1 && row.cooldownSeconds >= 0
    requires clock - row.timeoutHours * HOUR <= db.sessions[s].lastActivity
    ensures Reaches(Start(db, clock), mid) && !Stale(mid.db, s, clock) && mid.clock == clock
    ensures Reaches(mid, w) && Is(w.db, s, Abandoned) && w.db.sessions[s].abandonedAt == Some(clock)
  {
    hide Reaches, Sound, LiveOf, PendingOf;
    var r := db.sessions[s].restaurant;
    var w1 := SweepStarts(Start(db, clock), 1, s);
    mid := Step(w1, Edit(EditSettings(r, row)));
    ReachStep(w1, Edit(EditSettings(r, row)));
    ReachTrans(Start(db, clock), w1, mid);
    NothingLeft(db, mid.db, s);
    hide Stale;
    NoLongerStale(mid.db, s, row, clock);
    w := SweepPass(mid, 1, s);
  }
}
