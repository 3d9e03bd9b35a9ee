/** Consequences for whole runs of requests: abandoned sessions are frozen until a restore
    that comes in time, acknowledged calls never change, the bill does not depend on the path
    that led to it, and a total once stored stays the sum of what was served at the closing. */
module RunLaws {
  import opened Schema
  import opened Money
  import opened Effects
  import opened Laws
  import opened Requests
  import opened Runs

  // ----- Frozen for a whole run -----

  predicate NoRestoreOf(evs: seq<Event>, s: Id) {
    forall ev | ev in evs :: !(ev.request.Restore? && ev.request.session == s)
  }

  predicate Spares(es: seq<Effect>, s: Id) {
    forall e | e in es :: !((e.Close? || e.Reopen?) && e.session == s)
  }

  lemma FrozenSessionStep(db: Db, clock: Time, now: Time, e: Effect, s: Id)
    requires Inv(db, clock) && clock <= now && Guard(db, e) && Atomic(db, e, now)
    requires Is(db, s, Abandoned) && Spares([e], s)
    ensures var db' := Apply(db, e);
            s in db'.sessions && db'.sessions[s] == db.sessions[s] && ItemsOf(db', s) == ItemsOf(db, s)
  {
    var db' := Apply(db, e);
    assert e in [e];
    SessionStep(db, e, s);
    StillAbandoned(db, e, s);
    AbandonedStep(db, clock, now, e, s);
    assert NoOrderFor([e], s);
    MembershipStep(db, e, s);
    forall i | i in ItemsOf(db', s) ensures i in ItemsOf(db, s) && db'.items[i] == db.items[i] {
      assert i in ItemsOf(db, s).Keys;
      FrozenStep(db, clock, now, e, i);
    }
  }

  lemma StillAbandoned(db: Db, e: Effect, s: Id)
    requires Guard(db, e) && Is(db, s, Abandoned) && !((e.Close? || e.Reopen?) && e.session == s)
    ensures Is(Apply(db, e), s, Abandoned)
  {
  }

  lemma {:induction false} FrozenSteps(db: Db, clock: Time, now: Time, es: seq<Effect>, s: Id)
    requires Inv(db, clock) && clock <= now && AllAtomic(db, es, now)
    requires Is(db, s, Abandoned) && Spares(es, s)
    ensures Valid(db, es)
    ensures var db' := ApplyAll(db, es);
            s in db'.sessions && db'.sessions[s] == db.sessions[s] && ItemsOf(db', s) == ItemsOf(db, s)
    decreases |es|
  {
    if es != [] {
      assert Spares([es[0]], s) by { assert es[0] in es; }
      FrozenSessionStep(db, clock, now, es[0], s);
      InvStep(db, clock, now, es[0]);
      FrozenSteps(Apply(db, es[0]), now, now, es[1..], s);
    }
  }

  lemma {:induction false} SweepSpares(rows: seq<Id>, failed: set<Id>, now: Time, s: Id)
    ensures Spares(AbandonAll(rows, failed, now), s)
  {
    if rows != [] {
      SweepSpares(rows[1..], failed, now, s);
    }
  }

  /** Only a restore of s itself can take s out of the abandoned state. */
  lemma PlanSparesAbandoned(db: Db, now: Time, q: Request, s: Id)
    requires Is(db, s, Abandoned) && !(q.Restore? && q.session == s)
    ensures Spares(Plan(db, now, q), s)
  {
    if q.Sweep? {
      SweepSpares(q.rows, q.failed, now, s);
    }
  }

  /** Until it is restored, an abandoned session and all its items stay exactly as they are,
      whatever else the system does. */
  lemma {:induction false} FrozenRun(db: Db, clock: Time, evs: seq<Event>, s: Id)
    requires Inv(db, clock) && LegalRun(db, clock, evs) && Is(db, s, Abandoned) && NoRestoreOf(evs, s)
    ensures var db' := After(db, clock, evs);
            s in db'.sessions && db'.sessions[s] == db.sessions[s] && ItemsOf(db', s) == ItemsOf(db, s)
    decreases |evs|
  {
    if evs != [] {
      var ev := evs[0];
      assert ev in evs;
      PlanSparesAbandoned(db, ev.at, ev.request, s);
      PlanIsAtomic(db, clock, ev.at, ev.request);
      FrozenSteps(db, clock, ev.at, Plan(db, ev.at, ev.request), s);
      InvServe(db, clock, ev);
      FrozenRun(Serve(db, clock, ev), ev.at, evs[1..], s);
    }
  }

  // ----- The restore limit -----

  predicate TakesUp(e: Effect) {
    e.Reopen? || (e.Close? && e.from == Abandoned)
  }

  predicate InTime(db: Db, e: Effect) {
    TakesUp(e) ==> e.session in db.sessions && db.sessions[e.session].abandonedAt.Some?
                   && e.at - db.sessions[e.session].abandonedAt.value <= RESTORE_LIMIT
  }

  ghost predicate AllInTime(db: Db, es: seq<Effect>)
    requires Valid(db, es)
    decreases |es|
  {
    es == [] || (InTime(db, es[0]) && AllInTime(Apply(db, es[0]), es[1..]))
  }

  lemma {:induction false} InTimeConcat(db: Db, a: seq<Effect>, b: seq<Effect>)
    requires Valid(db, a) && AllInTime(db, a) && Valid(ApplyAll(db, a), b) && AllInTime(ApplyAll(db, a), b)
    ensures Valid(db, a + b) && AllInTime(db, a + b)
    decreases |a|
  {
    ValidConcat(db, a, b);
    if a == [] {
      assert a + b == b;
    } else {
      InTimeConcat(Apply(db, a[0]), a[1..], b);
      assert (a + b)[1..] == a[1..] + b;
    }
  }

  lemma {:induction false} NeitherInTime(db: Db, es: seq<Effect>)
    requires Valid(db, es) && forall e | e in es :: !TakesUp(e)
    ensures AllInTime(db, es)
    decreases |es|
  {
    if es != [] {
      assert es[0] in es;
      NeitherInTime(Apply(db, es[0]), es[1..]);
    }
  }

  lemma {:induction false} SweepTakesUpNothing(rows: seq<Id>, failed: set<Id>, now: Time)
    ensures forall e | e in AbandonAll(rows, failed, now) :: !TakesUp(e)
  {
    if rows != [] {
      SweepTakesUpNothing(rows[1..], failed, now);
    }
  }

  lemma PlanInTime(db: Db, now: Time, q: Request)
    requires Valid(db, Plan(db, now, q))
    ensures AllInTime(db, Plan(db, now, q))
  {
    hide Apply, Guard, LineRows, AllOrderable, CoolingDown, Move;
    var es := Plan(db, now, q);
    if q.Restore? {
      if es != [] {
        assert es == [es[0]] && es[1..] == [];
        assert InTime(db, es[0]);
      }
    } else {
      if q.Sweep? { SweepTakesUpNothing(q.rows, q.failed, now); }
      NeitherInTime(db, es);
    }
  }

  /** In every run, whatever takes an abandoned session up again, to serve it on or to bill
      it, does so within 24 hours of the stamp of its last abandonment. */
  lemma {:induction false} RestoredInTime(db: Db, clock: Time, evs: seq<Event>)
    requires Sound(db) && LegalRun(db, clock, evs)
    ensures Valid(db, History(db, clock, evs)) && AllInTime(db, History(db, clock, evs))
    decreases |evs|
  {
    RunIsHistory(db, clock, evs);
    if evs != [] {
      var es := Plan(db, evs[0].at, evs[0].request);
      PlanIsAtomic(db, clock, evs[0].at, evs[0].request);
      AtomicIsValid(db, es, evs[0].at);
      PlanInTime(db, evs[0].at, evs[0].request);
      var next := Serve(db, clock, evs[0]);
      RestoredInTime(next, evs[0].at, evs[1..]);
      InTimeConcat(db, es, History(next, evs[0].at, evs[1..]));
    }
  }

  // ----- Acknowledged calls -----

  lemma {:induction false} AckedSteps(db: Db, es: seq<Effect>, now: Time, c: Id)
    requires AllAtomic(db, es, now) && c in db.calls && db.calls[c].status == Acknowledged
    ensures Valid(db, es)
    ensures c in ApplyAll(db, es).calls && ApplyAll(db, es).calls[c] == db.calls[c]
    decreases |es|
  {
    if es != [] {
      AckedStep(db, es[0], now, c);
      AckedSteps(Apply(db, es[0]), es[1..], now, c);
    }
  }

  lemma AckedStep(db: Db, e: Effect, now: Time, c: Id)
    requires Guard(db, e) && Atomic(db, e, now) && c in db.calls && db.calls[c].status == Acknowledged
    ensures c in Apply(db, e).calls && Apply(db, e).calls[c] == db.calls[c]
  {
  }

  /** Served one at a time, requests never change who acknowledged a call, or when. */
  lemma {:induction false} AckedForever(db: Db, clock: Time, evs: seq<Event>, c: Id)
    requires Sound(db) && LegalRun(db, clock, evs) && c in db.calls && db.calls[c].status == Acknowledged
    ensures c in After(db, clock, evs).calls && After(db, clock, evs).calls[c] == db.calls[c]
    decreases |evs|
  {
    if evs != [] {
      PlanIsAtomic(db, clock, evs[0].at, evs[0].request);
      AckedSteps(db, Plan(db, evs[0].at, evs[0].request), evs[0].at, c);
      AckedForever(Serve(db, clock, evs[0]), evs[0].at, evs[1..], c);
    }
  }

  // ----- The bill does not depend on the path -----

  function Statuses(db: Db, s: Id): map<Id, ItemStatus> {
    map i | i in ItemsOf(db, s) :: db.items[i].status
  }

  /** The statuses a closing leaves: what was live is cancelled, the rest stays. */
  function SettledStatuses(db: Db, s: Id): map<Id, ItemStatus> {
    map i | i in ItemsOf(db, s) :: if Live(db.items[i].status) then Cancelled else db.items[i].status
  }

  lemma CancelStatuses(db: Db, db': Db, s: Id, reason: string, at: Time)
    requires db'.orders == db.orders && db'.items == CancelLive(db, s, reason, at)
    ensures Statuses(db', s) == SettledStatuses(db, s) && Bill(db', s) == Bill(db, s)
  {
    assert ItemsOf(db', s).Keys == ItemsOf(db, s).Keys;
    CancelKeepsServed(db, s, reason, at, s);
  }

  lemma CloseStatuses(db: Db, s: Id, from: SessionStatus, at: Time)
    requires Guard(db, Close(s, from, at))
    ensures var db' := Apply(db, Close(s, from, at));
            && Statuses(db', s) == SettledStatuses(db, s) && Is(db', s, Closed)
            && db'.sessions[s].total == Some(Bill(db, s))
  {
    CancelStatuses(db, Apply(db, Close(s, from, at)), s, "table_closed", at);
    CloseSettles(db, s, from, at);
  }

  lemma NoneLive(db: Db, s: Id)
    requires LiveOf(db, s) == map[]
    ensures forall i | i in ItemsOf(db, s) :: !Live(db.items[i].status)
  {
    assert forall i | i in ItemsOf(db, s) :: i !in LiveOf(db, s);
  }

  /** Closing items already settled changes no status. */
  lemma SettledTwice(db: Db, s: Id)
    requires forall i | i in ItemsOf(db, s) :: !Live(db.items[i].status)
    ensures SettledStatuses(db, s) == Statuses(db, s)
  {
  }

  lemma SameItemsSameBill(a: Db, b: Db, s: Id)
    requires ItemsOf(a, s) == ItemsOf(b, s)
    ensures Statuses(a, s) == Statuses(b, s) && SettledStatuses(a, s) == SettledStatuses(b, s) &&
        Bill(a, s) == Bill(b, s)
  {
    ServedOfItems(a, s);
    ServedOfItems(b, s);
    assert forall i | i in ItemsOf(a, s) :: a.items[i] == ItemsOf(a, s)[i] && b.items[i] == ItemsOf(b, s)[i];
  }

  /** Checkout now; or be abandoned now and, after any run in between, be checked out
      directly, or be restored and then checked out: the same total and the same item
      statuses in all three cases. */
  lemma PathIndependence(db: Db, clock: Time, t: Time, evs: seq<Event>, s: Id, t1: Time, t2: Time, t3: Time)
    requires Inv(db, clock) && clock <= t && Guard(db, Abandon(s, t)) && Atomic(db, Abandon(s, t), t)
    requires Inv(Apply(db, Abandon(s, t)), t) && LegalRun(Apply(db, Abandon(s, t)), t, evs) && NoRestoreOf(evs, s)
    ensures var direct := Close(s, Abandoned, t2);
            var later := After(Apply(db, Abandon(s, t)), t, evs);
            && Guard(db, Close(s, Open, t1)) && Guard(later, direct)
            && Apply(db, Close(s, Open, t1)).sessions[s].total == Some(Bill(db, s))
            && Apply(later, direct).sessions[s].total == Some(Bill(db, s))
            && Statuses(Apply(db, Close(s, Open, t1)), s) == Statuses(Apply(later, direct), s)
    ensures var later := After(Apply(db, Abandon(s, t)), t, evs);
            Guard(later, Reopen(s, t2)) ==>
              && Guard(Apply(later, Reopen(s, t2)), Close(s, Open, t3))
              && Apply(Apply(later, Reopen(s, t2)), Close(s, Open, t3)).sessions[s].total == Some(Bill(db, s))
              && Statuses(Apply(Apply(later, Reopen(s, t2)), Close(s, Open, t3)), s)
                 == Statuses(Apply(db, Close(s, Open, t1)), s)
  {
    hide Sound, Timely, Settled, Quiet, Covered, LegalRun, After, DismissCalls, CancelLive, ServedLines, LiveOf;
    var parked := Apply(db, Abandon(s, t));
    FrozenRun(parked, t, evs, s);
    var later := After(parked, t, evs);
    CloseStatuses(db, s, Open, t1);
    CancelStatuses(db, parked, s, "session_abandoned", t);
    CancelLeavesNoneLive(db, parked, s, "session_abandoned", t);
    NoneLive(parked, s);
    SettledTwice(parked, s);
    SameItemsSameBill(parked, later, s);
    CloseStatuses(later, s, Abandoned, t2);
    if Guard(later, Reopen(s, t2)) {
      var reopened := Apply(later, Reopen(s, t2));
      SameItemsSameBill(later, reopened, s);
      CloseStatuses(reopened, s, Open, t3);
    }
  }

  // ----- The billed set over a run -----

  lemma {:induction false} NoOrderForClosed(db: Db, es: seq<Effect>, now: Time, s: Id)
    requires AllAtomic(db, es, now) && Is(db, s, Closed)
    ensures Valid(db, es) && NoOrderFor(es, s) && Is(ApplyAll(db, es), s, Closed)
    decreases |es|
  {
    if es != [] {
      SessionStep(db, es[0], s);
      NoOrderForClosed(Apply(db, es[0]), es[1..], now, s);
    }
  }

  lemma {:induction false} ClosedTakesNoOrders(db: Db, clock: Time, evs: seq<Event>, s: Id)
    requires Sound(db) && LegalRun(db, clock, evs) && Is(db, s, Closed)
    ensures NoOrderFor(History(db, clock, evs), s)
    decreases |evs|
  {
    if evs != [] {
      PlanIsAtomic(db, clock, evs[0].at, evs[0].request);
      NoOrderForClosed(db, Plan(db, evs[0].at, evs[0].request), evs[0].at, s);
      ClosedTakesNoOrders(Serve(db, clock, evs[0]), evs[0].at, evs[1..], s);
    }
  }

  /** In every run after a closing: the total is fixed at the sum of what was served then,
      only those items can ever be served again, and the total is exact precisely when every
      billed line taken back by the run is free of charge. */
  lemma BilledForever(db: Db, clock: Time, s: Id, from: SessionStatus, at: Time, evs: seq<Event>)
    requires Sound(db) && Guard(db, Close(s, from, at)) && Sound(Apply(db, Close(s, from, at)))
    requires LegalRun(Apply(db, Close(s, from, at)), clock, evs)
    ensures var billed := ServedLines(db.items, db.orders, s);
            var db' := After(Apply(db, Close(s, from, at)), clock, evs);
            var served := ServedLines(db'.items, db'.orders, s);
            && Is(db', s, Closed) && db'.sessions[s].total == Some(Sum(billed))
            && served.Keys <= billed.Keys && (forall i | i in served :: served[i] == billed[i])
            && Bill(db', s) <= Sum(billed)
            && var es := History(Apply(db, Close(s, from, at)), clock, evs);
               Bill(db', s) == Sum(billed) <==> forall i | i in TakenBack(billed, es) :: billed[i] == 0
  {
    hide TakenBack;
    var closed := Apply(db, Close(s, from, at));
    CloseSettles(db, s, from, at);
    CancelKeepsServed(db, s, "table_closed", at, s);
    RunIsHistory(closed, clock, evs);
    ClosedTakesNoOrders(closed, clock, evs, s);
    BilledSetLaw(closed, History(closed, clock, evs), s);
  }

  /** The total does differ from what is served after an undo: staff serve an item, check its
      session out and undo the item, three legal requests of one instant. */
  lemma UndoAfterCheckout(db: Db, clock: Time, i: Id, s: Id, at: Time) returns (evs: seq<Event>, final: Db)
    requires Sound(db) && clock <= at && HasSession(db, i) && SessionOf(db, i) == s
    requires Is(db, s, Open) && db.items[i].status == Pending
    ensures var r := db.items[i].restaurant;
            evs == [Event(at, SetStatus(i, Served, None, r)), Event(at, Checkout(s, r)),
                    Event(at, SetStatus(i, Pending, None, r))]
    ensures LegalRun(db, clock, evs) && After(db, clock, evs) == final
    ensures Is(final, s, Closed) && i in LiveOf(final, s)
    ensures final.sessions[s].total == Some(Bill(final, s) + LineTotal(db.items[i]))
  {
    hide Apply, LiveOf, Bill, Guard, Plan, After, LegalRun, Legal;
    var r := db.items[i].restaurant;
    var ev1, ev2, ev3 := Event(at, SetStatus(i, Served, None, r)), Event(at, Checkout(s, r)),
        Event(at, SetStatus(i, Pending, None, r));
    var served := ServeFirst(db, i, s, at);
    var closed := CloseNext(served, i, s, at);
    final := UndoLast(closed, i, s, at);
    assert LineTotal(closed.items[i]) == LineTotal(db.items[i]);
    MovePlanned(db, clock, i, Served, r, at);
    ClosePlanned(served, s, r, at) by { SameOwnerThroughout(served, i, s); }
    MovePlanned(closed, at, i, Pending, r, at);
    EffectKeepsSound(closed, MoveItem(i, Pending, None, at));
    hide Sound;
    evs := ThreeEvents(db, clock, served, closed, final, ev1, MoveItem(i, Served, None, at), ev2, Close(s, Open, at),
                       ev3, MoveItem(i, Pending, None, at));
  }

  /** Three requests that plan one effect each. */
  lemma ThreeEvents(db: Db, clock: Time, db1: Db, db2: Db, db3: Db, ev1: Event, e1: Effect, ev2: Event, e2: Effect,
      ev3: Event, e3: Effect) returns (evs: seq<Event>)
    requires Sound(db) && Sound(db1) && Sound(db2) && Sound(db3)
    requires Legal(db, clock, ev1.at, ev1.request) && Plan(db, ev1.at, ev1.request) == [e1]
    requires Legal(db1, ev1.at, ev2.at, ev2.request) && Plan(db1, ev2.at, ev2.request) == [e2]
    requires Legal(db2, ev2.at, ev3.at, ev3.request) && Plan(db2, ev3.at, ev3.request) == [e3]
    requires Guard(db, e1) && db1 == Apply(db, e1) && Guard(db1, e2) && db2 == Apply(db1, e2)
    requires Guard(db2, e3) && db3 == Apply(db2, e3)
    ensures evs == [ev1, ev2, ev3] && LegalRun(db, clock, evs) && After(db, clock, evs) == db3
  {
    hide Apply, Guard, Plan, After, LegalRun, Legal, Sound;
    EmptyRun(db3, ev3.at);
    RunCons(db2, ev2.at, ev3, e3, []);
    RunCons(db1, ev1.at, ev2, e2, [ev3] + []);
    RunCons(db, clock, ev1, e1, [ev2] + ([ev3] + []));
    evs := [ev1] + ([ev2] + ([ev3] + []));
  }

  lemma EmptyRun(db: Db, clock: Time)
    requires Sound(db)
    ensures LegalRun(db, clock, []) && After(db, clock, []) == db
  {
  }

  /** A request that plans one effect, in front of a run. */
  lemma RunCons(db: Db, clock: Time, ev: Event, e: Effect, rest: seq<Event>)
    requires Sound(db) && Legal(db, clock, ev.at, ev.request) && Plan(db, ev.at, ev.request) == [e]
    requires Guard(db, e) && Sound(Apply(db, e)) && LegalRun(Apply(db, e), ev.at, rest)
    ensures LegalRun(db, clock, [ev] + rest) && After(db, clock, [ev] + rest) == After(Apply(db, e), ev.at, rest)
  {
    hide Plan, Legal, Guard, Apply, Sound;
    assert ([ev] + rest)[0] == ev && ([ev] + rest)[1..] == rest;
    assert [e] == [e] + [];
    Cons(db, e, []);
  }

  lemma MovePlanned(db: Db, clock: Time, i: Id, to: ItemStatus, r: Id, at: Time)
    requires clock <= at && Guard(db, MoveItem(i, to, None, at)) && db.items[i].restaurant == r
    ensures Legal(db, clock, at, SetStatus(i, to, None, r))
    ensures Plan(db, at, SetStatus(i, to, None, r)) == [MoveItem(i, to, None, at)]
  {
  }

  lemma ClosePlanned(db: Db, s: Id, r: Id, at: Time)
    requires Is(db, s, Open) && db.sessions[s].restaurant == r
    ensures Legal(db, at, at, Checkout(s, r)) && Plan(db, at, Checkout(s, r)) == [Close(s, Open, at)]
  {
  }

  /** An item is of its session's restaurant. */
  lemma SameOwnerThroughout(db: Db, i: Id, s: Id)
    requires Sound(db) && HasSession(db, i) && SessionOf(db, i) == s
    ensures db.items[i].restaurant == db.sessions[s].restaurant
  {
    assert db.orders[db.items[i].order].restaurant == db.items[i].restaurant;
  }

  lemma ServeFirst(db: Db, i: Id, s: Id, at: Time) returns (db': Db)
    requires Sound(db) && HasSession(db, i) && SessionOf(db, i) == s
    requires Is(db, s, Open) && db.items[i].status == Pending
    ensures Guard(db, MoveItem(i, Served, None, at)) && db' == Apply(db, MoveItem(i, Served, None, at))
    ensures Sound(db') && HasSession(db', i) && SessionOf(db', i) == s && Is(db', s, Open)
    ensures db'.items[i] == db.items[i].(status := Served, servedBy := None, servedAt := Some(at))
  {
    db' := Apply(db, MoveItem(i, Served, None, at));
    EffectKeepsSound(db, MoveItem(i, Served, None, at));
  }

  lemma CloseNext(db: Db, i: Id, s: Id, at: Time) returns (db': Db)
    requires Sound(db) && HasSession(db, i) && SessionOf(db, i) == s
    requires Is(db, s, Open) && db.items[i].status == Served && db.items[i].servedAt == Some(at)
    ensures Guard(db, Close(s, Open, at)) && db' == Apply(db, Close(s, Open, at))
    ensures Sound(db') && HasSession(db', i) && SessionOf(db', i) == s && Is(db', s, Closed)
    ensures db'.sessions[s].total == Some(Bill(db', s)) && db'.items[i] == db.items[i]
    ensures Guard(db', MoveItem(i, Pending, None, at))
  {
    db' := Apply(db, Close(s, Open, at));
    EffectKeepsSound(db, Close(s, Open, at));
    CloseSettles(db, s, Open, at);
    ServedSurvivesClose(db, s, i, at);
  }

  lemma UndoLast(db: Db, i: Id, s: Id, at: Time) returns (db': Db)
    requires Sound(db) && HasSession(db, i) && SessionOf(db, i) == s && Is(db, s, Closed)
    requires db.sessions[s].total == Some(Bill(db, s)) && Guard(db, MoveItem(i, Pending, None, at))
    ensures db' == Apply(db, MoveItem(i, Pending, None, at))
    ensures Is(db', s, Closed) && i in LiveOf(db', s)
    ensures db'.sessions[s].total == Some(Bill(db', s) + LineTotal(db.items[i]))
  {
    db' := Apply(db, MoveItem(i, Pending, None, at));
    UndoBreaksSettled(db, i, s, None, at);
  }

  lemma ServedSurvivesClose(db: Db, s: Id, i: Id, at: Time)
    requires Guard(db, Close(s, Open, at)) && HasSession(db, i) && db.items[i].status == Served
    ensures var db' := Apply(db, Close(s, Open, at));
            HasSession(db', i) && SessionOf(db', i) == SessionOf(db, i) && db'.items[i] == db.items[i]
  {
  }
}
