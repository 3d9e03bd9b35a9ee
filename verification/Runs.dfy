/** What holds in every state of every run of requests, each served as one step. */
module Runs {
  import opened Schema
  import opened Money
  import opened Effects
  import opened Laws
  import opened Requests

  // ----- The invariant -----

  /** No stamp lies in the future, and no item was served after its session's last activity. */
  ghost predicate Timely(db: Db, clock: Time) {
    && (forall s | s in db.sessions :: SessionTimely(db.sessions[s], clock))
    && (forall i | i in db.items :: ServedInTime(db, i))
    && (forall c | c in db.calls :: db.calls[c].createdAt <= clock)
  }

  predicate SessionTimely(row: SessionRow, clock: Time) {
    row.lastActivity <= clock && (row.abandonedAt.Some? ==> row.abandonedAt.value <= clock)
  }

  predicate ServedInTime(db: Db, i: Id)
    requires i in db.items
  {
    db.items[i].servedAt.Some? ==>
      HasSession(db, i) && db.items[i].servedAt.value <= db.sessions[SessionOf(db, i)].lastActivity
  }

  /** An abandoned session had been idle for more than an hour and has no live item. */
  ghost predicate Settled(db: Db) {
    && (forall s | Is(db, s, Abandoned) :: IdleWhenAbandoned(db.sessions[s]))
    && (forall i | HasSession(db, i) && Is(db, SessionOf(db, i), Abandoned) :: !Live(db.items[i].status))
  }

  predicate IdleWhenAbandoned(row: SessionRow) {
    row.abandonedAt.Some? && row.lastActivity + HOUR < row.abandonedAt.value
  }

  /** Nobody is called to a table whose session is not open. */
  ghost predicate Quiet(db: Db) {
    forall c | c in db.calls && db.calls[c].status == Waiting :: Is(db, db.calls[c].session, Open)
  }

  /** The total of a closed session covers every line that is not cancelled. */
  ghost predicate Covered(db: Db) {
    forall s | Is(db, s, Closed) :: CoversStanding(db, s)
  }

  ghost predicate CoversStanding(db: Db, s: Id)
    requires s in db.sessions
  {
    db.sessions[s].total.Some? && Sum(StandingLines(db.items, db.orders, s)) <= db.sessions[s].total.value
  }

  ghost predicate Inv(db: Db, clock: Time) {
    Sound(db) && Timely(db, clock) && Settled(db) && Quiet(db) && Covered(db)
  }

  /** A restaurant that has set up its tables and menu and served nobody yet. */
  lemma StartInv(db: Db, clock: Time)
    requires db.sessions == map[] && db.orders == map[] && db.items == map[] && db.calls == map[] && Catalogued(db)
    ensures Inv(db, clock)
  {
  }

  // ----- Frozen sessions -----

  /** No status change and no cancellation of an item of an abandoned session can succeed:
      its last service is more than an hour old, and an undo is granted two minutes. */
  lemma Frozen(db: Db, clock: Time, now: Time, i: Id)
    requires Inv(db, clock) && clock <= now
    requires HasSession(db, i) && Is(db, SessionOf(db, i), Abandoned)
    ensures !Live(db.items[i].status)
    ensures forall to, actor :: Move(db.items[i], to, actor, now) == None
  {
    var row := db.sessions[SessionOf(db, i)];
    assert IdleWhenAbandoned(row) && SessionTimely(row, clock);
    assert ServedInTime(db, i) && ItemShape(db.items[i]);
  }

  /** The same for an effect: none of those a request may plan touches a frozen item. */
  lemma FrozenStep(db: Db, clock: Time, now: Time, e: Effect, i: Id)
    requires Inv(db, clock) && clock <= now && Guard(db, e) && Atomic(db, e, now)
    requires HasSession(db, i) && Is(db, SessionOf(db, i), Abandoned)
    ensures i in Apply(db, e).items && Apply(db, e).items[i] == db.items[i]
  {
    Frozen(db, clock, now, i);
    SettledRow(db, e, i);
  }

  // ----- Every effect keeps the invariant -----

  lemma ActivityGrows(db: Db, clock: Time, now: Time, e: Effect, s: Id)
    requires Timely(db, clock) && clock <= now && Guard(db, e) && Atomic(db, e, now) && s in db.sessions
    ensures s in Apply(db, e).sessions
    ensures db.sessions[s].lastActivity <= Apply(db, e).sessions[s].lastActivity
    ensures SessionTimely(Apply(db, e).sessions[s], now)
  {
    assert SessionTimely(db.sessions[s], clock);
  }

  /** A new service stamp is the session's activity stamp; any other is an old one. */
  lemma ServiceStamp(db: Db, now: Time, e: Effect, i: Id)
    requires Guard(db, e) && Atomic(db, e, now) && i in Apply(db, e).items && Apply(db, e).items[i].servedAt.Some?
    ensures i in db.items
    ensures Apply(db, e).items[i].servedAt == db.items[i].servedAt
            || (HasSession(db, i) && Apply(db, e).items[i].servedAt == Some(now)
                && Apply(db, e).sessions[SessionOf(db, i)].lastActivity == now)
  {
  }

  lemma StaysWithSession(db: Db, e: Effect, i: Id)
    requires Guard(db, e) && HasSession(db, i)
    ensures HasSession(Apply(db, e), i) && SessionOf(Apply(db, e), i) == SessionOf(db, i)
  {
    ItemStep(db, e, i);
    OrderStep(db, e, db.items[i].order);
    SessionStep(db, e, SessionOf(db, i));
  }

  lemma TimelyStep(db: Db, clock: Time, now: Time, e: Effect)
    requires Timely(db, clock) && clock <= now && Guard(db, e) && Atomic(db, e, now)
    ensures Timely(Apply(db, e), now)
  {
    var db' := Apply(db, e);
    forall s | s in db'.sessions ensures SessionTimely(db'.sessions[s], now) {
      if s in db.sessions { ActivityGrows(db, clock, now, e, s); }
    }
    forall i | i in db'.items ensures ServedInTime(db', i) {
      if db'.items[i].servedAt.Some? {
        ServiceStamp(db, now, e, i);
        assert ServedInTime(db, i);
        StaysWithSession(db, e, i);
        ActivityGrows(db, clock, now, e, SessionOf(db, i));
      }
    }
    forall c | c in db'.calls ensures db'.calls[c].createdAt <= now {
      if c in db.calls { CallStep(db, e, c); }
    }
  }

  /** A session that is abandoned after an effect was abandoned before, with the same row,
      or is abandoned by it. */
  lemma AbandonedStep(db: Db, clock: Time, now: Time, e: Effect, s: Id)
    requires Inv(db, clock) && clock <= now && Guard(db, e) && Atomic(db, e, now) && Is(Apply(db, e), s, Abandoned)
    ensures e == Abandon(s, now) || (Is(db, s, Abandoned) && Apply(db, e).sessions[s] == db.sessions[s])
  {
    if (e.MoveItem? || e.CancelItem?) && SessionOf(db, e.item) == s && Is(db, s, Abandoned) {
      Frozen(db, clock, now, e.item);
      assert false;
    }
  }

  lemma SettledKept(db: Db, clock: Time, now: Time, e: Effect)
    requires Inv(db, clock) && clock <= now && Guard(db, e) && Atomic(db, e, now)
    ensures Settled(Apply(db, e))
  {
    var db' := Apply(db, e);
    forall s | Is(db', s, Abandoned) ensures IdleWhenAbandoned(db'.sessions[s]) {
      AbandonedStep(db, clock, now, e, s);
    }
    forall i | HasSession(db', i) && Is(db', SessionOf(db', i), Abandoned) ensures !Live(db'.items[i].status) {
      var s := SessionOf(db', i);
      AbandonedStep(db, clock, now, e, s);
      if e == Abandon(s, now) {
        CancelLeavesNoneLive(db, db', s, "session_abandoned", now);
        assert i !in LiveOf(db', s);
      } else if i in db.items {
        ItemStep(db, e, i);
        ItemHasSession(db, i);
        StaysWithSession(db, e, i);
        FrozenStep(db, clock, now, e, i);
      } else {
        ArrivalStep(db, e, i, s);
      }
    }
  }

  /** A session that stops being open has its calls dismissed: they share its restaurant. */
  lemma DismissedWithSession(db: Db, e: Effect, c: Id)
    requires Guard(db, e) && (e.Close? || e.Abandon?) && c in db.calls && CallLinked(db, db.calls[c])
    requires db.calls[c].session == e.session
    ensures c in Apply(db, e).calls && Apply(db, e).calls[c].status == Acknowledged
  {
  }

  lemma StillOpen(db: Db, e: Effect, s: Id)
    requires Guard(db, e) && Is(db, s, Open) && !((e.Close? || e.Abandon?) && e.session == s)
    ensures Is(Apply(db, e), s, Open)
  {
  }

  lemma CallQuiet(db: Db, e: Effect, now: Time, c: Id)
    requires Sound(db) && Quiet(db) && Guard(db, e) && Atomic(db, e, now)
    requires c in Apply(db, e).calls && Apply(db, e).calls[c].status == Waiting
    ensures Is(Apply(db, e), Apply(db, e).calls[c].session, Open)
  {
    if c in db.calls {
      CallStep(db, e, c);
      assert CallLinked(db, db.calls[c]);
      if (e.Close? || e.Abandon?) && e.session == db.calls[c].session {
        DismissedWithSession(db, e, c);
      } else {
        StillOpen(db, e, db.calls[c].session);
      }
    }
  }

  lemma StandingStep(db: Db, e: Effect, s: Id)
    requires Sound(db) && Guard(db, e) && !(e.PlaceOrder? && e.session == s)
    ensures var before := StandingLines(db.items, db.orders, s);
            var now := StandingLines(Apply(db, e).items, Apply(db, e).orders, s);
            now.Keys <= before.Keys && forall i | i in now :: now[i] == before[i]
  {
    var db' := Apply(db, e);
    var after := StandingLines(db'.items, db'.orders, s);
    forall i | i in after ensures i in StandingLines(db.items, db.orders, s) && after[i] == LineTotal(db.items[i]) {
      if i in db.items {
        ItemStep(db, e, i);
        OrderStep(db, e, db.items[i].order);
      } else {
        ArrivalStep(db, e, i, s);
      }
    }
  }

  lemma StandingShrinks(db: Db, e: Effect, s: Id)
    requires Sound(db) && Guard(db, e) && !(e.PlaceOrder? && e.session == s)
    ensures Sum(StandingLines(Apply(db, e).items, Apply(db, e).orders, s)) <= Sum(StandingLines(db.items, db.orders, s))
  {
    StandingStep(db, e, s);
    var before := StandingLines(db.items, db.orders, s);
    forall i | i in before ensures before[i] >= 0 {
      assert ItemShape(db.items[i]);
      LineIsPriced(db.items[i]);
    }
    SumPart(StandingLines(Apply(db, e).items, Apply(db, e).orders, s), before);
  }

  /** Once nothing is live, what stands is what is served. */
  lemma StandingIsServed(db: Db, s: Id)
    requires LiveOf(db, s) == map[]
    ensures StandingLines(db.items, db.orders, s) == ServedLines(db.items, db.orders, s)
  {
    forall i ensures i in StandingLines(db.items, db.orders, s) <==> i in ServedLines(db.items, db.orders, s) {
      assert i !in LiveOf(db, s);
    }
  }

  lemma CoveredStep(db: Db, clock: Time, now: Time, e: Effect)
    requires Inv(db, clock) && Guard(db, e) && Atomic(db, e, now)
    ensures Covered(Apply(db, e))
  {
    var db' := Apply(db, e);
    forall s | Is(db', s, Closed) ensures CoversStanding(db', s) {
      if e.Close? && e.session == s {
        CloseSettles(db, s, e.from, e.at);
        StandingIsServed(db', s);
      } else {
        ClosedBefore(db, e, s);
        assert CoversStanding(db, s);
        StandingShrinks(db, e, s);
      }
    }
  }

  lemma ClosedBefore(db: Db, e: Effect, s: Id)
    requires Guard(db, e) && Is(Apply(db, e), s, Closed) && !(e.Close? && e.session == s)
    ensures Is(db, s, Closed) && Apply(db, e).sessions[s].total == db.sessions[s].total
  {
  }

  lemma InvStep(db: Db, clock: Time, now: Time, e: Effect)
    requires Inv(db, clock) && clock <= now && Guard(db, e) && Atomic(db, e, now)
    ensures Inv(Apply(db, e), now)
  {
    EffectKeepsSound(db, e);
    TimelyStep(db, clock, now, e);
    SettledKept(db, clock, now, e);
    CoveredStep(db, clock, now, e);
    forall c | c in Apply(db, e).calls && Apply(db, e).calls[c].status == Waiting
      ensures Is(Apply(db, e), Apply(db, e).calls[c].session, Open)
    {
      CallQuiet(db, e, now, c);
    }
  }

  lemma {:induction false} InvSteps(db: Db, clock: Time, now: Time, es: seq<Effect>)
    requires Inv(db, clock) && clock <= now && AllAtomic(db, es, now)
    ensures Valid(db, es) && Inv(ApplyAll(db, es), now)
    decreases |es|
  {
    if es != [] {
      InvStep(db, clock, now, es[0]);
      InvSteps(Apply(db, es[0]), now, now, es[1..]);
    } else {
      TimePasses(db, clock, now);
    }
  }

  lemma TimePasses(db: Db, clock: Time, now: Time)
    requires Inv(db, clock) && clock <= now
    ensures Inv(db, now)
  {
    assert forall s | s in db.sessions :: SessionTimely(db.sessions[s], clock);
  }

  lemma InvServe(db: Db, clock: Time, ev: Event)
    requires Inv(db, clock) && Legal(db, clock, ev.at, ev.request)
    ensures Inv(Serve(db, clock, ev), ev.at)
  {
    PlanIsAtomic(db, clock, ev.at, ev.request);
    InvSteps(db, clock, ev.at, Plan(db, ev.at, ev.request));
  }

  /** The invariant holds in every state of every run. */
  lemma {:induction false} InvRun(db: Db, clock: Time, evs: seq<Event>)
    requires Inv(db, clock) && LegalRun(db, clock, evs)
    ensures Inv(After(db, clock, evs), ClockAfter(clock, evs))
    decreases |evs|
  {
    if evs != [] {
      InvServe(db, clock, evs[0]);
      InvRun(Serve(db, clock, evs[0]), evs[0].at, evs[1..]);
    }
  }
}
