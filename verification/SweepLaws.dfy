/** What a sweep leaves behind, for any pattern of per-session failures. */
module SweepLaws {
  import opened Schema
  import opened Effects
  import opened Laws
  import opened Requests
  import opened Runs

  function CallsOf(db: Db, s: Id): map<Id, CallRow> {
    map c | c in db.calls && db.calls[c].session == s :: db.calls[c]
  }

  /** Nothing of session s differs. */
  predicate Untouched(db: Db, db': Db, s: Id) {
    && (s in db.sessions <==> s in db'.sessions) && (s in db.sessions ==> db'.sessions[s] == db.sessions[s])
    && ItemsOf(db', s) == ItemsOf(db, s) && CallsOf(db', s) == CallsOf(db, s)
  }

  predicate BelongsTo(db: Db, i: Id, s: Id) {
    i in db.items && db.items[i].order in db.orders && db.orders[db.items[i].order].session == s
  }

  /** Every item of session s that was pending, cooking or ready is cancelled, the others stay. */
  ghost predicate ItemsGivenUp(db: Db, db': Db, s: Id, now: Time) {
    forall i :: (BelongsTo(db, i, s) <==> BelongsTo(db', i, s))
                && (BelongsTo(db, i, s) ==>
                      db'.items[i] == match db.items[i].status
                                      case Served => db.items[i]
                                      case Cancelled => db.items[i]
                                      case _ => db.items[i].(status := Cancelled, cancelledBy := Some(System),
                                                             cancelledAt := Some(now),
                                                             reason := Some("session_abandoned")))
  }

  /** Every call of session s that was waiting is acknowledged, by nobody, the others stay. */
  ghost predicate CallsGivenUp(db: Db, db': Db, s: Id, now: Time) {
    forall c :: (c in db.calls && db.calls[c].session == s <==> c in db'.calls && db'.calls[c].session == s)
                && (c in db.calls && db.calls[c].session == s ==>
                      db'.calls[c] == match db.calls[c].status
                                      case Waiting => db.calls[c].(status := Acknowledged, ackedAt := Some(now))
                                      case Acknowledged => db.calls[c])
  }

  /** Session s has been abandoned completely. */
  ghost predicate FullyAbandoned(db: Db, db': Db, s: Id, now: Time) {
    && s in db.sessions && s in db'.sessions
    && db'.sessions[s] == db.sessions[s].(status := Abandoned, abandonedAt := Some(now), total := None)
    && ItemsGivenUp(db, db', s, now) && CallsGivenUp(db, db', s, now)
    && LiveOf(db', s) == map[] && forall c | c in CallsOf(db', s) :: db'.calls[c].status == Acknowledged
  }

  lemma AbandonLeavesOthers(db: Db, s: Id, other: Id, now: Time)
    requires Sound(db) && Guard(db, Abandon(s, now)) && other != s
    ensures Untouched(db, Apply(db, Abandon(s, now)), other)
  {
    hide Sound;
    var db' := Apply(db, Abandon(s, now));
    assert ItemsOf(db', other) == ItemsOf(db, other) by {
      CancelOthers(db, db', s, other, "session_abandoned", now);
    }
    assert CallsOf(db', other) == CallsOf(db, other) by {
      DismissOthers(db, db', s, other, db.sessions[s].restaurant, now);
    }
  }

  lemma CancelOthers(db: Db, db': Db, s: Id, other: Id, reason: string, at: Time)
    requires db'.orders == db.orders && db'.items == CancelLive(db, s, reason, at) && other != s
    ensures ItemsOf(db', other) == ItemsOf(db, other)
  {
    assert forall i :: i in ItemsOf(db', other) <==> i in ItemsOf(db, other);
  }

  lemma DismissOthers(db: Db, db': Db, s: Id, other: Id, r: Id, at: Time)
    requires db'.calls == DismissCalls(db.calls, s, r, at) && other != s
    ensures CallsOf(db', other) == CallsOf(db, other)
  {
    assert forall c :: c in CallsOf(db', other) <==> c in CallsOf(db, other);
  }

  lemma AbandonIsFull(db: Db, s: Id, now: Time)
    requires Sound(db) && Guard(db, Abandon(s, now))
    ensures FullyAbandoned(db, Apply(db, Abandon(s, now)), s, now)
  {
    hide ItemsGivenUp, CallsGivenUp;
    var db' := Apply(db, Abandon(s, now));
    CancelLeavesNoneLive(db, db', s, "session_abandoned", now);
    forall c | c in CallsOf(db', s) ensures db'.calls[c].status == Acknowledged {
      assert CallLinked(db, db.calls[c]);
      DismissedWithSession(db, Abandon(s, now), c);
    }
    DismissGivesUp(db, db', s, now);
    CancelGivesUp(db, db', s, now);
  }

  lemma CancelGivesUp(db: Db, db': Db, s: Id, now: Time)
    requires db'.orders == db.orders && db'.items == CancelLive(db, s, "session_abandoned", now)
    ensures ItemsGivenUp(db, db', s, now)
  {
  }

  lemma DismissGivesUp(db: Db, db': Db, s: Id, now: Time)
    requires Sound(db) && s in db.sessions
    requires db'.calls == DismissCalls(db.calls, s, db.sessions[s].restaurant, now)
    ensures CallsGivenUp(db, db', s, now)
  {
    assert forall c | c in db.calls :: CallLinked(db, db.calls[c]);
  }

  lemma FullThenUntouched(a: Db, b: Db, c: Db, s: Id, now: Time)
    requires FullyAbandoned(a, b, s, now) && Untouched(b, c, s)
    ensures FullyAbandoned(a, c, s, now)
  {
    LiveOfItems(b, s);
    LiveOfItems(c, s);
    ItemsThroughUntouched(a, b, c, s, now);
    assert forall x | x in CallsOf(c, s) :: x in CallsOf(b, s) && CallsOf(b, s)[x] == CallsOf(c, s)[x];
    assert forall x :: x in c.calls && c.calls[x].session == s <==> x in CallsOf(c, s);
    assert forall x :: x in b.calls && b.calls[x].session == s <==> x in CallsOf(b, s);
  }

  lemma ItemsThroughUntouched(a: Db, b: Db, c: Db, s: Id, now: Time)
    requires (Untouched(a, b, s) && ItemsGivenUp(b, c, s, now)) || (ItemsGivenUp(a, b, s, now) && Untouched(b, c, s))
    ensures ItemsGivenUp(a, c, s, now)
  {
    assert forall i :: BelongsTo(a, i, s) <==> i in ItemsOf(a, s);
    assert forall i :: BelongsTo(b, i, s) <==> i in ItemsOf(b, s);
    assert forall i :: BelongsTo(c, i, s) <==> i in ItemsOf(c, s);
    assert forall i | BelongsTo(b, i, s) :: ItemsOf(b, s)[i] == b.items[i];
  }

  lemma {:induction false} SweepSteps(db: Db, rows: seq<Id>, failed: set<Id>, now: Time, s: Id)
    requires Sound(db) && Distinct(rows) && forall x | x in rows :: Stale(db, x, now)
    requires Valid(db, AbandonAll(rows, failed, now))
    ensures var db' := ApplyAll(db, AbandonAll(rows, failed, now));
            if s in rows && s !in failed then FullyAbandoned(db, db', s, now) else Untouched(db, db', s)
    decreases |rows|
  {
    hide Guard, FullyAbandoned, Untouched;
    if rows == [] {
      SameDb(db, s);
    } else {
      var rest := rows[1..];
      assert rows[0] in rows && forall x | x in rest :: x in rows && x != rows[0];
      if rows[0] in failed {
        assert AbandonAll(rows, failed, now) == AbandonAll(rest, failed, now);
        SweepSteps(db, rest, failed, now, s);
      } else {
        var e := Abandon(rows[0], now);
        assert AbandonAll(rows, failed, now) == [e] + AbandonAll(rest, failed, now);
        FirstOf(db, e, AbandonAll(rest, failed, now));
        var next := Apply(db, e);
        forall x | x in rest ensures Stale(next, x, now) {
          AbandonKeepsStale(db, rows[0], x, now);
        }
        EffectKeepsSound(db, e);
        SweepSteps(next, rest, failed, now, s);
        if s == rows[0] {
          AbandonIsFull(db, s, now);
          FullThenUntouched(db, next, ApplyAll(next, AbandonAll(rest, failed, now)), s, now);
        } else {
          AbandonLeavesOthers(db, rows[0], s, now);
          ThroughUntouched(db, next, ApplyAll(next, AbandonAll(rest, failed, now)), s, now);
        }
      }
    }
  }

  lemma SameDb(db: Db, s: Id)
    ensures Untouched(db, db, s)
  {
  }

  lemma FirstOf(db: Db, e: Effect, rest: seq<Effect>)
    requires Valid(db, [e] + rest)
    ensures Guard(db, e) && Valid(Apply(db, e), rest) && ApplyAll(db, [e] + rest) == ApplyAll(Apply(db, e), rest)
  {
    assert ([e] + rest)[1..] == rest;
  }

  lemma ThroughUntouched(a: Db, b: Db, c: Db, s: Id, now: Time)
    requires Untouched(a, b, s)
    ensures Untouched(b, c, s) ==> Untouched(a, c, s)
    ensures FullyAbandoned(b, c, s, now) ==> FullyAbandoned(a, c, s, now)
  {
    if FullyAbandoned(b, c, s, now) {
      ItemsThroughUntouched(a, b, c, s, now);
      assert forall x :: x in a.calls && a.calls[x].session == s <==> x in CallsOf(a, s);
      assert forall x :: x in b.calls && b.calls[x].session == s <==> x in CallsOf(b, s);
    }
  }

  /** Whatever sessions fail and are rolled back, each scanned session ends either fully
      abandoned or exactly as it was, and every other session exactly as it was. */
  lemma SweepOutcome(db: Db, clock: Time, now: Time, rows: seq<Id>, failed: set<Id>, s: Id)
    requires Sound(db) && Legal(db, clock, now, Sweep(rows, failed))
    ensures var db' := Serve(db, clock, Event(now, Sweep(rows, failed)));
            if Stale(db, s, now) && s !in failed then FullyAbandoned(db, db', s, now) else Untouched(db, db', s)
  {
    PlanIsAtomic(db, clock, now, Sweep(rows, failed));
    AtomicIsValid(db, AbandonAll(rows, failed, now), now);
    SweepSteps(db, rows, failed, now, s);
  }

  /** A sweep without failures leaves no session that another scan would find. */
  lemma NoneStaleAfterSweep(db: Db, clock: Time, now: Time, rows: seq<Id>, s: Id)
    requires Sound(db) && Legal(db, clock, now, Sweep(rows, {}))
    ensures !Stale(Serve(db, clock, Event(now, Sweep(rows, {}))), s, now)
  {
    var db' := Serve(db, clock, Event(now, Sweep(rows, {})));
    SweepOutcome(db, clock, now, rows, {}, s);
    SweepKeepsSettings(db, clock, now, rows, {});
  }

  lemma SweepKeepsSettings(db: Db, clock: Time, now: Time, rows: seq<Id>, failed: set<Id>)
    requires Sound(db) && Legal(db, clock, now, Sweep(rows, failed))
    ensures Serve(db, clock, Event(now, Sweep(rows, failed))).settings == db.settings
  {
    PlanIsAtomic(db, clock, now, Sweep(rows, failed));
    AtomicIsValid(db, AbandonAll(rows, failed, now), now);
    AbandonsKeepSettings(db, rows, failed, now);
  }

  lemma {:induction false} AbandonsKeepSettings(db: Db, rows: seq<Id>, failed: set<Id>, now: Time)
    requires Valid(db, AbandonAll(rows, failed, now))
    ensures ApplyAll(db, AbandonAll(rows, failed, now)).settings == db.settings
    decreases |rows|
  {
    if rows != [] {
      if rows[0] in failed {
        assert AbandonAll(rows, failed, now) == AbandonAll(rows[1..], failed, now);
        AbandonsKeepSettings(db, rows[1..], failed, now);
      } else {
        var e := Abandon(rows[0], now);
        assert AbandonAll(rows, failed, now) == [e] + AbandonAll(rows[1..], failed, now);
        FirstOf(db, e, AbandonAll(rows[1..], failed, now));
        AbandonsKeepSettings(Apply(db, e), rows[1..], failed, now);
      }
    }
  }
}
