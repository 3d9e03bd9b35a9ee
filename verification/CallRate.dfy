/** The cooldown of staff calls bounds their rate: any two calls created for one table are
    at least the cooldown apart, so a time window holds only so many of them. */
module CallRate {
  import opened Schema
  import opened Money
  import opened Effects
  import opened Requests
  import opened Runs

  /** Calls created for a table are pairwise at least `gap` apart. */
  ghost predicate Spaced(db: Db, table: Id, gap: Time) {
    forall a, b | a in db.calls && b in db.calls && a != b && db.calls[a].table == table && db.calls[b].table == table
                  && db.calls[a].createdAt <= db.calls[b].createdAt ::
      db.calls[b].createdAt - db.calls[a].createdAt >= gap
  }

  /** The cooldown of restaurant r is c seconds or more, now and whenever it is edited. */
  predicate CooldownAtLeast(db: Db, evs: seq<Event>, r: Id, c: nat) {
    && CooldownSeconds(db, r) >= c
    && forall ev | ev in evs && ev.request.SaveSettings? && ev.request.restaurant == r ::
         ev.request.row.cooldownSeconds >= c
  }

  predicate NoNewCall(es: seq<Effect>) {
    forall e | e in es :: !e.NewCall?
  }

  predicate SameCallTimes(db: Db, db': Db) {
    && db'.calls.Keys == db.calls.Keys
    && forall c | c in db.calls ::
         db'.calls[c].table == db.calls[c].table && db'.calls[c].createdAt == db.calls[c].createdAt
  }

  lemma CallTimesStep(db: Db, e: Effect)
    requires Guard(db, e) && !e.NewCall?
    ensures SameCallTimes(db, Apply(db, e)) && Apply(db, e).tables == db.tables
  {
  }

  lemma {:induction false} CallTimesSteps(db: Db, es: seq<Effect>)
    requires Valid(db, es) && NoNewCall(es)
    ensures SameCallTimes(db, ApplyAll(db, es)) && ApplyAll(db, es).tables == db.tables
    decreases |es|
  {
    if es != [] {
      CallTimesStep(db, es[0]);
      CallTimesSteps(Apply(db, es[0]), es[1..]);
    }
  }

  lemma {:induction false} SweepCallsNobody(rows: seq<Id>, failed: set<Id>, now: Time)
    ensures NoNewCall(AbandonAll(rows, failed, now))
    ensures NoSettings(AbandonAll(rows, failed, now))
  {
    if rows != [] {
      SweepCallsNobody(rows[1..], failed, now);
    }
  }

  predicate NoSettings(es: seq<Effect>) {
    forall e | e in es :: !e.EditSettings?
  }

  lemma SettingsStep(db: Db, e: Effect)
    requires Guard(db, e) && !e.EditSettings?
    ensures Apply(db, e).settings == db.settings
  {
  }

  lemma {:induction false} SettingsSteps(db: Db, es: seq<Effect>)
    requires Valid(db, es) && NoSettings(es)
    ensures ApplyAll(db, es).settings == db.settings
    decreases |es|
  {
    if es != [] {
      SettingsStep(db, es[0]);
      SettingsSteps(Apply(db, es[0]), es[1..]);
    }
  }

  /** Only CallStaff creates calls, and at most one, last. */
  lemma PlanCalls(db: Db, now: Time, q: Request)
    ensures q.CallStaff? || NoNewCall(Plan(db, now, q))
    ensures q.SaveSettings? || NoSettings(Plan(db, now, q))
  {
    if q.Sweep? {
      SweepCallsNobody(q.rows, q.failed, now);
    }
  }

  lemma SpacedCallStaff(db: Db, clock: Time, ev: Event, table: Id, c: nat)
    requires Inv(db, clock) && Legal(db, clock, ev.at, ev.request) && ev.request.CallStaff?
    requires table in db.tables && CooldownSeconds(db, db.tables[table].restaurant) >= c
    requires Spaced(db, table, c * SECOND)
    ensures Spaced(Serve(db, clock, ev), table, c * SECOND)
  {
    hide Apply, Valid, ApplyAll, Plan;
    var q := ev.request;
    var es := Plan(db, ev.at, q);
    PlanIsAtomic(db, clock, ev.at, q);
    AtomicIsValid(db, es, ev.at);
    var db' := Serve(db, clock, ev);
    if NoNewCall(es) {
      CallTimesSteps(db, es);
    } else {
      var added := CallStaffAdds(db, clock, ev.at, q);
      assert forall x | x in db.calls :: db.calls[x].createdAt <= clock;
      OneMoreCall(db, db', table, c * SECOND, q.call, added);
    }
  }

  lemma OneMoreCall(db: Db, db': Db, table: Id, gap: Time, call: Id, added: CallRow)
    requires gap >= 0 && Spaced(db, table, gap) && call !in db.calls && db'.calls == db.calls[call := added]
    requires forall x | x in db.calls :: db.calls[x].createdAt <= added.createdAt
    requires added.table == table ==>
               forall x | x in db.calls && db.calls[x].table == table :: db.calls[x].createdAt <= added.createdAt - gap
    ensures Spaced(db', table, gap)
  {
  }

  /** When a call is created, every earlier call of that table is past the cooldown. */
  lemma CallStaffAdds(db: Db, clock: Time, now: Time, q: Request) returns (added: CallRow)
    requires Inv(db, clock) && Legal(db, clock, now, q) && q.CallStaff?
    requires Valid(db, Plan(db, now, q)) && !NoNewCall(Plan(db, now, q))
    ensures q.table in db.tables && added.createdAt == now && added.table == q.table && q.call !in db.calls
    ensures ApplyAll(db, Plan(db, now, q)).calls == db.calls[q.call := added]
    ensures forall c | c in db.calls && db.calls[c].table == q.table ::
              db.calls[c].createdAt <= now - CooldownSeconds(db, db.tables[q.table].restaurant) * SECOND
  {
    var r := db.tables[q.table].restaurant;
    var s := Current(db, q.table, q.newId);
    var call := NewCall(q.call, s, now);
    added := CallRow(r, q.table, s, Waiting, now, None, None);
    assert !CoolingDown(db, q.table, now);
    if FindOpen(db, q.table).Some? {
      assert Plan(db, now, q) == [call] + [];
      Cons(db, call, []);
    } else {
      var open := OpenSession(q.newId, q.table, r, None, now);
      assert Plan(db, now, q) == [open] + ([call] + []);
      OpenThenCall(db, open, call);
    }
  }

  lemma OpenThenCall(db: Db, open: Effect, call: Effect)
    requires open.OpenSession? && call.NewCall? && call.session == open.session
    requires Valid(db, [open] + ([call] + []))
    ensures Guard(db, open) && Guard(Apply(db, open), call)
    ensures ApplyAll(db, [open] + ([call] + [])).calls
            == db.calls[call.call := CallRow(open.restaurant, open.table, open.session, Waiting, call.at, None, None)]
  {
    assert ([open] + ([call] + []))[1..] == [call] + [];
    Cons(db, open, [call] + []);
    assert ([call] + [])[1..] == [];
    Cons(Apply(db, open), call, []);
  }

  lemma SpacedServe(db: Db, clock: Time, ev: Event, table: Id, c: nat)
    requires Inv(db, clock) && Legal(db, clock, ev.at, ev.request)
    requires table in db.tables && CooldownAtLeast(db, [ev], db.tables[table].restaurant, c)
    requires Spaced(db, table, c * SECOND)
    ensures var db' := Serve(db, clock, ev);
            && Spaced(db', table, c * SECOND) && db'.tables == db.tables
            && CooldownSeconds(db', db.tables[table].restaurant) >= c
  {
    hide Apply, Valid, Plan;
    var q := ev.request;
    var es := Plan(db, ev.at, q);
    PlanIsAtomic(db, clock, ev.at, q);
    AtomicIsValid(db, es, ev.at);
    PlanCalls(db, ev.at, q);
    TablesStay(db, es);
    if q.CallStaff? {
      SpacedCallStaff(db, clock, ev, table, c);
    } else {
      CallTimesSteps(db, es);
    }
    if q.SaveSettings? {
      assert ev in [ev];
      SaveSettingsOnly(db, ev.at, q);
    } else {
      SettingsSteps(db, es);
    }
  }

  lemma SaveSettingsOnly(db: Db, now: Time, q: Request)
    requires q.SaveSettings? && Valid(db, Plan(db, now, q))
    ensures ApplyAll(db, Plan(db, now, q)).settings == db.settings[q.restaurant := q.row]
  {
    assert Plan(db, now, q) == [EditSettings(q.restaurant, q.row)] + [];
    Cons(db, EditSettings(q.restaurant, q.row), []);
  }

  lemma TablesStep(db: Db, e: Effect)
    requires Guard(db, e)
    ensures Apply(db, e).tables == db.tables
  {
  }

  lemma {:induction false} TablesStay(db: Db, es: seq<Effect>)
    requires Valid(db, es)
    ensures ApplyAll(db, es).tables == db.tables
    decreases |es|
  {
    if es != [] {
      TablesStep(db, es[0]);
      TablesStay(Apply(db, es[0]), es[1..]);
    }
  }

  /** The cooldown law over a run: calls of one table stay spaced, whatever happens at others. */
  lemma {:induction false} CooldownLaw(db: Db, clock: Time, evs: seq<Event>, table: Id, c: nat)
    requires Inv(db, clock) && LegalRun(db, clock, evs)
    requires table in db.tables && CooldownAtLeast(db, evs, db.tables[table].restaurant, c)
    requires Spaced(db, table, c * SECOND)
    ensures Spaced(After(db, clock, evs), table, c * SECOND)
    decreases |evs|
  {
    if evs != [] {
      assert evs[0] in evs;
      SpacedServe(db, clock, evs[0], table, c);
      InvServe(db, clock, evs[0]);
      CooldownLaw(Serve(db, clock, evs[0]), evs[0].at, evs[1..], table, c);
    }
  }

  function CallsBetween(db: Db, table: Id, from: Time, to: Time): set<Id> {
    set c | c in db.calls && db.calls[c].table == table && from <= db.calls[c].createdAt <= to
  }

  /** Spaced calls are few: a window of length w holds at most w / gap + 1 of them. */
  lemma {:induction false} WindowBound(db: Db, table: Id, from: Time, w: nat, gap: nat)
    requires Spaced(db, table, gap) && gap > 0
    ensures |CallsBetween(db, table, from, from + w)| <= w / gap + 1
    decreases w
  {
    if CallsBetween(db, table, from, from + w) != {} {
      var end := OneFewer(db, table, from, w, gap);
      if from <= end {
        var v: nat := end - from;
        WindowBound(db, table, from, v, gap);
        OneGapLess(w, v, gap);
        assert from + v == end;
      } else {
        assert CallsBetween(db, table, from, end) == {};
        assert w / gap >= 0;
      }
    }
  }

  /** All but the latest call of a window lie in a window that ends a gap earlier. */
  lemma OneFewer(db: Db, table: Id, from: Time, w: nat, gap: nat) returns (end: Time)
    requires Spaced(db, table, gap) && CallsBetween(db, table, from, from + w) != {}
    ensures |CallsBetween(db, table, from, from + w)| <= |CallsBetween(db, table, from, end)| + 1
    ensures end + gap <= from + w
  {
    var all := CallsBetween(db, table, from, from + w);
    var last := Latest(db, table, from, from + w);
    end := db.calls[last].createdAt - gap;
    var rest := CallsBetween(db, table, from, end);
    assert all - {last} <= rest;
    assert |all| == |all - {last}| + 1;
    FewerKeys(all - {last}, rest);
  }

  lemma OneGapLess(w: nat, v: nat, gap: nat)
    requires gap > 0 && v + gap <= w
    ensures v / gap + 1 <= w / gap
  {
    assert (v / gap + 1) * gap <= w;
  }

  lemma Latest(db: Db, table: Id, from: Time, to: Time) returns (last: Id)
    requires CallsBetween(db, table, from, to) != {}
    ensures last in CallsBetween(db, table, from, to)
    ensures forall c | c in CallsBetween(db, table, from, to) :: db.calls[c].createdAt <= db.calls[last].createdAt
  {
    var todo := CallsBetween(db, table, from, to);
    last :| last in todo;
    todo := todo - {last};
    while todo != {}
      invariant todo <= CallsBetween(db, table, from, to)
      invariant last in CallsBetween(db, table, from, to)
      invariant forall c | c in CallsBetween(db, table, from, to) && c !in todo ::
                  db.calls[c].createdAt <= db.calls[last].createdAt
      decreases |todo|
    {
      var c :| c in todo;
      todo := todo - {c};
      if db.calls[last].createdAt < db.calls[c].createdAt {
        last := c;
      }
    }
  }

  /** The rate bound: with a cooldown of c >= 1 seconds, any window of a run holds at most
      floor(w / c) + 1 calls of a table. */
  lemma RateBound(db: Db, clock: Time, evs: seq<Event>, table: Id, c: nat, from: Time, w: nat)
    requires Inv(db, clock) && LegalRun(db, clock, evs) && c >= 1
    requires table in db.tables && CooldownAtLeast(db, evs, db.tables[table].restaurant, c)
    requires Spaced(db, table, c * SECOND)
    ensures |CallsBetween(After(db, clock, evs), table, from, from + w)| <= w / (c * SECOND) + 1
  {
    CooldownLaw(db, clock, evs, table, c);
    WindowBound(After(db, clock, evs), table, from, w, c * SECOND);
  }
}
