/** create_order is all or nothing, and what it stores is a snapshot of the menu. */
module Ordering {
  import opened Schema
  import opened Effects
  import opened Requests
  import opened Columns

  /** Repeated menu items are fine: each line gets its own row. */
  lemma {:induction false} LineRowAt(menu: map<Id, MenuRow>, r: Id, order: Id, lines: seq<Line>, ids: seq<Id>,
      now: Time, k: nat)
    requires AllOrderable(menu, r, lines) && |ids| == |lines| && Distinct(ids) && k < |lines|
    ensures lines[k].menuItem in menu
    ensures ids[k] in LineRows(menu, r, order, lines, ids, now)
    ensures LineRows(menu, r, order, lines, ids, now)[ids[k]] == LineRow(menu, r, order, lines[k], now)
    decreases |lines|
  {
    var n := |lines| - 1;
    assert lines[k] in lines;
    if k < n {
      LineRowAt(menu, r, order, lines[..n], ids[..n], now, k);
    }
  }

  lemma {:induction false} LineRowKeys(menu: map<Id, MenuRow>, r: Id, order: Id, lines: seq<Line>, ids: seq<Id>,
      now: Time)
    requires AllOrderable(menu, r, lines) && |ids| == |lines|
    ensures LineRows(menu, r, order, lines, ids, now).Keys == set i | i in ids
    decreases |lines|
  {
    if lines != [] {
      var n := |lines| - 1;
      LineRowKeys(menu, r, order, lines[..n], ids[..n], now);
      assert ids == ids[..n] + [ids[n]];
      assert (set i | i in ids) == (set i | i in ids[..n]) + {ids[n]};
    }
  }

  /** The guests may order: the table resolves and every line is on the menu and available. */
  predicate Acceptable(db: Db, q: Request)
    requires q.Submit?
  {
    TakesRequests(db, q.table) && OnMenu(db.menu, db.tables[q.table].restaurant, q.lines)
  }

  lemma ServeEnsure(db: Db, table: Id, newId: Id, now: Time)
    requires table in db.tables && newId !in db.sessions && Valid(db, Ensure(db, table, None, newId, now))
    ensures var db' := ApplyAll(db, Ensure(db, table, None, newId, now));
            && db'.orders == db.orders && db'.items == db.items
            && IsOpenAt(db', table, Current(db, table, newId))
            && Joined(db, db'.(sessions := Touched(db', Current(db, table, newId), now)), table,
                      Current(db, table, newId), now)
  {
    if FindOpen(db, table).None? {
      var e := OpenSession(newId, table, db.tables[table].restaurant, None, now);
      assert Ensure(db, table, None, newId, now) == [e] + [];
      Cons(db, e, []);
      assert forall x | x in db.sessions :: !IsOpenAt(db, table, x);
    }
  }

  /** Exactly one order was added, to the session of the table, holding one pending row per
      requested line, each with the name, price and preparation time the menu shows. */
  ghost predicate Placed(db: Db, db': Db, table: Id, order: Id, lines: seq<Line>, ids: seq<Id>, now: Time)
    requires |ids| == |lines|
  {
    && table in db.tables && order in db'.orders
    && var r := db.tables[table].restaurant;
    && db'.orders == db.orders[order := OrderRow(r, db'.orders[order].session)]
    && Joined(db, db', table, db'.orders[order].session, now)
    && db'.items.Keys == db.items.Keys + (set i | i in ids)
    && (forall i | i in db.items :: db'.items[i] == db.items[i])
    && (forall k | 0 <= k < |lines| ::
          lines[k].menuItem in db.menu
          && Records(db'.items[ids[k]], db.menu[lines[k].menuItem], r, order, lines[k], now))
  }

  lemma {:induction false} RowsRecord(menu: map<Id, MenuRow>, r: Id, order: Id, lines: seq<Line>, ids: seq<Id>,
      now: Time)
    requires AllOrderable(menu, r, lines) && |ids| == |lines| && Distinct(ids)
    ensures var rows := LineRows(menu, r, order, lines, ids, now);
            && rows.Keys == (set i | i in ids)
            && forall k | 0 <= k < |lines| ::
                 lines[k].menuItem in menu
                 && Records(rows[ids[k]], menu[lines[k].menuItem], r, order, lines[k], now)
  {
    LineRowKeys(menu, r, order, lines, ids, now);
    forall k | 0 <= k < |lines|
      ensures lines[k].menuItem in menu
      ensures Records(LineRows(menu, r, order, lines, ids, now)[ids[k]], menu[lines[k].menuItem], r, order, lines[k],
                      now)
    {
      LineRowAt(menu, r, order, lines, ids, now, k);
    }
  }

  lemma SubmitAccepted(db: Db, clock: Time, now: Time, q: Request)
    requires Sound(db) && q.Submit? && Legal(db, clock, now, q) && Acceptable(db, q) && Valid(db, Plan(db, now, q))
    ensures Placed(db, ApplyAll(db, Plan(db, now, q)), q.table, q.order, q.lines, q.ids, now)
  {
    hide Apply, Guard, Valid, ApplyAll, Sound, LineRows, Records, Joined, OnMenu;
    var r := db.tables[q.table].restaurant;
    OnMenuIsOrderable(db.menu, r, q.lines);
    var first := Ensure(db, q.table, None, q.newId, now);
    var rows := LineRows(db.menu, r, q.order, q.lines, q.ids, now);
    var e := PlaceOrder(q.order, Current(db, q.table, q.newId), r, rows, now);
    assert Plan(db, now, q) == first + [e];
    ValidSplit(db, first, [e]);
    ServeEnsure(db, q.table, q.newId, now);
    PlaceLast(ApplyAll(db, first), e);
    JoinedBySessions(db, ApplyAll(db, first), ApplyAll(db, Plan(db, now, q)), q.table, e.session, now);
    RowsRecord(db.menu, r, q.order, q.lines, q.ids, now);
    assert forall i | i in db.items :: i !in rows;
  }

  lemma JoinedBySessions(db: Db, ready: Db, db': Db, table: Id, s: Id, now: Time)
    requires s in ready.sessions && Joined(db, ready.(sessions := Touched(ready, s, now)), table, s, now)
    requires db'.sessions == Touched(ready, s, now)
    ensures Joined(db, db', table, s, now)
  {
  }

  /** Either no order and no item changes, or the order is placed whole. */
  lemma SubmitAllOrNothing(db: Db, clock: Time, now: Time, q: Request)
    requires Sound(db) && q.Submit? && Legal(db, clock, now, q)
    ensures Acceptable(db, q) ==>
              Placed(db, Serve(db, clock, Event(now, q)), q.table, q.order, q.lines, q.ids, now)
    ensures !Acceptable(db, q) ==>
              && Serve(db, clock, Event(now, q)).orders == db.orders
              && Serve(db, clock, Event(now, q)).items == db.items
  {
    hide Placed, Apply, Guard;
    PlanIsAtomic(db, clock, now, q);
    AtomicIsValid(db, Plan(db, now, q), now);
    if Acceptable(db, q) {
      SubmitAccepted(db, clock, now, q);
    } else if Resolves(db, q.table, None) {
      OnMenuIsOrderable(db.menu, db.tables[q.table].restaurant, q.lines);
      assert Plan(db, now, q) == Ensure(db, q.table, None, q.newId, now);
      ServeEnsure(db, q.table, q.newId, now);
    }
  }

  lemma PlaceLast(db: Db, e: Effect)
    requires e.PlaceOrder? && Valid(db, [e])
    ensures var db' := ApplyAll(db, [e]);
            && Guard(db, e) && db'.items == db.items + e.added
            && db'.orders == db.orders[e.order := OrderRow(e.restaurant, e.session)]
            && db'.sessions == Touched(db, e.session, e.at)
            && forall t :: IsOpenAt(db, t, e.session) ==> IsOpenAt(db', t, e.session)
  {
    assert [e] == [e] + [];
    Cons(db, e, []);
  }
}
