/** The vocabulary in which the contracts speak of the tables: what a request finds and what
    it leaves, column by column, independent of the functions by which the model computes
    it. */
module Columns {
  import opened Schema
  import opened Money
  import opened Effects
  import opened Laws
  import opened Requests

  /** The table is active, and so is its restaurant. */
  predicate TakesRequests(db: Db, table: Id) {
    && table in db.tables && db.tables[table].active
    && db.tables[table].restaurant in db.restaurants && db.restaurants[db.tables[table].restaurant]
  }

  /** A session is open at the table. */
  predicate Occupied(db: Db, table: Id) {
    exists s :: s in db.sessions && db.sessions[s].table == table && db.sessions[s].status == Open
  }

  lemma OccupiedMeans(db: Db, table: Id)
    ensures Occupied(db, table) <==> FindOpen(db, table).Some?
    ensures Occupied(db, table) <==> exists s :: IsOpenAt(db, table, s)
  {
    if Occupied(db, table) {
      var s :| s in db.sessions && db.sessions[s].table == table && db.sessions[s].status == Open;
      assert IsOpenAt(db, table, s);
    }
  }

  /** Each line names a dish of the restaurant that is active and available. */
  predicate OnMenu(menu: map<Id, MenuRow>, restaurant: Id, lines: seq<Line>) {
    forall k | 0 <= k < |lines| ::
      && lines[k].menuItem in menu && menu[lines[k].menuItem].restaurant == restaurant
      && menu[lines[k].menuItem].active && menu[lines[k].menuItem].available
  }

  lemma OnMenuIsOrderable(menu: map<Id, MenuRow>, restaurant: Id, lines: seq<Line>)
    ensures OnMenu(menu, restaurant, lines) <==> AllOrderable(menu, restaurant, lines)
  {
    if OnMenu(menu, restaurant, lines) {
      assert forall l | l in lines :: Orderable(menu, restaurant, l);
    }
    if AllOrderable(menu, restaurant, lines) {
      forall k | 0 <= k < |lines| ensures Orderable(menu, restaurant, lines[k]) {
        assert lines[k] in lines;
      }
    }
  }

  /** The row that a request line of an order stands for, column by column. */
  predicate Records(row: ItemRow, dish: MenuRow, restaurant: Id, order: Id, line: Line, now: Time) {
    && row.restaurant == restaurant && row.order == order
    && row.menuItem == line.menuItem && row.quantity == line.quantity && row.note == line.note
    && row.name == dish.name && row.price == dish.price && row.prepMinutes == dish.prepMinutes
    && row.status == Pending && row.requestedAt == now
    && row.servedBy == None && row.servedAt == None
    && row.cancelledBy == None && row.cancelledAt == None && row.reason == None
  }

  /** The guests of a table are in session s: the one open there, or else one opened now. */
  predicate Joined(db: Db, db': Db, table: Id, s: Id, now: Time) {
    && table in db.tables
    && if s in db.sessions
       then && db.sessions[s].table == table && db.sessions[s].status == Open
            && db'.sessions == db.sessions[s := db.sessions[s].(lastActivity := now)]
       else && (forall x | x in db.sessions :: db.sessions[x].table != table || db.sessions[x].status != Open)
            && db'.sessions == db.sessions[s := SessionRow(db.tables[table].restaurant, table, Open, None, now, now,
                                                           None, None, None)]
  }

  /** Of the sessions only that of the item changes, and only in its last activity. */
  predicate TouchedOnly(db: Db, db': Db, item: Id, now: Time) {
    && item in db.items && db.items[item].order in db.orders
    && var s := db.orders[db.items[item].order].session;
       s in db.sessions && db'.sessions == db.sessions[s := db.sessions[s].(lastActivity := now)]
  }

  /** An item of the session that is pending, cooking or ready. */
  predicate CancelledBySystem(db: Db, sid: Id, i: Id) {
    && i in db.items && db.items[i].order in db.orders && db.orders[db.items[i].order].session == sid
    && (db.items[i].status == Pending || db.items[i].status == Cooking || db.items[i].status == Ready)
  }

  /** A call of the session and restaurant that is waiting. */
  predicate DismissedWith(db: Db, sid: Id, restaurant: Id, c: Id) {
    && c in db.calls && db.calls[c].session == sid && db.calls[c].restaurant == restaurant
    && db.calls[c].status == Waiting
  }

  /** What a closing with this total makes of the tables. */
  ghost predicate ClosedOut(db: Db, db': Db, sid: Id, restaurant: Id, now: Time, total: int) {
    && sid in db.sessions
    && db'.sessions == db.sessions[sid := db.sessions[sid].(status := Closed, closedAt := Some(now),
                                                            total := Some(total))]
    && db'.items.Keys == db.items.Keys
    && (forall i | i in db.items ::
          db'.items[i] == if CancelledBySystem(db, sid, i)
                          then db.items[i].(status := Cancelled, cancelledBy := Some(System),
                                            cancelledAt := Some(now), reason := Some("table_closed"))
                          else db.items[i])
    && db'.calls.Keys == db.calls.Keys
    && (forall c | c in db.calls ::
          db'.calls[c] == if DismissedWith(db, sid, restaurant, c)
                          then db.calls[c].(status := Acknowledged, ackedAt := Some(now)) else db.calls[c])
  }

  /** A closing's total is the sum of price times quantity over what is served. */
  lemma ClosesOut(db: Db, sid: Id, from: SessionStatus, now: Time)
    requires Guard(db, Close(sid, from, now))
    ensures var total := Sum(map i | i in db.items && db.items[i].order in db.orders
                                     && db.orders[db.items[i].order].session == sid && db.items[i].status == Served ::
                               db.items[i].price * db.items[i].quantity);
            ClosedOut(db, Apply(db, Close(sid, from, now)), sid, db.sessions[sid].restaurant, now, total)
  {
    hide Bill, ServedLines;
    BillOfAmounts(db, sid);
    TotalAtClose(db, sid, from, now);
  }

  lemma TotalAtClose(db: Db, sid: Id, from: SessionStatus, now: Time)
    requires Guard(db, Close(sid, from, now))
    ensures Apply(db, Close(sid, from, now)).sessions[sid].total == Some(Bill(db, sid))
  {
    hide ServedLines, CancelLive, DismissCalls;
    CancelKeepsServed(db, sid, "table_closed", now, sid);
  }

  // ----- What a line is worth -----

  /** A session with nothing served has a total of 0. */
  lemma NothingServed(db: Db, sid: Id, from: SessionStatus, now: Time)
    requires Guard(db, Close(sid, from, now))
    requires forall i | i in db.items && db.items[i].order in db.orders
                        && db.orders[db.items[i].order].session == sid :: db.items[i].status != Served
    ensures Apply(db, Close(sid, from, now)).sessions[sid].total == Some(0)
  {
    TotalAtClose(db, sid, from, now);
    assert ServedLines(db.items, db.orders, sid) == map[];
  }

  lemma OneLineMore(db: Db, db': Db, i: Id, sid: Id)
    requires i in db.items && InSession(db.orders, db.items[i], sid) && db.items[i].status != Served
    requires db'.orders == db.orders && i in db'.items && db'.items == db.items[i := db'.items[i]]
    requires SameSnapshot(db.items[i], db'.items[i]) && db'.items[i].status == Served
    ensures Bill(db', sid) == Bill(db, sid) + db.items[i].price * db.items[i].quantity
  {
    var before := ServedLines(db.items, db.orders, sid);
    Add(before, i, LineTotal(db.items[i]));
    assert ServedLines(db'.items, db'.orders, sid) == before[i := LineTotal(db.items[i])];
  }

  /** Serving an item raises what a closing bills by its price times its quantity. */
  lemma ServingRaisesTotal(db: Db, i: Id, actor: Option<Id>, at: Time, from: SessionStatus, now: Time)
    requires Guard(db, MoveItem(i, Served, actor, at)) && Guard(db, Close(SessionOf(db, i), from, now))
    ensures var sid := SessionOf(db, i); var db' := Apply(db, MoveItem(i, Served, actor, at));
            && Guard(db', Close(sid, from, now))
            && var before := Apply(db, Close(sid, from, now)).sessions[sid].total;
               var after := Apply(db', Close(sid, from, now)).sessions[sid].total;
            && before.Some? && after == Some(before.value + db.items[i].price * db.items[i].quantity)
  {
    var sid := SessionOf(db, i);
    var db' := Apply(db, MoveItem(i, Served, actor, at));
    assert Guard(db', Close(sid, from, now));
    OneLineMore(db, db', i, sid);
    hide Apply, Guard, Bill;
    TotalAtClose(db, sid, from, now);
    TotalAtClose(db', sid, from, now);
  }

  // ----- Edits -----

  lemma ServeOne(db: Db, clock: Time, ev: Event, e: Effect)
    requires Sound(db) && Legal(db, clock, ev.at, ev.request) && Plan(db, ev.at, ev.request) == [e]
    ensures Guard(db, e) && Serve(db, clock, ev) == Apply(db, e)
  {
    hide Plan, Apply, Guard;
    PlanIsAtomic(db, clock, ev.at, ev.request);
    AtomicIsValid(db, [e], ev.at);
    assert Guard(db, [e][0]) && [e][1..] == [];
    assert [e] == [e] + [];
    Cons(db, e, []);
  }

  /** An edit of the menu stores the row given, unless the menu item is another restaurant's. */
  lemma MenuSaved(db: Db, clock: Time, now: Time, m: Id, dish: MenuRow)
    requires Sound(db) && Legal(db, clock, now, SaveMenu(m, dish))
    ensures Serve(db, clock, Event(now, SaveMenu(m, dish)))
            == if m in db.menu && db.menu[m].restaurant != dish.restaurant then db else db.(menu := db.menu[m := dish])
  {
    if !(m in db.menu && db.menu[m].restaurant != dish.restaurant) {
      ServeOne(db, clock, Event(now, SaveMenu(m, dish)), EditMenu(m, dish));
    }
  }

  /** An edit of the settings stores the row given. */
  lemma SettingsSaved(db: Db, clock: Time, now: Time, r: Id, row: SettingsRow)
    requires Sound(db) && Legal(db, clock, now, SaveSettings(r, row))
    ensures Serve(db, clock, Event(now, SaveSettings(r, row))) == db.(settings := db.settings[r := row])
  {
    ServeOne(db, clock, Event(now, SaveSettings(r, row)), EditSettings(r, row));
  }
}
