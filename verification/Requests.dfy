/** The requests of the API and the scheduler, each served as one atomic step: which
    effects a request commits in a given database at a given instant, and the runs such
    requests make up.  Identifiers the server generates arrive as parameters. */
module Requests {
  import opened Schema
  import opened Effects

  datatype Line = Line(menuItem: Id, quantity: int, note: Option<string>)

  datatype Request =
    | OpenTable(table: Id, scope: Option<Id>, opener: Option<Id>, newId: Id)
    | Submit(table: Id, lines: seq<Line>, newId: Id, order: Id, ids: seq<Id>)
    | SetStatus(item: Id, to: ItemStatus, actor: Option<Id>, restaurant: Id)
    | StaffCancel(item: Id, reason: Option<string>, restaurant: Id)
    | CustomerCancel(table: Id, item: Id, reason: Option<string>, newId: Id)
    | Checkout(session: Id, restaurant: Id)
    | Restore(session: Id, restaurant: Id)
    | Sweep(rows: seq<Id>, failed: set<Id>)
    | CallStaff(table: Id, newId: Id, call: Id)
    | Ack(call: Id, staff: Id, restaurant: Id)
    | SaveMenu(entry: Id, dish: MenuRow)
    | SaveSettings(restaurant: Id, row: SettingsRow)

  // ----- Lookups -----

  /** A QR token resolves to an active table of an active restaurant; a staff member's own
      lookup checks the tenant instead of the restaurant's flag. */
  predicate Resolves(db: Db, table: Id, scope: Option<Id>) {
    && table in db.tables && db.tables[table].active
    && (match scope
        case Some(r) => db.tables[table].restaurant == r
        case None => db.tables[table].restaurant in db.restaurants && db.restaurants[db.tables[table].restaurant])
  }

  /** The session get_or_open returns. */
  ghost function Current(db: Db, table: Id, newId: Id): Id {
    var found := FindOpen(db, table);
    if found.Some? then found.value else newId
  }

  /** get_or_open */
  ghost function Ensure(db: Db, table: Id, opener: Option<Id>, newId: Id, now: Time): seq<Effect>
    requires table in db.tables
  {
    if FindOpen(db, table).Some? then []
    else [OpenSession(newId, table, db.tables[table].restaurant, opener, now)]
  }

  predicate Orderable(menu: map<Id, MenuRow>, restaurant: Id, line: Line) {
    && line.menuItem in menu && menu[line.menuItem].restaurant == restaurant
    && menu[line.menuItem].active && menu[line.menuItem].available
  }

  predicate AllOrderable(menu: map<Id, MenuRow>, restaurant: Id, lines: seq<Line>) {
    forall l | l in lines :: Orderable(menu, restaurant, l)
  }

  function LineRow(menu: map<Id, MenuRow>, restaurant: Id, order: Id, line: Line, now: Time): ItemRow
    requires line.menuItem in menu
  {
    NewItem(restaurant, order, line.menuItem, menu[line.menuItem], line.quantity, line.note, now)
  }

  /** One row per request line, under the identifier generated for it. */
  function LineRows(menu: map<Id, MenuRow>, restaurant: Id, order: Id, lines: seq<Line>, ids: seq<Id>,
      now: Time): map<Id, ItemRow>
    requires AllOrderable(menu, restaurant, lines) && |ids| == |lines|
  {
    if lines == [] then map[]
    else
      var n := |lines| - 1;
      assert lines[n] in lines;
      LineRows(menu, restaurant, order, lines[..n], ids[..n], now)
        [ids[n] := LineRow(menu, restaurant, order, lines[n], now)]
  }

  function AbandonAll(rows: seq<Id>, failed: set<Id>, now: Time): seq<Effect> {
    if rows == [] then []
    else (if rows[0] in failed then [] else [Abandon(rows[0], now)]) + AbandonAll(rows[1..], failed, now)
  }

  function CooldownSeconds(db: Db, restaurant: Id): int {
    if restaurant in db.settings then db.settings[restaurant].cooldownSeconds else DEFAULT_COOLDOWN_SECONDS
  }

  /** The table has a call younger than the cooldown. */
  predicate CalledRecently(db: Db, table: Id, cooldown: int, now: Time) {
    exists c | c in db.calls :: db.calls[c].table == table && db.calls[c].createdAt > now - cooldown * SECOND
  }

  predicate CoolingDown(db: Db, table: Id, now: Time)
    requires table in db.tables
  {
    CalledRecently(db, table, CooldownSeconds(db, db.tables[table].restaurant), now)
  }

  predicate Restorable(db: Db, sid: Id, restaurant: Id, now: Time) {
    && sid in db.sessions && db.sessions[sid].restaurant == restaurant && db.sessions[sid].status == Abandoned
    && db.sessions[sid].abandonedAt.Some? && now - db.sessions[sid].abandonedAt.value <= RESTORE_LIMIT
  }

  // ----- What a request commits -----

  ghost function Plan(db: Db, now: Time, q: Request): seq<Effect> {
    match q
    case OpenTable(table, scope, opener, newId) =>
      if Resolves(db, table, scope) then Ensure(db, table, opener, newId, now) else []
    case Submit(table, lines, newId, order, ids) =>
      if !Resolves(db, table, None) then []
      else
        var r := db.tables[table].restaurant;
        Ensure(db, table, None, newId, now)
        + if AllOrderable(db.menu, r, lines) && |ids| == |lines|
          then [PlaceOrder(order, Current(db, table, newId), r, LineRows(db.menu, r, order, lines, ids, now), now)]
          else []
    case SetStatus(item, to, actor, r) =>
      if item in db.items && db.items[item].restaurant == r && Move(db.items[item], to, actor, now).Some?
      then [MoveItem(item, to, actor, now)] else []
    case StaffCancel(item, reason, r) =>
      if item in db.items && db.items[item].restaurant == r && Live(db.items[item].status)
      then [CancelItem(item, Staff, reason, now)] else []
    case CustomerCancel(table, item, reason, newId) =>
      if !Resolves(db, table, None) then []
      else
        Ensure(db, table, None, newId, now)
        + if item in db.items && InSession(db.orders, db.items[item], Current(db, table, newId))
             && db.items[item].restaurant == db.tables[table].restaurant && db.items[item].status == Pending
          then [CancelItem(item, Customer, reason, now)] else []
    case Checkout(s, r) =>
      if s in db.sessions && db.sessions[s].restaurant == r && db.sessions[s].status == Open
      then [Close(s, Open, now)] else []
    case Restore(s, r) =>
      if !Restorable(db, s, r, now) then []
      else if FindOpen(db, db.sessions[s].table).Some? then [Close(s, Abandoned, now)]
      else [Reopen(s, now)]
    case Sweep(rows, failed) => AbandonAll(rows, failed, now)
    case CallStaff(table, newId, call) =>
      if !Resolves(db, table, None) then []
      else
        Ensure(db, table, None, newId, now)
        + if CoolingDown(db, table, now) then [] else [NewCall(call, Current(db, table, newId), now)]
    case Ack(call, staff, r) =>
      if call in db.calls && db.calls[call].restaurant == r && db.calls[call].status == Waiting
      then [AckCall(call, staff, now)] else []
    case SaveMenu(m, dish) =>
      if m in db.menu ==> db.menu[m].restaurant == dish.restaurant then [EditMenu(m, dish)] else []
    case SaveSettings(r, row) => [EditSettings(r, row)]
  }

  predicate Distinct(ids: seq<Id>) {
    forall i, j | 0 <= i < j < |ids| :: ids[i] != ids[j]
  }

  /** What the schemas and the engine guarantee about an arriving request: time does not run
      backwards, generated identifiers are new, numeric fields are in range, and the sweep's
      rows are exactly what its scan returns. */
  ghost predicate Legal(db: Db, clock: Time, now: Time, q: Request) {
    clock <= now &&
    match q
    case OpenTable(_, _, _, newId) => newId !in db.sessions
    case Submit(_, lines, newId, order, ids) =>
      && newId !in db.sessions && order !in db.orders
      && lines != [] && (forall l | l in lines :: l.quantity > 0)
      && |ids| == |lines| && Distinct(ids) && forall i | i in ids :: i !in db.items
    case CustomerCancel(_, _, _, newId) => newId !in db.sessions
    case Sweep(rows, _) => Distinct(rows) && forall s :: s in rows <==> Stale(db, s, now)
    case CallStaff(_, newId, call) => newId !in db.sessions && call !in db.calls
    case SaveMenu(_, dish) => dish.price >= 0 && dish.prepMinutes >= 0
    case SaveSettings(_, row) => row.timeoutHours >= 1 && row.cooldownSeconds >= 0
    case _ => true
  }

  /** What serving a request as one step adds to an effect's guard: the session read is still
      open when the order or the call is written, and a session abandoned is still stale. */
  predicate Atomic(db: Db, e: Effect, now: Time) {
    match e
    case OpenSession(_, _, _, _, at) => at == now
    case PlaceOrder(_, s, _, added, at) => at == now && s in db.sessions && db.sessions[s].status == Open
    case MoveItem(_, _, _, at) => at == now
    case CancelItem(_, _, _, at) => at == now
    case Close(_, _, at) => at == now
    case Abandon(s, at) => at == now && s in db.sessions && db.sessions[s].lastActivity < now - HOUR
    case Reopen(_, at) => at == now
    case NewCall(c, s, at) => at == now && s in db.sessions && db.sessions[s].status == Open
    case AckCall(c, _, at) => at == now && c in db.calls && db.calls[c].status == Waiting
    case EditMenu(_, _) => true
    case EditSettings(_, _) => true
  }

  ghost predicate AllAtomic(db: Db, es: seq<Effect>, now: Time)
    decreases |es|
  {
    es == [] || (Guard(db, es[0]) && Atomic(db, es[0], now) && AllAtomic(Apply(db, es[0]), es[1..], now))
  }

  lemma {:induction false} AtomicIsValid(db: Db, es: seq<Effect>, now: Time)
    requires AllAtomic(db, es, now)
    ensures Valid(db, es)
    decreases |es|
  {
    if es != [] {
      AtomicIsValid(Apply(db, es[0]), es[1..], now);
    }
  }

  lemma AtomicOne(db: Db, e: Effect, now: Time)
    requires Guard(db, e) && Atomic(db, e, now)
    ensures AllAtomic(db, [e], now)
  {
    assert [e][1..] == [];
  }

  lemma AtomicTwo(db: Db, e: Effect, f: Effect, now: Time)
    requires Guard(db, e) && Atomic(db, e, now) && Guard(Apply(db, e), f) && Atomic(Apply(db, e), f, now)
    ensures AllAtomic(db, [e] + [f], now)
  {
    AtomicOne(Apply(db, e), f, now);
    assert ([e] + [f])[1..] == [f];
  }

  /** Prices and times are what the schema admits. */
  predicate Priced(menu: map<Id, MenuRow>) {
    forall m | m in menu :: menu[m].price >= 0 && menu[m].prepMinutes >= 0
  }

  /** create_order's rows satisfy the table's constraints and use exactly the generated ids. */
  lemma {:induction false} LineRowsAreFresh(menu: map<Id, MenuRow>, r: Id, order: Id, lines: seq<Line>, ids: seq<Id>,
      now: Time)
    requires Priced(menu) && AllOrderable(menu, r, lines) && |ids| == |lines|
    requires forall l | l in lines :: l.quantity > 0
    ensures forall i :: i in LineRows(menu, r, order, lines, ids, now) <==> i in ids
    ensures forall i | i in LineRows(menu, r, order, lines, ids, now) ::
              FreshLine(LineRows(menu, r, order, lines, ids, now)[i], order, r)
    decreases |lines|
  {
    if lines != [] {
      var n := |lines| - 1;
      LineRowsAreFresh(menu, r, order, lines[..n], ids[..n], now);
      assert lines[n] in lines;
      assert ids == ids[..n] + [ids[n]];
    }
  }

  lemma SubmitIsAtomic(db: Db, clock: Time, now: Time, q: Request)
    requires Sound(db) && q.Submit? && Legal(db, clock, now, q)
    ensures AllAtomic(db, Plan(db, now, q), now)
  {
    if Resolves(db, q.table, None) {
      var r := db.tables[q.table].restaurant;
      var sid := Current(db, q.table, q.newId);
      if AllOrderable(db.menu, r, q.lines) {
        LineRowsAreFresh(db.menu, r, q.order, q.lines, q.ids, now);
        var rows := LineRows(db.menu, r, q.order, q.lines, q.ids, now);
        var e := PlaceOrder(q.order, sid, r, rows, now);
        assert rows.Keys !! db.items.Keys;
        assert forall i | i in rows :: FreshLine(rows[i], q.order, r);
        if FindOpen(db, q.table).Some? {
          AtomicOne(db, e, now);
          assert Plan(db, now, q) == [e];
        } else {
          AtomicTwo(db, OpenSession(q.newId, q.table, r, None, now), e, now);
        }
      } else {
        EnsureIsAtomic(db, q.table, None, q.newId, now);
        assert Plan(db, now, q) == Ensure(db, q.table, None, q.newId, now);
      }
    }
  }

  lemma EnsureIsAtomic(db: Db, table: Id, opener: Option<Id>, newId: Id, now: Time)
    requires table in db.tables && newId !in db.sessions
    ensures AllAtomic(db, Ensure(db, table, opener, newId, now), now)
  {
    if FindOpen(db, table).None? {
      AtomicOne(db, OpenSession(newId, table, db.tables[table].restaurant, opener, now), now);
    }
  }

  lemma CallStaffIsAtomic(db: Db, clock: Time, now: Time, q: Request)
    requires Sound(db) && q.CallStaff? && Legal(db, clock, now, q)
    ensures AllAtomic(db, Plan(db, now, q), now)
  {
    if Resolves(db, q.table, None) {
      var r := db.tables[q.table].restaurant;
      var e := NewCall(q.call, Current(db, q.table, q.newId), now);
      if CoolingDown(db, q.table, now) {
        EnsureIsAtomic(db, q.table, None, q.newId, now);
        assert Plan(db, now, q) == Ensure(db, q.table, None, q.newId, now);
      } else if FindOpen(db, q.table).Some? {
        AtomicOne(db, e, now);
        assert Plan(db, now, q) == [e];
      } else {
        AtomicTwo(db, OpenSession(q.newId, q.table, r, None, now), e, now);
      }
    }
  }

  lemma CustomerCancelIsAtomic(db: Db, clock: Time, now: Time, q: Request)
    requires Sound(db) && q.CustomerCancel? && Legal(db, clock, now, q)
    ensures AllAtomic(db, Plan(db, now, q), now)
  {
    if Resolves(db, q.table, None) {
      var sid := Current(db, q.table, q.newId);
      if q.item in db.items && InSession(db.orders, db.items[q.item], sid)
         && db.items[q.item].restaurant == db.tables[q.table].restaurant && db.items[q.item].status == Pending {
        assert sid in db.sessions;
        AtomicOne(db, CancelItem(q.item, Customer, q.reason, now), now);
        assert Plan(db, now, q) == [CancelItem(q.item, Customer, q.reason, now)];
      } else {
        EnsureIsAtomic(db, q.table, None, q.newId, now);
        assert Plan(db, now, q) == Ensure(db, q.table, None, q.newId, now);
      }
    }
  }

  /** Abandoning one stale session leaves the others as stale as they were. */
  lemma AbandonKeepsStale(db: Db, sid: Id, other: Id, now: Time)
    requires Guard(db, Abandon(sid, now)) && Stale(db, other, now) && other != sid
    ensures Stale(Apply(db, Abandon(sid, now)), other, now)
  {
  }

  lemma {:induction false} SweepIsAtomic(db: Db, rows: seq<Id>, failed: set<Id>, now: Time)
    requires Sound(db) && Distinct(rows) && forall s | s in rows :: Stale(db, s, now)
    ensures AllAtomic(db, AbandonAll(rows, failed, now), now)
    decreases |rows|
  {
    if rows != [] {
      var rest := rows[1..];
      var es := AbandonAll(rows, failed, now);
      assert rows[0] in rows && forall s | s in rest :: s in rows && s != rows[0];
      if rows[0] in failed {
        SweepIsAtomic(db, rest, failed, now);
        assert es == AbandonAll(rest, failed, now);
      } else {
        var e := Abandon(rows[0], now);
        assert Stale(db, rows[0], now);
        forall s | s in rest ensures Stale(Apply(db, e), s, now) {
          AbandonKeepsStale(db, rows[0], s, now);
        }
        EffectKeepsSound(db, e);
        SweepIsAtomic(Apply(db, e), rest, failed, now);
        assert es == [e] + AbandonAll(rest, failed, now) && es[1..] == AbandonAll(rest, failed, now);
      }
    }
  }

  /** Whatever a legal request plans passes every check of the database when its turn comes. */
  lemma PlanIsAtomic(db: Db, clock: Time, now: Time, q: Request)
    requires Sound(db) && Legal(db, clock, now, q)
    ensures AllAtomic(db, Plan(db, now, q), now)
  {
    match q
    case OpenTable(table, scope, opener, newId) =>
      if Resolves(db, table, scope) { EnsureIsAtomic(db, table, opener, newId, now); }
    case Submit(_, _, _, _, _) => SubmitIsAtomic(db, clock, now, q);
    case CustomerCancel(_, _, _, _) => CustomerCancelIsAtomic(db, clock, now, q);
    case CallStaff(_, _, _) => CallStaffIsAtomic(db, clock, now, q);
    case Sweep(rows, failed) => SweepIsAtomic(db, rows, failed, now);
    case _ => SingleIsAtomic(db, clock, now, q);
  }

  lemma SingleIsAtomic(db: Db, clock: Time, now: Time, q: Request)
    requires Sound(db) && Legal(db, clock, now, q)
    requires q.SetStatus? || q.StaffCancel? || q.Checkout? || q.Restore? || q.Ack? || q.SaveMenu? || q.SaveSettings?
    ensures AllAtomic(db, Plan(db, now, q), now)
  {
    var es := Plan(db, now, q);
    if es != [] {
      assert es == [es[0]];
      if q.SetStatus? || q.StaffCancel? {
        assert ItemsLinked(db) && OrdersLinked(db);
        assert HasSession(db, q.item);
      }
      AtomicOne(db, es[0], now);
    }
  }

  // ----- Runs -----

  datatype Event = Event(at: Time, request: Request)

  ghost function Serve(db: Db, clock: Time, ev: Event): (db': Db)
    requires Sound(db) && Legal(db, clock, ev.at, ev.request)
    ensures Sound(db')
  {
    var es := Plan(db, ev.at, ev.request);
    PlanIsAtomic(db, clock, ev.at, ev.request);
    AtomicIsValid(db, es, ev.at);
    EffectsKeepSound(db, es);
    ApplyAll(db, es)
  }

  ghost predicate LegalRun(db: Db, clock: Time, evs: seq<Event>)
    requires Sound(db)
    decreases |evs|
  {
    evs == [] || (Legal(db, clock, evs[0].at, evs[0].request)
                  && LegalRun(Serve(db, clock, evs[0]), evs[0].at, evs[1..]))
  }

  /** The effects a whole run commits, in order. */
  ghost function History(db: Db, clock: Time, evs: seq<Event>): (es: seq<Effect>)
    requires Sound(db) && LegalRun(db, clock, evs)
    decreases |evs|
  {
    if evs == [] then []
    else Plan(db, evs[0].at, evs[0].request) + History(Serve(db, clock, evs[0]), evs[0].at, evs[1..])
  }

  ghost function After(db: Db, clock: Time, evs: seq<Event>): (db': Db)
    requires Sound(db) && LegalRun(db, clock, evs)
    ensures Sound(db')
    decreases |evs|
  {
    if evs == [] then db else After(Serve(db, clock, evs[0]), evs[0].at, evs[1..])
  }

  function ClockAfter(clock: Time, evs: seq<Event>): Time {
    if evs == [] then clock else evs[|evs| - 1].at
  }

  /** A run is the application of its effects, so every law of effects is a law of runs. */
  lemma {:induction false} RunIsHistory(db: Db, clock: Time, evs: seq<Event>)
    requires Sound(db) && LegalRun(db, clock, evs)
    ensures Valid(db, History(db, clock, evs)) && ApplyAll(db, History(db, clock, evs)) == After(db, clock, evs)
    decreases |evs|
  {
    if evs != [] {
      var es := Plan(db, evs[0].at, evs[0].request);
      PlanIsAtomic(db, clock, evs[0].at, evs[0].request);
      AtomicIsValid(db, es, evs[0].at);
      var next := Serve(db, clock, evs[0]);
      RunIsHistory(next, evs[0].at, evs[1..]);
      ValidConcat(db, es, History(next, evs[0].at, evs[1..]));
    }
  }
}
