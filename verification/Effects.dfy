/** What a committed transaction does to the database.  Every request of the system
    commits a (possibly empty) list of the effects below, whether it runs alone
    (Requests) or interleaved statement by statement with others (Interleaving).
    A guard is what the statements themselves check: compare-and-swap predicates,
    foreign keys, CHECK constraints and the unique partial index. */
module Effects {
  import opened Schema
  import opened Money

  datatype Effect =
    | OpenSession(session: Id, table: Id, restaurant: Id, opener: Option<Id>, at: Time)
    | PlaceOrder(order: Id, session: Id, restaurant: Id, added: map<Id, ItemRow>, at: Time)
    | MoveItem(item: Id, to: ItemStatus, actor: Option<Id>, at: Time)
    | CancelItem(item: Id, who: Canceller, reason: Option<string>, at: Time)
    | Close(session: Id, from: SessionStatus, at: Time)
    | Abandon(session: Id, at: Time)
    | Reopen(session: Id, at: Time)
    | NewCall(call: Id, session: Id, at: Time)
    | AckCall(call: Id, staff: Id, at: Time)
    | EditMenu(entry: Id, dish: MenuRow)
    | EditSettings(owner: Id, row: SettingsRow)

  /** A row create_order may insert: pending, priced, and nothing stamped yet. */
  predicate FreshLine(row: ItemRow, order: Id, restaurant: Id) {
    && row.order == order && row.restaurant == restaurant
    && row.status == Pending && row.quantity > 0 && row.price >= 0 && row.prepMinutes >= 0
    && row.servedBy == None && row.servedAt == None
    && row.cancelledBy == None && row.cancelledAt == None
  }

  predicate HasSession(db: Db, item: Id) {
    item in db.items && db.items[item].order in db.orders && db.orders[db.items[item].order].session in db.sessions
  }

  function SessionOf(db: Db, item: Id): Id
    requires HasSession(db, item)
  {
    db.orders[db.items[item].order].session
  }

  ghost predicate Guard(db: Db, e: Effect) {
    match e
    case OpenSession(s, t, r, _, _) =>
      s !in db.sessions && t in db.tables && db.tables[t].restaurant == r && forall x :: !IsOpenAt(db, t, x)
    case PlaceOrder(o, s, r, added, _) =>
      && o !in db.orders && s in db.sessions && db.sessions[s].restaurant == r
      && added.Keys !! db.items.Keys && forall i | i in added :: FreshLine(added[i], o, r)
    case MoveItem(i, to, actor, at) => HasSession(db, i) && Move(db.items[i], to, actor, at).Some?
    case CancelItem(i, _, _, _) => HasSession(db, i) && Live(db.items[i].status)
    case Close(s, from, _) => s in db.sessions && db.sessions[s].status == from && (from == Open || from == Abandoned)
    case Abandon(s, _) => s in db.sessions && db.sessions[s].status == Open
    case Reopen(s, _) =>
      && s in db.sessions && db.sessions[s].status == Abandoned
      && forall x :: !IsOpenAt(db, db.sessions[s].table, x)
    case NewCall(c, s, _) => c !in db.calls && s in db.sessions
    case AckCall(c, _, _) => c in db.calls
    case EditMenu(m, dish) =>
      dish.price >= 0 && dish.prepMinutes >= 0 && (m in db.menu ==> db.menu[m].restaurant == dish.restaurant)
    case EditSettings(r, row) => row.timeoutHours >= 1 && row.cooldownSeconds >= 0
  }

  function Touched(db: Db, sid: Id, at: Time): map<Id, SessionRow>
    requires sid in db.sessions
  {
    db.sessions[sid := TouchRow(db.sessions[sid], at)]
  }

  ghost function Apply(db: Db, e: Effect): Db
    requires Guard(db, e)
  {
    match e
    case OpenSession(s, t, r, opener, at) =>
      db.(sessions := db.sessions[s := NewSession(r, t, opener, at)])
    case PlaceOrder(o, s, r, added, at) =>
      db.(orders := db.orders[o := OrderRow(r, s)], items := db.items + added, sessions := Touched(db, s, at))
    case MoveItem(i, to, actor, at) =>
      db.(items := db.items[i := Move(db.items[i], to, actor, at).value],
          sessions := Touched(db, SessionOf(db, i), at))
    case CancelItem(i, who, reason, at) =>
      db.(items := db.items[i := CancelRow(db.items[i], who, reason, at)],
          sessions := Touched(db, SessionOf(db, i), at))
    case Close(s, _, at) =>
      var items := CancelLive(db, s, "table_closed", at);
      db.(items := items,
          sessions := db.sessions[s := BillRow(CloseRow(db.sessions[s], at), Sum(ServedLines(items, db.orders, s)))],
          calls := DismissCalls(db.calls, s, db.sessions[s].restaurant, at))
    case Abandon(s, at) =>
      db.(items := CancelLive(db, s, "session_abandoned", at),
          sessions := db.sessions[s := AbandonRow(db.sessions[s], at)],
          calls := DismissCalls(db.calls, s, db.sessions[s].restaurant, at))
    case Reopen(s, at) =>
      db.(sessions := db.sessions[s := ReopenRow(db.sessions[s], at)])
    case NewCall(c, s, at) =>
      var row := db.sessions[s];
      db.(calls := db.calls[c := CallRow(row.restaurant, row.table, s, Waiting, at, None, None)],
          sessions := Touched(db, s, at))
    case AckCall(c, staff, at) =>
      db.(calls := db.calls[c := DismissRow(db.calls[c], at).(ackedBy := Some(staff))])
    case EditMenu(m, dish) => db.(menu := db.menu[m := dish])
    case EditSettings(r, row) => db.(settings := db.settings[r := row])
  }

  /** Every guard holds when its turn comes. */
  ghost predicate Valid(db: Db, es: seq<Effect>)
    decreases |es|
  {
    es == [] || (Guard(db, es[0]) && Valid(Apply(db, es[0]), es[1..]))
  }

  ghost function ApplyAll(db: Db, es: seq<Effect>): Db
    requires Valid(db, es)
    decreases |es|
  {
    if es == [] then db else ApplyAll(Apply(db, es[0]), es[1..])
  }

  lemma Cons(db: Db, e: Effect, rest: seq<Effect>)
    requires Guard(db, e) && Valid(Apply(db, e), rest)
    ensures Valid(db, [e] + rest) && ApplyAll(db, [e] + rest) == ApplyAll(Apply(db, e), rest)
  {
    assert ([e] + rest)[1..] == rest;
  }

  lemma {:induction false} ValidConcat(db: Db, a: seq<Effect>, b: seq<Effect>)
    requires Valid(db, a) && Valid(ApplyAll(db, a), b)
    ensures Valid(db, a + b) && ApplyAll(db, a + b) == ApplyAll(ApplyAll(db, a), b)
    decreases |a|
  {
    if a == [] {
      assert a + b == b;
    } else {
      ValidConcat(Apply(db, a[0]), a[1..], b);
      assert (a + b)[1..] == a[1..] + b;
    }
  }

  lemma {:induction false} ValidSplit(db: Db, a: seq<Effect>, b: seq<Effect>)
    requires Valid(db, a + b)
    ensures Valid(db, a) && Valid(ApplyAll(db, a), b)
    ensures ApplyAll(db, a + b) == ApplyAll(ApplyAll(db, a), b)
    decreases |a|
  {
    if a == [] {
      assert a + b == b;
    } else {
      assert (a + b)[1..] == a[1..] + b;
      ValidSplit(Apply(db, a[0]), a[1..], b);
    }
  }

  /** What the constraints and the services keep true of the rows, in any interleaving. */
  ghost predicate Sound(db: Db) {
    Linked(db) && OneOpenPerTable(db) && SessionShapes(db) && ItemShapes(db) && Catalogued(db)
  }

  /** No orphans: a chain item -> order -> session -> table and call -> session shares one restaurant. */
  ghost predicate Linked(db: Db) {
    SessionsLinked(db) && OrdersLinked(db) && ItemsLinked(db) && CallsLinked(db)
  }

  ghost predicate SessionsLinked(db: Db) {
    forall s | s in db.sessions ::
      db.sessions[s].table in db.tables && db.tables[db.sessions[s].table].restaurant == db.sessions[s].restaurant
  }

  ghost predicate OrdersLinked(db: Db) {
    forall o | o in db.orders ::
      db.orders[o].session in db.sessions && db.sessions[db.orders[o].session].restaurant == db.orders[o].restaurant
  }

  ghost predicate ItemsLinked(db: Db) {
    forall i | i in db.items ::
      db.items[i].order in db.orders && db.orders[db.items[i].order].restaurant == db.items[i].restaurant
  }

  ghost predicate CallsLinked(db: Db) {
    forall c | c in db.calls :: CallLinked(db, db.calls[c])
  }

  predicate CallLinked(db: Db, row: CallRow) {
    && row.session in db.sessions
    && db.sessions[row.session].restaurant == row.restaurant
    && db.sessions[row.session].table == row.table
  }

  /** The status determines which stamps of a session are null. */
  predicate SessionShape(row: SessionRow) {
    match row.status
    case Open => row.closedAt == None && row.abandonedAt == None && row.total == None
    case Abandoned => row.closedAt == None && row.abandonedAt.Some? && row.total == None
    case Closed => row.closedAt.Some? && row.total.Some?
  }

  ghost predicate SessionShapes(db: Db) {
    forall s | s in db.sessions :: SessionShape(db.sessions[s])
  }

  predicate ItemShape(row: ItemRow) {
    && (row.status == Served <==> row.servedAt.Some?)
    && (row.status == Cancelled <==> row.cancelledAt.Some?)
    && (row.status == Cancelled <==> row.cancelledBy.Some?)
    && row.price >= 0 && row.quantity > 0 && row.prepMinutes >= 0
  }

  ghost predicate ItemShapes(db: Db) {
    forall i | i in db.items :: ItemShape(db.items[i])
  }

  ghost predicate Catalogued(db: Db) {
    && (forall m | m in db.menu :: db.menu[m].price >= 0 && db.menu[m].prepMinutes >= 0)
    && (forall r | r in db.settings :: db.settings[r].timeoutHours >= 1 && db.settings[r].cooldownSeconds >= 0)
  }

  /** Who a session belongs to never changes, and no session disappears. */
  lemma EffectKeepsOwners(db: Db, e: Effect, s: Id)
    requires Guard(db, e) && s in db.sessions
    ensures s in Apply(db, e).sessions
    ensures Apply(db, e).sessions[s].table == db.sessions[s].table
    ensures Apply(db, e).sessions[s].restaurant == db.sessions[s].restaurant
  {
  }

  /** Every item has its order and its session. */
  lemma ItemHasSession(db: Db, i: Id)
    requires Sound(db) && i in db.items
    ensures HasSession(db, i)
  {
    assert db.orders[db.items[i].order].session in db.sessions;
  }

  lemma EffectKeepsOrderLinks(db: Db, e: Effect)
    requires Linked(db) && Guard(db, e)
    ensures OrdersLinked(Apply(db, e))
  {
    var db' := Apply(db, e);
    forall o | o in db'.orders
      ensures db'.orders[o].session in db'.sessions
      ensures db'.sessions[db'.orders[o].session].restaurant == db'.orders[o].restaurant
    {
      assert db'.orders[o].session in db.sessions;
      EffectKeepsOwners(db, e, db'.orders[o].session);
    }
  }

  lemma EffectKeepsItemLinks(db: Db, e: Effect)
    requires Linked(db) && Guard(db, e)
    ensures ItemsLinked(Apply(db, e))
  {
    var db' := Apply(db, e);
    forall i | i in db'.items
      ensures db'.items[i].order in db'.orders && db'.orders[db'.items[i].order].restaurant == db'.items[i].restaurant
    {
      if i in db.items {
        assert db'.items[i].order == db.items[i].order && db'.items[i].restaurant == db.items[i].restaurant;
      }
    }
  }

  lemma EffectKeepsCallLinks(db: Db, e: Effect)
    requires Linked(db) && Guard(db, e)
    ensures CallsLinked(Apply(db, e))
  {
    var db' := Apply(db, e);
    forall c | c in db'.calls ensures CallLinked(db', db'.calls[c]) {
      var s := db'.calls[c].session;
      if c in db.calls {
        assert CallLinked(db, db.calls[c]);
        assert s == db.calls[c].session;
      }
      EffectKeepsOwners(db, e, s);
    }
  }

  lemma EffectKeepsOneOpen(db: Db, e: Effect)
    requires OneOpenPerTable(db) && Guard(db, e)
    ensures OneOpenPerTable(Apply(db, e))
  {
    var db' := Apply(db, e);
    forall a, b | a in db'.sessions && b in db'.sessions && a != b
                  && db'.sessions[a].status == Open && db'.sessions[b].status == Open
      ensures db'.sessions[a].table != db'.sessions[b].table
    {
      var t := db'.sessions[a].table;
      assert a in db.sessions && db.sessions[a].status == Open ==> IsOpenAt(db, t, a);
      assert b in db.sessions && db.sessions[b].status == Open ==> IsOpenAt(db, db'.sessions[b].table, b);
    }
  }

  lemma EffectKeepsItemShapes(db: Db, e: Effect)
    requires ItemShapes(db) && Guard(db, e)
    ensures ItemShapes(Apply(db, e))
  {
    var db' := Apply(db, e);
    forall i | i in db'.items ensures ItemShape(db'.items[i]) {
      assert i in db.items ==> ItemShape(db.items[i]);
    }
  }

  lemma EffectKeepsSessionLinks(db: Db, e: Effect)
    requires SessionsLinked(db) && Guard(db, e)
    ensures SessionsLinked(Apply(db, e))
  {
    var db' := Apply(db, e);
    assert db'.tables == db.tables;
    forall s | s in db'.sessions
      ensures db'.sessions[s].table in db'.tables
      ensures db'.tables[db'.sessions[s].table].restaurant == db'.sessions[s].restaurant
    {
      if s in db.sessions {
        EffectKeepsOwners(db, e, s);
      }
    }
  }

  lemma EffectKeepsSessionShapes(db: Db, e: Effect)
    requires SessionShapes(db) && Guard(db, e)
    ensures SessionShapes(Apply(db, e))
  {
    forall s | s in Apply(db, e).sessions ensures SessionShape(Apply(db, e).sessions[s]) {
      assert s in db.sessions ==> SessionShape(db.sessions[s]);
    }
  }

  lemma EffectKeepsCatalog(db: Db, e: Effect)
    requires Catalogued(db) && Guard(db, e)
    ensures Catalogued(Apply(db, e))
  {
  }

  /** Every effect of the system keeps every row sound. */
  lemma EffectKeepsSound(db: Db, e: Effect)
    requires Sound(db) && Guard(db, e)
    ensures Sound(Apply(db, e))
  {
    EffectKeepsOrderLinks(db, e);
    EffectKeepsItemLinks(db, e);
    EffectKeepsCallLinks(db, e);
    EffectKeepsOneOpen(db, e);
    EffectKeepsItemShapes(db, e);
    EffectKeepsSessionLinks(db, e);
    EffectKeepsSessionShapes(db, e);
    EffectKeepsCatalog(db, e);
  }

  lemma {:induction false} EffectsKeepSound(db: Db, es: seq<Effect>)
    requires Sound(db) && Valid(db, es)
    ensures Sound(ApplyAll(db, es))
    decreases |es|
  {
    if es != [] {
      EffectKeepsSound(db, es[0]);
      EffectsKeepSound(Apply(db, es[0]), es[1..]);
    }
  }
}
