/** Tenant isolation: a request made for one restaurant leaves the rows of every other
    restaurant exactly as they are, and creates none there. */
module Tenancy {
  import opened Schema
  import opened Money
  import opened Effects
  import opened Requests

  /** Everything that belongs to restaurants other than r. */
  datatype Elsewhere = Elsewhere(sessions: map<Id, SessionRow>, orders: map<Id, OrderRow>,
                                 items: map<Id, ItemRow>, calls: map<Id, CallRow>,
                                 menu: map<Id, MenuRow>, settings: map<Id, SettingsRow>)

  function Other(db: Db, r: Id): Elsewhere {
    Elsewhere(map s | s in db.sessions && db.sessions[s].restaurant != r :: db.sessions[s],
              map o | o in db.orders && db.orders[o].restaurant != r :: db.orders[o],
              map i | i in db.items && db.items[i].restaurant != r :: db.items[i],
              map c | c in db.calls && db.calls[c].restaurant != r :: db.calls[c],
              map m | m in db.menu && db.menu[m].restaurant != r :: db.menu[m],
              map x | x in db.settings && x != r :: db.settings[x])
  }

  /** The restaurant whose rows an effect writes. */
  function Tenant(db: Db, e: Effect): Option<Id> {
    match e
    case OpenSession(_, _, r, _, _) => Some(r)
    case PlaceOrder(_, _, r, _, _) => Some(r)
    case MoveItem(i, _, _, _) => if i in db.items then Some(db.items[i].restaurant) else None
    case CancelItem(i, _, _, _) => if i in db.items then Some(db.items[i].restaurant) else None
    case Close(s, _, _) => if s in db.sessions then Some(db.sessions[s].restaurant) else None
    case Abandon(s, _) => if s in db.sessions then Some(db.sessions[s].restaurant) else None
    case Reopen(s, _) => if s in db.sessions then Some(db.sessions[s].restaurant) else None
    case NewCall(_, s, _) => if s in db.sessions then Some(db.sessions[s].restaurant) else None
    case AckCall(c, _, _) => if c in db.calls then Some(db.calls[c].restaurant) else None
    case EditMenu(_, dish) => Some(dish.restaurant)
    case EditSettings(r, _) => Some(r)
  }

  /** The bulk cancellation selects by session only; its items are of the session's tenant. */
  lemma SharesRestaurant(db: Db, i: Id, s: Id)
    requires Sound(db) && i in db.items && s in db.sessions
    ensures InSession(db.orders, db.items[i], s) ==> db.items[i].restaurant == db.sessions[s].restaurant
  {
    if InSession(db.orders, db.items[i], s) {
      assert db.orders[db.items[i].order].restaurant == db.items[i].restaurant;
    }
  }

  /** A new item is of the restaurant its order is placed for. */
  lemma ItemOwner(db: Db, e: Effect, i: Id)
    requires Guard(db, e)
    ensures i in db.items ==> i in Apply(db, e).items && Apply(db, e).items[i].restaurant == db.items[i].restaurant
    ensures i in Apply(db, e).items && i !in db.items ==>
              e.PlaceOrder? && Apply(db, e).items[i].restaurant == e.restaurant
    ensures (e.Close? || e.Abandon?) ==> e.session in db.sessions
  {
    hide ServedLines, DismissCalls;
  }

  lemma ItemElsewhere(db: Db, e: Effect, r: Id, i: Id)
    requires Sound(db) && Guard(db, e) && Tenant(db, e) == Some(r)
    ensures i in db.items ==> i in Apply(db, e).items && Apply(db, e).items[i].restaurant == db.items[i].restaurant
    ensures i in db.items && db.items[i].restaurant != r ==> Apply(db, e).items[i] == db.items[i]
    ensures i in Apply(db, e).items && i !in db.items ==> Apply(db, e).items[i].restaurant == r
  {
    hide Sound, ServedLines, DismissCalls, FreshLine;
    ItemOwner(db, e, i);
    if (e.Close? || e.Abandon?) && i in db.items {
      SharesRestaurant(db, i, e.session);
    }
  }

  lemma SessionElsewhere(db: Db, e: Effect, r: Id, s: Id)
    requires Sound(db) && Guard(db, e) && Tenant(db, e) == Some(r)
    ensures s in db.sessions ==>
              s in Apply(db, e).sessions && Apply(db, e).sessions[s].restaurant == db.sessions[s].restaurant
    ensures s in db.sessions && db.sessions[s].restaurant != r ==> Apply(db, e).sessions[s] == db.sessions[s]
    ensures s in Apply(db, e).sessions && s !in db.sessions ==> Apply(db, e).sessions[s].restaurant == r
  {
    hide Sound, CancelLive, DismissCalls, ServedLines, FreshLine, Sum;
    if s in db.sessions {
      EffectKeepsOwners(db, e, s);
    }
    if e.MoveItem? || e.CancelItem? {
      SharesRestaurant(db, e.item, SessionOf(db, e.item));
    }
  }

  lemma CallElsewhere(db: Db, e: Effect, r: Id, c: Id)
    requires Sound(db) && Guard(db, e) && Tenant(db, e) == Some(r)
    ensures c in db.calls ==> c in Apply(db, e).calls && Apply(db, e).calls[c].restaurant == db.calls[c].restaurant
    ensures c in db.calls && db.calls[c].restaurant != r ==> Apply(db, e).calls[c] == db.calls[c]
    ensures c in Apply(db, e).calls && c !in db.calls ==> Apply(db, e).calls[c].restaurant == r
  {
  }

  lemma OrderElsewhere(db: Db, e: Effect, r: Id, o: Id)
    requires Guard(db, e) && Tenant(db, e) == Some(r)
    ensures o in db.orders ==> o in Apply(db, e).orders && Apply(db, e).orders[o] == db.orders[o]
    ensures o in Apply(db, e).orders && o !in db.orders ==> Apply(db, e).orders[o].restaurant == r
  {
  }

  lemma RestElsewhere(db: Db, e: Effect, r: Id)
    requires Guard(db, e) && Tenant(db, e) == Some(r)
    ensures Other(Apply(db, e), r).menu == Other(db, r).menu
    ensures Other(Apply(db, e), r).settings == Other(db, r).settings
  {
    hide CancelLive, DismissCalls, ServedLines;
  }

  lemma ItemsStayHome(db: Db, e: Effect, r: Id)
    requires Sound(db) && Guard(db, e) && Tenant(db, e) == Some(r)
    ensures Other(Apply(db, e), r).items == Other(db, r).items
    ensures Other(Apply(db, e), r).orders == Other(db, r).orders
  {
    hide Apply, Guard, Sound;
    forall i {
      ItemElsewhere(db, e, r, i);
    }
    forall o {
      OrderElsewhere(db, e, r, o);
    }
  }

  lemma SessionsStayHome(db: Db, e: Effect, r: Id)
    requires Sound(db) && Guard(db, e) && Tenant(db, e) == Some(r)
    ensures Other(Apply(db, e), r).sessions == Other(db, r).sessions
    ensures Other(Apply(db, e), r).calls == Other(db, r).calls
  {
    hide Apply, Guard, Sound;
    forall s {
      SessionElsewhere(db, e, r, s);
    }
    forall c {
      CallElsewhere(db, e, r, c);
    }
  }

  lemma EffectStaysHome(db: Db, e: Effect, r: Id)
    requires Sound(db) && Guard(db, e) && Tenant(db, e) == Some(r)
    ensures Other(Apply(db, e), r) == Other(db, r)
  {
    hide *;
    ItemsStayHome(db, e, r);
    SessionsStayHome(db, e, r);
    RestElsewhere(db, e, r);
  }

  ghost predicate AllHome(db: Db, es: seq<Effect>, r: Id)
    requires Valid(db, es)
    decreases |es|
  {
    es == [] || (Tenant(db, es[0]) == Some(r) && AllHome(Apply(db, es[0]), es[1..], r))
  }

  lemma {:induction false} AllHomeStays(db: Db, es: seq<Effect>, r: Id)
    requires Sound(db) && Valid(db, es) && AllHome(db, es, r)
    ensures Other(ApplyAll(db, es), r) == Other(db, r)
    decreases |es|
  {
    if es != [] {
      EffectStaysHome(db, es[0], r);
      EffectKeepsSound(db, es[0]);
      AllHomeStays(Apply(db, es[0]), es[1..], r);
    }
  }

  /** The tenant a request acts for: the staff member's, or that of the table it names. */
  function Scope(db: Db, q: Request): Option<Id> {
    match q
    case OpenTable(t, _, _, _) => if t in db.tables then Some(db.tables[t].restaurant) else None
    case Submit(t, _, _, _, _) => if t in db.tables then Some(db.tables[t].restaurant) else None
    case CustomerCancel(t, _, _, _) => if t in db.tables then Some(db.tables[t].restaurant) else None
    case CallStaff(t, _, _) => if t in db.tables then Some(db.tables[t].restaurant) else None
    case SetStatus(_, _, _, r) => Some(r)
    case StaffCancel(_, _, r) => Some(r)
    case Checkout(_, r) => Some(r)
    case Restore(_, r) => Some(r)
    case Ack(_, _, r) => Some(r)
    case SaveMenu(_, dish) => Some(dish.restaurant)
    case SaveSettings(r, _) => Some(r)
    case Sweep(_, _) => None
  }

  lemma OneHome(db: Db, e: Effect, r: Id)
    requires Guard(db, e) && Tenant(db, e) == Some(r)
    ensures Valid(db, [e]) && AllHome(db, [e], r)
  {
    assert [e][1..] == [];
  }

  lemma TwoHome(db: Db, e: Effect, f: Effect, r: Id)
    requires Guard(db, e) && Tenant(db, e) == Some(r)
    requires Guard(Apply(db, e), f) && Tenant(Apply(db, e), f) == Some(r)
    ensures Valid(db, [e] + [f]) && AllHome(db, [e] + [f], r)
  {
    OneHome(Apply(db, e), f, r);
    Cons(db, e, [f]);
    assert ([e] + [f])[1..] == [f];
  }

  /** A request's second effect, when there is one, lands in the session its first one opened
      or in one of its own table. */
  lemma PlanHome(db: Db, clock: Time, now: Time, q: Request)
    requires Sound(db) && Legal(db, clock, now, q) && Valid(db, Plan(db, now, q)) && Scope(db, q).Some?
    ensures AllHome(db, Plan(db, now, q), Scope(db, q).value)
  {
    hide Apply, Guard;
    var es := Plan(db, now, q);
    var r := Scope(db, q).value;
    PlanTenants(db, clock, now, q);
    hide Plan, Legal, Sound, Scope;
    if |es| == 1 {
      assert es == [es[0]];
      OneHome(db, es[0], r);
    } else if |es| == 2 {
      assert es == [es[0]] + [es[1]] && es[1..][0] == es[1];
      TwoHome(db, es[0], es[1], r);
    }
  }

  /** At most two effects, each in the tenant the request acts for. */
  ghost predicate TenantsOf(db: Db, es: seq<Effect>, tenant: Option<Id>)
    requires Valid(db, es)
  {
    && |es| <= 2
    && (|es| > 0 ==> Tenant(db, es[0]) == tenant)
    && (|es| > 1 ==> Tenant(Apply(db, es[0]), es[1]) == tenant)
  }

  predicate FromTable(q: Request) {
    q.OpenTable? || q.Submit? || q.CustomerCancel? || q.CallStaff?
  }

  lemma TableTenants(db: Db, clock: Time, now: Time, q: Request)
    requires Sound(db) && Legal(db, clock, now, q) && Valid(db, Plan(db, now, q)) && Scope(db, q).Some? && FromTable(q)
    ensures TenantsOf(db, Plan(db, now, q), Scope(db, q))
  {
    hide CoolingDown, AllOrderable, LineRows;
  }

  lemma PlanTenants(db: Db, clock: Time, now: Time, q: Request)
    requires Sound(db) && Legal(db, clock, now, q) && Valid(db, Plan(db, now, q)) && Scope(db, q).Some?
    ensures TenantsOf(db, Plan(db, now, q), Scope(db, q))
  {
    hide Sound, Legal, Plan, Valid, TenantsOf;
    if FromTable(q) {
      TableTenants(db, clock, now, q);
    } else {
      RestTenants(db, now, q);
    }
  }

  lemma RestTenants(db: Db, now: Time, q: Request)
    requires !FromTable(q) && Valid(db, Plan(db, now, q)) && Scope(db, q).Some?
    ensures TenantsOf(db, Plan(db, now, q), Scope(db, q))
  {
    hide Move, LineRows, AllOrderable, CoolingDown, Ensure;
    assert |Plan(db, now, q)| <= 1;
  }

  /** Serving a request of restaurant r changes nothing that belongs to another restaurant. */
  lemma TenantFrame(db: Db, clock: Time, ev: Event)
    requires Sound(db) && Legal(db, clock, ev.at, ev.request) && Scope(db, ev.request).Some?
    ensures Other(Serve(db, clock, ev), Scope(db, ev.request).value) == Other(db, Scope(db, ev.request).value)
  {
    var es := Plan(db, ev.at, ev.request);
    PlanIsAtomic(db, clock, ev.at, ev.request);
    AtomicIsValid(db, es, ev.at);
    PlanHome(db, clock, ev.at, ev.request);
    AllHomeStays(db, es, Scope(db, ev.request).value);
  }
}
