/** Laws of every valid list of effects, hence of every run of the system and of every
    interleaving of its transactions: what is absorbing, what is conserved, how often an
    item may change. */
module Laws {
  import opened Schema
  import opened Money
  import opened Effects

  // ----- Epochs of a session -----

  predicate Is(db: Db, sid: Id, status: SessionStatus) {
    sid in db.sessions && db.sessions[sid].status == status
  }

  function One(b: bool): nat { if b then 1 else 0 }

  function Closings(es: seq<Effect>, sid: Id): nat {
    if es == [] then 0 else One(es[0].Close? && es[0].session == sid) + Closings(es[1..], sid)
  }

  function DirectClosings(es: seq<Effect>, sid: Id): nat {
    if es == [] then 0
    else One(es[0].Close? && es[0].session == sid && es[0].from == Abandoned) + DirectClosings(es[1..], sid)
  }

  function Abandonments(es: seq<Effect>, sid: Id): nat {
    if es == [] then 0 else One(es[0].Abandon? && es[0].session == sid) + Abandonments(es[1..], sid)
  }

  function Reopenings(es: seq<Effect>, sid: Id): nat {
    if es == [] then 0 else One(es[0].Reopen? && es[0].session == sid) + Reopenings(es[1..], sid)
  }

  lemma EpochStep(db: Db, e: Effect, sid: Id)
    requires Guard(db, e)
    ensures var db' := Apply(db, e);
            && Abandonments([e], sid) + One(Is(db, sid, Abandoned))
               == Reopenings([e], sid) + DirectClosings([e], sid) + One(Is(db', sid, Abandoned))
            && Closings([e], sid) + One(Is(db, sid, Closed)) == One(Is(db', sid, Closed))
  {
  }

  /** Every abandonment of a session is undone by exactly one restore or direct checkout,
      except the last one while the session is abandoned; and a session is closed at most
      once, for good.  No lock is needed for it. */
  lemma {:induction false} EpochConservation(db: Db, es: seq<Effect>, sid: Id)
    requires Valid(db, es)
    ensures var db' := ApplyAll(db, es);
            && Abandonments(es, sid) + One(Is(db, sid, Abandoned))
               == Reopenings(es, sid) + DirectClosings(es, sid) + One(Is(db', sid, Abandoned))
            && Closings(es, sid) + One(Is(db, sid, Closed)) == One(Is(db', sid, Closed))
    decreases |es|
  {
    if es != [] {
      EpochStep(db, es[0], sid);
      EpochConservation(Apply(db, es[0]), es[1..], sid);
      Heads(es, sid);
    }
  }

  lemma Heads(es: seq<Effect>, sid: Id)
    requires es != []
    ensures Abandonments(es, sid) == Abandonments([es[0]], sid) + Abandonments(es[1..], sid)
    ensures Reopenings(es, sid) == Reopenings([es[0]], sid) + Reopenings(es[1..], sid)
    ensures DirectClosings(es, sid) == DirectClosings([es[0]], sid) + DirectClosings(es[1..], sid)
    ensures Closings(es, sid) == Closings([es[0]], sid) + Closings(es[1..], sid)
  {
  }

  // ----- What never changes -----

  /** Price, name, quantity and the rest of the order-time snapshot. */
  predicate SameSnapshot(a: ItemRow, b: ItemRow) {
    && a.restaurant == b.restaurant && a.order == b.order && a.menuItem == b.menuItem
    && a.name == b.name && a.price == b.price && a.prepMinutes == b.prepMinutes
    && a.quantity == b.quantity && a.note == b.note && a.requestedAt == b.requestedAt
  }

  /** What any later version of an item keeps of an earlier one. */
  predicate ItemAfter(a: ItemRow, b: ItemRow) {
    SameSnapshot(a, b) && (a.status == Cancelled ==> b == a)
  }

  predicate SessionAfter(a: SessionRow, b: SessionRow) {
    && a.restaurant == b.restaurant && a.table == b.table
    && a.openedBy == b.openedBy && a.openedAt == b.openedAt
    && (a.status == Closed ==> b == a.(lastActivity := b.lastActivity))
  }

  predicate CallAfter(a: CallRow, b: CallRow) {
    && a.restaurant == b.restaurant && a.table == b.table && a.session == b.session
    && a.createdAt == b.createdAt && (a.status == Acknowledged ==> b.status == Acknowledged)
  }

  /** db' is a possible future of db. */
  ghost predicate Future(db: Db, db': Db) {
    && (forall s | s in db.sessions :: s in db'.sessions && SessionAfter(db.sessions[s], db'.sessions[s]))
    && (forall o | o in db.orders :: o in db'.orders && db'.orders[o] == db.orders[o])
    && (forall i | i in db.items :: i in db'.items && ItemAfter(db.items[i], db'.items[i]))
    && (forall c | c in db.calls :: c in db'.calls && CallAfter(db.calls[c], db'.calls[c]))
  }

  lemma FutureTransitive(a: Db, b: Db, c: Db)
    requires Future(a, b) && Future(b, c)
    ensures Future(a, c)
  {
    forall s | s in a.sessions ensures s in c.sessions && SessionAfter(a.sessions[s], c.sessions[s]) {
      assert s in b.sessions && SessionAfter(a.sessions[s], b.sessions[s]);
    }
    forall i | i in a.items ensures i in c.items && ItemAfter(a.items[i], c.items[i]) {
      assert i in b.items && ItemAfter(a.items[i], b.items[i]);
    }
    forall x | x in a.calls ensures x in c.calls && CallAfter(a.calls[x], c.calls[x]) {
      assert x in b.calls && CallAfter(a.calls[x], b.calls[x]);
    }
  }

  lemma ItemStep(db: Db, e: Effect, i: Id)
    requires Guard(db, e) && i in db.items
    ensures i in Apply(db, e).items && ItemAfter(db.items[i], Apply(db, e).items[i])
  {
  }

  lemma SessionStep(db: Db, e: Effect, s: Id)
    requires Guard(db, e) && s in db.sessions
    ensures s in Apply(db, e).sessions && SessionAfter(db.sessions[s], Apply(db, e).sessions[s])
  {
  }

  lemma CallStep(db: Db, e: Effect, c: Id)
    requires Guard(db, e) && c in db.calls
    ensures c in Apply(db, e).calls && CallAfter(db.calls[c], Apply(db, e).calls[c])
  {
  }

  lemma FutureStep(db: Db, e: Effect)
    requires Guard(db, e)
    ensures Future(db, Apply(db, e))
  {
    forall i | i in db.items ensures i in Apply(db, e).items && ItemAfter(db.items[i], Apply(db, e).items[i]) {
      ItemStep(db, e, i);
    }
    forall s | s in db.sessions ensures s in Apply(db, e).sessions &&
        SessionAfter(db.sessions[s], Apply(db, e).sessions[s]) {
      SessionStep(db, e, s);
    }
    forall c | c in db.calls ensures c in Apply(db, e).calls && CallAfter(db.calls[c], Apply(db, e).calls[c]) {
      CallStep(db, e, c);
    }
  }

  /** Snapshots never change, cancelled items never change at all, acknowledged calls stay
      acknowledged, a closed session only ever gets a new last_activity_at, and nothing is
      deleted. */
  lemma {:induction false} FutureAll(db: Db, es: seq<Effect>)
    requires Valid(db, es)
    ensures Future(db, ApplyAll(db, es))
    decreases |es|
  {
    if es != [] {
      FutureStep(db, es[0]);
      FutureAll(Apply(db, es[0]), es[1..]);
      FutureTransitive(db, Apply(db, es[0]), ApplyAll(db, es));
    }
  }

  // ----- Which way an item may change -----

  /** The life of an item: forwards, possibly skipping, to served; back from served by undo;
      cancelled from anywhere before served, for good. */
  predicate Leads(a: ItemStatus, b: ItemStatus) {
    match b
    case Pending => a == Served
    case Cooking => a == Pending
    case Ready => a == Pending || a == Cooking
    case Served => Live(a)
    case Cancelled => Live(a)
  }

  /** Whoever changes an item, and however many at once: the change follows the life of an
      item, an item served carries the instant of its service, and one undone had been served
      no longer than the undo window before. */
  lemma StatusGraph(db: Db, e: Effect, i: Id)
    requires Guard(db, e) && i in db.items && i in Apply(db, e).items
    ensures var a, b := db.items[i], Apply(db, e).items[i];
            b.status != a.status ==>
              && Leads(a.status, b.status)
              && (b.status == Served ==> e.MoveItem? && b.servedAt == Some(e.at))
              && (b.status == Pending ==>
                        e.MoveItem? && a.servedAt.Some? && e.at - a.servedAt.value <= UNDO_WINDOW && b.servedAt == None)
  {
    hide ServedLines, DismissCalls;
  }

  // ----- How often an item may change -----

  function Rank(s: ItemStatus): nat {
    match s
    case Pending => 0
    case Cooking => 1
    case Ready => 2
    case Served => 3
    case Cancelled => 3
  }

  function RankIn(db: Db, i: Id): nat {
    if i in db.items then Rank(db.items[i].status) else 0
  }

  /** Successful status changes of item i, whoever made them. */
  ghost function Changes(db: Db, es: seq<Effect>, i: Id): nat
    requires Valid(db, es)
    decreases |es|
  {
    if es == [] then 0
    else One(i in db.items && i in Apply(db, es[0]).items && Apply(db, es[0]).items[i].status != db.items[i].status)
         + Changes(Apply(db, es[0]), es[1..], i)
  }

  function Undos(es: seq<Effect>, i: Id): nat {
    if es == [] then 0 else One(es[0].MoveItem? && es[0].item == i && es[0].to == Pending) + Undos(es[1..], i)
  }

  lemma RankStep(db: Db, e: Effect, i: Id)
    requires Guard(db, e)
    ensures var db' := Apply(db, e);
            One(i in db.items && i in db'.items && db'.items[i].status != db.items[i].status) + RankIn(db, i)
            <= RankIn(db', i) + if e.MoveItem? && e.item == i && e.to == Pending then 4 else 0
  {
  }

  /** An undo costs three ranks, every other change gains at least one. */
  lemma {:induction false} RankAccount(db: Db, es: seq<Effect>, i: Id)
    requires Valid(db, es)
    ensures Changes(db, es, i) + RankIn(db, i) <= RankIn(ApplyAll(db, es), i) + 4 * Undos(es, i)
    decreases |es|
  {
    if es != [] {
      RankStep(db, es[0], i);
      RankAccount(Apply(db, es[0]), es[1..], i);
    }
  }

  /** With u undos an item changes at most 3 + 4u times. */
  lemma TransitionBound(db: Db, es: seq<Effect>, i: Id)
    requires Valid(db, es)
    ensures Changes(db, es, i) <= 3 + 4 * Undos(es, i)
  {
    RankAccount(db, es, i);
  }

  function Busy(i: Id, undos: nat, at: Time): seq<Effect> {
    [MoveItem(i, Cooking, None, at), MoveItem(i, Ready, None, at), MoveItem(i, Served, None, at)]
    + if undos == 0 then [] else [MoveItem(i, Pending, None, at)] + Busy(i, undos - 1, at)
  }

  /** The bound is reached from every pending item, for every number of undos. */
  lemma {:induction false} TransitionBoundIsTight(db: Db, i: Id, undos: nat, at: Time)
    requires HasSession(db, i) && db.items[i].status == Pending
    ensures var es := Busy(i, undos, at);
            Valid(db, es) && Undos(es, i) == undos && Changes(db, es, i) == 3 + 4 * undos
    decreases undos
  {
    var db3 := Climb(db, i, at);
    var up := Busy(i, 0, at);
    if undos == 0 {
    } else {
      var undo := MoveItem(i, Pending, None, at);
      var db4 := Apply(db3, undo);
      TransitionBoundIsTight(db4, i, undos - 1, at);
      Prepend(db3, undo, Busy(i, undos - 1, at), i);
      assert Busy(i, undos, at) == up + ([undo] + Busy(i, undos - 1, at));
      Append(db, up, [undo] + Busy(i, undos - 1, at), i);
    }
  }

  /** pending -> cooking -> ready -> served */
  lemma Climb(db: Db, i: Id, at: Time) returns (top: Db)
    requires HasSession(db, i) && db.items[i].status == Pending
    ensures var es := Busy(i, 0, at);
            Valid(db, es) && Undos(es, i) == 0 && Changes(db, es, i) == 3 && top == ApplyAll(db, es)
    ensures HasSession(top, i) && Guard(top, MoveItem(i, Pending, None, at))
  {
    var e1, e2, e3 := MoveItem(i, Cooking, None, at), MoveItem(i, Ready, None, at), MoveItem(i, Served, None, at);
    var db1 := Apply(db, e1);
    var db2 := Apply(db1, e2);
    top := Apply(db2, e3);
    Prepend(db2, e3, [], i);
    Prepend(db1, e2, [e3] + [], i);
    Prepend(db, e1, [e2] + ([e3] + []), i);
    assert Busy(i, 0, at) == [e1] + ([e2] + ([e3] + []));
  }

  lemma Prepend(db: Db, e: Effect, rest: seq<Effect>, i: Id)
    requires Guard(db, e) && Valid(Apply(db, e), rest)
    ensures Valid(db, [e] + rest) && ApplyAll(db, [e] + rest) == ApplyAll(Apply(db, e), rest)
    ensures Undos([e] + rest, i) == One(e.MoveItem? && e.item == i && e.to == Pending) + Undos(rest, i)
    ensures Changes(db, [e] + rest, i)
            == One(i in db.items && i in Apply(db, e).items && Apply(db, e).items[i].status != db.items[i].status)
               + Changes(Apply(db, e), rest, i)
  {
    Cons(db, e, rest);
    assert ([e] + rest)[1..] == rest;
  }

  lemma {:induction false} Append(db: Db, a: seq<Effect>, b: seq<Effect>, i: Id)
    requires Valid(db, a) && Valid(ApplyAll(db, a), b)
    ensures Valid(db, a + b)
    ensures Undos(a + b, i) == Undos(a, i) + Undos(b, i)
    ensures Changes(db, a + b, i) == Changes(db, a, i) + Changes(ApplyAll(db, a), b, i)
    decreases |a|
  {
    ValidConcat(db, a, b);
    if a == [] {
      assert a + b == b;
    } else {
      Append(Apply(db, a[0]), a[1..], b, i);
      assert (a + b)[1..] == a[1..] + b;
    }
  }

  // ----- What depends only on a session's items -----

  lemma LiveOfItems(db: Db, s: Id)
    ensures LiveOf(db, s) == map i | i in ItemsOf(db, s) && Live(ItemsOf(db, s)[i].status) :: ItemsOf(db, s)[i]
  {
  }

  lemma ServedOfItems(a: Db, s: Id)
    ensures ServedLines(a.items, a.orders, s)
            == map i | i in ItemsOf(a, s) && ItemsOf(a, s)[i].status == Served :: LineTotal(ItemsOf(a, s)[i])
  {
  }

  // ----- The bill of a closed session -----

  /** No order is placed into session sid. */
  predicate NoOrderFor(es: seq<Effect>, sid: Id) {
    forall e | e in es :: !(e.PlaceOrder? && e.session == sid)
  }

  /** None of these items is undone. */
  predicate NoUndoOf(es: seq<Effect>, items: set<Id>) {
    forall e | e in es :: !(e.MoveItem? && e.to == Pending && e.item in items)
  }

  lemma OrderStep(db: Db, e: Effect, o: Id)
    requires Guard(db, e) && o in db.orders
    ensures o in Apply(db, e).orders && Apply(db, e).orders[o] == db.orders[o]
  {
  }

  /** An item that an effect brings into session sid comes with an order for sid. */
  lemma ArrivalStep(db: Db, e: Effect, i: Id, sid: Id)
    requires Guard(db, e) && !(e.PlaceOrder? && e.session == sid)
    requires i in Apply(db, e).items && i !in db.items
    ensures !InSession(Apply(db, e).orders, Apply(db, e).items[i], sid)
  {
  }

  lemma MembershipStep(db: Db, e: Effect, sid: Id)
    requires ItemsLinked(db) && Guard(db, e) && NoOrderFor([e], sid)
    ensures ItemsOf(Apply(db, e), sid).Keys == ItemsOf(db, sid).Keys
  {
    var db' := Apply(db, e);
    assert e in [e];
    forall i ensures i in ItemsOf(db', sid) <==> i in ItemsOf(db, sid) {
      if i in db.items {
        ItemStep(db, e, i);
        OrderStep(db, e, db.items[i].order);
      } else if i in db'.items {
        ArrivalStep(db, e, i, sid);
      }
    }
  }

  lemma {:induction false} MembershipAll(db: Db, es: seq<Effect>, sid: Id)
    requires Sound(db) && Valid(db, es) && NoOrderFor(es, sid)
    ensures ItemsOf(ApplyAll(db, es), sid).Keys == ItemsOf(db, sid).Keys
    decreases |es|
  {
    if es != [] {
      assert NoOrderFor([es[0]], sid) by { assert es[0] in es; }
      MembershipStep(db, es[0], sid);
      EffectKeepsSound(db, es[0]);
      MembershipAll(Apply(db, es[0]), es[1..], sid);
    }
  }

  /** Closing serves as the billing instant: nothing is left live, and the total is what is
      served, before as well as after the automatic cancellations. */
  lemma CloseSettles(db: Db, sid: Id, from: SessionStatus, at: Time)
    requires Guard(db, Close(sid, from, at))
    ensures var db' := Apply(db, Close(sid, from, at));
            && Is(db', sid, Closed) && LiveOf(db', sid) == map[]
            && db'.sessions[sid].total == Some(Bill(db', sid)) && Bill(db', sid) == Bill(db, sid)
    ensures var db' := Apply(db, Close(sid, from, at));
            db'.sessions[sid].total
            == Some(Sum(map i | i in db'.items && db'.items[i].order in db'.orders
                                && db'.orders[db'.items[i].order].session == sid && db'.items[i].status == Served ::
                          db'.items[i].price * db'.items[i].quantity))
  {
    BillOfAmounts(Apply(db, Close(sid, from, at)), sid);
    CancelKeepsServed(db, sid, "table_closed", at, sid);
    CancelLeavesNoneLive(db, Apply(db, Close(sid, from, at)), sid, "table_closed", at);
  }

  lemma CancelLeavesNoneLive(db: Db, db': Db, sid: Id, reason: string, at: Time)
    requires db'.orders == db.orders && db'.items == CancelLive(db, sid, reason, at)
    ensures LiveOf(db', sid) == map[]
  {
  }

  lemma LineIsPriced(row: ItemRow)
    requires ItemShape(row)
    ensures LineTotal(row) >= 0
  {
  }

  lemma SettledStep(db: Db, e: Effect, sid: Id)
    requires Sound(db) && Guard(db, e) && NoOrderFor([e], sid) && NoUndoOf([e], ItemsOf(db, sid).Keys)
    requires LiveOf(db, sid) == map[]
    ensures LiveOf(Apply(db, e), sid) == map[] && ItemsOf(Apply(db, e), sid).Keys == ItemsOf(db, sid).Keys
    ensures ServedLines(Apply(db, e).items, Apply(db, e).orders, sid) == ServedLines(db.items, db.orders, sid)
  {
    var db' := Apply(db, e);
    assert e in [e];
    MembershipStep(db, e, sid);
    forall i | i in ItemsOf(db', sid) ensures i in db.items && db'.items[i] == db.items[i] {
      assert i in ItemsOf(db, sid) && i !in LiveOf(db, sid);
      SettledRow(db, e, i);
    }
    SettledFromRows(db, db', sid);
  }

  lemma SettledFromRows(db: Db, db': Db, sid: Id)
    requires LiveOf(db, sid) == map[] && ItemsOf(db', sid).Keys == ItemsOf(db, sid).Keys
    requires forall i | i in ItemsOf(db', sid) :: i in db.items && db'.items[i] == db.items[i]
    ensures LiveOf(db', sid) == map[]
    ensures ServedLines(db'.items, db'.orders, sid) == ServedLines(db.items, db.orders, sid)
  {
    forall i ensures i !in LiveOf(db', sid) {
      assert i in LiveOf(db', sid) ==> i in ItemsOf(db', sid) && i in ItemsOf(db, sid) && i in LiveOf(db, sid);
    }
    forall i
      ensures i in ServedLines(db'.items, db'.orders, sid) <==> i in ServedLines(db.items, db.orders, sid)
    {
      assert i in ItemsOf(db', sid) <==> i in ItemsOf(db, sid);
    }
  }

  lemma SettledRow(db: Db, e: Effect, i: Id)
    requires Guard(db, e) && i in db.items && !Live(db.items[i].status)
    requires !(e.MoveItem? && e.item == i && e.to == Pending)
    ensures i in Apply(db, e).items && Apply(db, e).items[i] == db.items[i]
  {
  }

  /** Undo of one of its own items is the only way a settled session comes to have an
      unserved item or a different sum again: without one it stays settled and billed exactly,
      whatever is undone elsewhere. */
  lemma {:induction false} SettledWithoutUndo(db: Db, es: seq<Effect>, sid: Id)
    requires Sound(db) && Valid(db, es) && NoOrderFor(es, sid) && NoUndoOf(es, ItemsOf(db, sid).Keys)
    requires LiveOf(db, sid) == map[]
    ensures LiveOf(ApplyAll(db, es), sid) == map[] && Bill(ApplyAll(db, es), sid) == Bill(db, sid)
    decreases |es|
  {
    if es != [] {
      assert NoOrderFor([es[0]], sid) && NoUndoOf([es[0]], ItemsOf(db, sid).Keys) by { assert es[0] in es; }
      SettledStep(db, es[0], sid);
      EffectKeepsSound(db, es[0]);
      SettledWithoutUndo(Apply(db, es[0]), es[1..], sid);
    }
  }

  /** ... and one undo always does break it: the undone item is live in the closed session
      and its line is missing from what is served.  No status of the session prevents it. */
  lemma UndoBreaksSettled(db: Db, i: Id, sid: Id, actor: Option<Id>, at: Time)
    requires Sound(db) && HasSession(db, i) && SessionOf(db, i) == sid
    requires Guard(db, MoveItem(i, Pending, actor, at))
    ensures var db' := Apply(db, MoveItem(i, Pending, actor, at));
            i in LiveOf(db', sid) && Bill(db', sid) == Bill(db, sid) - LineTotal(db.items[i])
            && (Is(db, sid, Closed) ==> db'.sessions[sid].total == db.sessions[sid].total)
  {
    var db' := Apply(db, MoveItem(i, Pending, actor, at));
    UndoneLine(db, db', i, sid, db'.items[i]);
  }

  lemma UndoneLine(db: Db, db': Db, i: Id, sid: Id, row: ItemRow)
    requires i in db.items && InSession(db.orders, db.items[i], sid) && db.items[i].status == Served
    requires db'.orders == db.orders && db'.items == db.items[i := row]
    requires row.status == Pending && row.order == db.items[i].order
    ensures i in LiveOf(db', sid) && Bill(db', sid) == Bill(db, sid) - LineTotal(db.items[i])
  {
    var before := ServedLines(db.items, db.orders, sid);
    Split(before, i);
    assert ServedLines(db'.items, db'.orders, sid) == before - {i};
  }

  // ----- What is live in a session that has been left -----

  /** The effects by which a session stops being open; they cancel what is live in it. */
  predicate Leaves(e: Effect, sid: Id) {
    (e.Close? || e.Abandon?) && e.session == sid
  }

  predicate NobodyLeaves(es: seq<Effect>, sid: Id) {
    forall e | e in es :: !Leaves(e, sid)
  }

  /** The status an effect that names item i gives it. */
  function StatusGiven(e: Effect, i: Id): Option<ItemStatus> {
    match e
    case PlaceOrder(_, _, _, added, _) => if i in added then Some(Pending) else None
    case MoveItem(item, to, _, _) => if item == i then Some(to) else None
    case CancelItem(item, _, _, _) => if item == i then Some(Cancelled) else None
    case _ => None
  }

  /** The last status given to item i by name. */
  function LastStatus(es: seq<Effect>, i: Id): Option<ItemStatus> {
    if es == [] then None
    else if LastStatus(es[1..], i).Some? then LastStatus(es[1..], i)
    else StatusGiven(es[0], i)
  }

  predicate LastLive(es: seq<Effect>, i: Id) {
    LastStatus(es, i).Some? && Live(LastStatus(es, i).value)
  }

  lemma StatusGivenStep(db: Db, e: Effect, sid: Id, i: Id)
    requires Guard(db, e) && !Leaves(e, sid)
    requires i in Apply(db, e).items && InSession(Apply(db, e).orders, Apply(db, e).items[i], sid)
    requires i in db.items ==> InSession(db.orders, db.items[i], sid)
    ensures match StatusGiven(e, i)
            case Some(s) => Apply(db, e).items[i].status == s
            case None => i in db.items && Apply(db, e).items[i].status == db.items[i].status
  {
    hide ServedLines, DismissCalls;
  }

  /** An item of a session nobody leaves has the last status given to it by name, or still
      its old one. */
  lemma {:induction false} StatusSince(db: Db, es: seq<Effect>, sid: Id, i: Id)
    requires Sound(db) && Valid(db, es) && NobodyLeaves(es, sid) && i in ItemsOf(ApplyAll(db, es), sid)
    ensures match LastStatus(es, i)
            case Some(s) => ApplyAll(db, es).items[i].status == s
            case None => i in ItemsOf(db, sid) && ApplyAll(db, es).items[i].status == db.items[i].status
    decreases |es|
  {
    if es != [] {
      var db1 := Apply(db, es[0]);
      assert NobodyLeaves(es[1..], sid) && !Leaves(es[0], sid) by { assert es[0] in es; }
      EffectKeepsSound(db, es[0]);
      StatusSince(db1, es[1..], sid, i);
      if LastStatus(es[1..], i).None? {
        if i in db.items { StaysInItsSession(db, es[0], i, sid); }
        StatusGivenStep(db, es[0], sid, i);
      }
    }
  }

  lemma StaysInItsSession(db: Db, e: Effect, i: Id, sid: Id)
    requires Sound(db) && Guard(db, e) && i in db.items
    ensures i in Apply(db, e).items
    ensures InSession(Apply(db, e).orders, Apply(db, e).items[i], sid) <==> InSession(db.orders, db.items[i], sid)
  {
    ItemStep(db, e, i);
    ItemHasSession(db, i);
    OrderStep(db, e, db.items[i].order);
  }

  /** A closed session is never left again. */
  lemma {:induction false} ClosedIsNotLeft(db: Db, es: seq<Effect>, sid: Id)
    requires Valid(db, es) && Is(db, sid, Closed)
    ensures NobodyLeaves(es, sid)
    decreases |es|
  {
    if es != [] {
      SessionStep(db, es[0], sid);
      ClosedIsNotLeft(Apply(db, es[0]), es[1..], sid);
    }
  }

  /** What is live in a session that nothing was live in and that nobody leaves, exactly:
      the items whose last placement, move or single cancellation since leaves them live.
      For a closed session this is every history. */
  lemma LiveSince(db: Db, es: seq<Effect>, sid: Id)
    requires Sound(db) && Valid(db, es) && LiveOf(db, sid) == map[]
    requires NobodyLeaves(es, sid) || Is(db, sid, Closed)
    ensures forall i :: i in LiveOf(ApplyAll(db, es), sid) <==> i in ItemsOf(ApplyAll(db, es), sid) && LastLive(es, i)
  {
    if Is(db, sid, Closed) { ClosedIsNotLeft(db, es, sid); }
    var db' := ApplyAll(db, es);
    forall i | i in ItemsOf(db', sid) ensures i in LiveOf(db', sid) <==> LastLive(es, i) {
      StatusSince(db, es, sid, i);
      if LastStatus(es, i).None? {
        assert i !in LiveOf(db, sid);
      }
    }
  }

  // ----- The total of a closed session against what is served later -----

  /** The rows placed into session sid. */
  function PlacedFor(es: seq<Effect>, sid: Id): map<Id, ItemRow> {
    if es == [] then map[]
    else (if es[0].PlaceOrder? && es[0].session == sid then es[0].added else map[]) + PlacedFor(es[1..], sid)
  }

  /** Billed lines whose last status since is not served: undone and not served again. */
  function TakenBack(billed: map<Id, int>, es: seq<Effect>): map<Id, int> {
    map i | i in billed && LastStatus(es, i).Some? && LastStatus(es, i).value != Served :: billed[i]
  }

  /** Lines placed into the session since and last served. */
  function LateLines(es: seq<Effect>, sid: Id): map<Id, int> {
    map i | i in PlacedFor(es, sid) && LastStatus(es, i) == Some(Served) :: LineTotal(PlacedFor(es, sid)[i])
  }

  lemma PlacedStep(db: Db, e: Effect, sid: Id, i: Id)
    requires Guard(db, e) && i in Apply(db, e).items && i !in db.items
    ensures InSession(Apply(db, e).orders, Apply(db, e).items[i], sid)
            <==> e.PlaceOrder? && e.session == sid && i in e.added
    ensures e.PlaceOrder? && i in e.added && Apply(db, e).items[i] == e.added[i]
  {
    hide ServedLines, DismissCalls;
  }

  lemma {:induction false} NotPlaced(db: Db, es: seq<Effect>, sid: Id, i: Id)
    requires Valid(db, es) && i in db.items
    ensures i !in PlacedFor(es, sid)
    decreases |es|
  {
    if es != [] {
      ItemStep(db, es[0], i);
      NotPlaced(Apply(db, es[0]), es[1..], sid, i);
    }
  }

  /** The items a session has gained are the ones placed into it, with their snapshots. */
  lemma {:induction false} PlacedSince(db: Db, es: seq<Effect>, sid: Id, i: Id)
    requires Sound(db) && Valid(db, es) && i !in db.items
    ensures i in ItemsOf(ApplyAll(db, es), sid) <==> i in PlacedFor(es, sid)
    ensures i in PlacedFor(es, sid) ==> SameSnapshot(PlacedFor(es, sid)[i], ApplyAll(db, es).items[i])
    decreases |es|
  {
    hide Apply, Guard;
    if es != [] {
      var db1 := Apply(db, es[0]);
      EffectKeepsSound(db, es[0]);
      if i in db1.items {
        PlacedStep(db, es[0], sid, i);
        NotPlaced(db1, es[1..], sid, i);
        ItemOfSession(db1, es[1..], sid, i);
      } else {
        AddedIsThere(db, es[0], i);
        PlacedSince(db1, es[1..], sid, i);
      }
    }
  }

  lemma AddedIsThere(db: Db, e: Effect, i: Id)
    requires Guard(db, e) && i !in Apply(db, e).items
    ensures e.PlaceOrder? ==> i !in e.added
  {
  }

  /** An item stays in its session, with its snapshot. */
  lemma ItemOfSession(db: Db, es: seq<Effect>, sid: Id, i: Id)
    requires Sound(db) && Valid(db, es) && i in db.items
    ensures i in ItemsOf(ApplyAll(db, es), sid) <==> InSession(db.orders, db.items[i], sid)
    ensures i in ApplyAll(db, es).items && ItemAfter(db.items[i], ApplyAll(db, es).items[i])
  {
    FutureAll(db, es);
    ItemHasSession(db, i);
    assert ItemAfter(db.items[i], ApplyAll(db, es).items[i]);
    assert ApplyAll(db, es).orders[db.items[i].order] == db.orders[db.items[i].order];
  }

  /** What a closed session no longer serves of what it billed, and what it serves beyond. */
  lemma ServedSince(db: Db, es: seq<Effect>, sid: Id)
    requires Sound(db) && Valid(db, es) && Is(db, sid, Closed) && LiveOf(db, sid) == map[]
    ensures var billed := ServedLines(db.items, db.orders, sid);
            var served := ServedLines(ApplyAll(db, es).items, ApplyAll(db, es).orders, sid);
            && (forall i | i in served && i in billed :: served[i] == billed[i])
            && billed - served.Keys == TakenBack(billed, es) && served - billed.Keys == LateLines(es, sid)
  {
    hide ApplyAll, LastStatus, PlacedFor;
    var db' := ApplyAll(db, es);
    var billed, served := ServedLines(db.items, db.orders, sid), ServedLines(db'.items, db'.orders, sid);
    forall i | i in billed
      ensures i in served ==> served[i] == billed[i]
      ensures i !in served <==> i in TakenBack(billed, es)
    {
      ItemOfSession(db, es, sid, i);
      BilledSince(db, es, sid, i);
    }
    forall i | i !in billed
      ensures i in served <==> i in LateLines(es, sid)
      ensures i in served ==> served[i] == LateLines(es, sid)[i]
    {
      UnbilledSince(db, es, sid, i);
    }
    forall i | i in billed ensures i !in LateLines(es, sid) {
      NotPlaced(db, es, sid, i);
    }
    assert billed - served.Keys == TakenBack(billed, es);
    assert served - billed.Keys == LateLines(es, sid);
  }

  lemma BilledSince(db: Db, es: seq<Effect>, sid: Id, i: Id)
    requires Sound(db) && Valid(db, es) && Is(db, sid, Closed)
    requires i in db.items && InSession(db.orders, db.items[i], sid) && db.items[i].status == Served
    ensures i in ItemsOf(ApplyAll(db, es), sid)
    ensures ApplyAll(db, es).items[i].status == Served
            <==> LastStatus(es, i).None? || LastStatus(es, i).value == Served
  {
    ClosedIsNotLeft(db, es, sid);
    ItemOfSession(db, es, sid, i);
    StatusSince(db, es, sid, i);
  }

  /** What is served although it was not billed was placed since. */
  lemma UnbilledSince(db: Db, es: seq<Effect>, sid: Id, i: Id)
    requires Sound(db) && Valid(db, es) && Is(db, sid, Closed) && LiveOf(db, sid) == map[]
    requires i !in ServedLines(db.items, db.orders, sid)
    ensures var served := ServedLines(ApplyAll(db, es).items, ApplyAll(db, es).orders, sid);
            (i in served <==> i in LateLines(es, sid)) && (i in served ==> served[i] == LateLines(es, sid)[i])
  {
    hide ApplyAll, LastStatus, PlacedFor;
    ClosedIsNotLeft(db, es, sid);
    if i in db.items {
      NotPlaced(db, es, sid, i);
      ItemOfSession(db, es, sid, i);
      assert i !in LiveOf(db, sid);
    } else {
      PlacedSince(db, es, sid, i);
      if i in ItemsOf(ApplyAll(db, es), sid) { StatusSince(db, es, sid, i); }
    }
  }

  /** After a closing, whatever orders reach the closed session: the stored total is still the
      sum over what was served then, and what is served differs from it by the billed lines
      taken back and the lines placed since and served; so it is exact precisely when those
      two sums agree. */
  lemma BillBalance(db: Db, es: seq<Effect>, sid: Id)
    requires Sound(db) && Valid(db, es)
    requires Is(db, sid, Closed) && LiveOf(db, sid) == map[]
    requires db.sessions[sid].total == Some(Bill(db, sid))
    ensures var db' := ApplyAll(db, es);
            var billed := ServedLines(db.items, db.orders, sid);
            && Is(db', sid, Closed) && db'.sessions[sid].total == Some(Sum(billed))
            && Bill(db', sid) == Sum(billed) - Sum(TakenBack(billed, es)) + Sum(LateLines(es, sid))
            && (db'.sessions[sid].total == Some(Bill(db', sid))
                <==> Sum(TakenBack(billed, es)) == Sum(LateLines(es, sid)))
  {
    FutureAll(db, es);
    ServedSince(db, es, sid);
    SumDifference(ServedLines(db.items, db.orders, sid),
                  ServedLines(ApplyAll(db, es).items, ApplyAll(db, es).orders, sid));
  }

  lemma {:induction false} NothingPlaced(es: seq<Effect>, sid: Id)
    requires NoOrderFor(es, sid)
    ensures PlacedFor(es, sid) == map[]
  {
    if es != [] {
      assert es[0] in es;
      NothingPlaced(es[1..], sid);
    }
  }

  /** The billed-set law.  B is what was served when the session was closed.  Whatever
      happens afterwards, short of an order placed into the closed session: the total stays
      the sum over B, whatever is served is in B, so the total never understates it; and it
      is exact precisely when every line of B taken back since is free of charge. */
  lemma BilledSetLaw(db: Db, es: seq<Effect>, sid: Id)
    requires Sound(db) && Valid(db, es) && NoOrderFor(es, sid)
    requires Is(db, sid, Closed) && LiveOf(db, sid) == map[]
    requires db.sessions[sid].total == Some(Bill(db, sid))
    ensures var db' := ApplyAll(db, es);
            var billed := ServedLines(db.items, db.orders, sid);
            var served := ServedLines(db'.items, db'.orders, sid);
            && Is(db', sid, Closed) && db'.sessions[sid].total == Some(Sum(billed))
            && served.Keys <= billed.Keys && (forall i | i in served :: served[i] == billed[i])
            && Bill(db', sid) <= Sum(billed)
            && (Bill(db', sid) == Sum(billed) <==> forall i | i in TakenBack(billed, es) :: billed[i] == 0)
            && (forall i | i in billed :: i in TakenBack(billed, es) <==> i !in served)
  {
    hide ApplyAll, LastStatus, PlacedFor;
    var db' := ApplyAll(db, es);
    var billed := ServedLines(db.items, db.orders, sid);
    var served := ServedLines(db'.items, db'.orders, sid);
    FutureAll(db, es);
    ServedSince(db, es, sid);
    NothingPlaced(es, sid);
    forall i | i in served ensures i in billed {
      assert i !in LateLines(es, sid);
      assert i !in billed ==> i in served - billed.Keys;
    }
    forall i | i in billed ensures billed[i] >= 0 && (i in TakenBack(billed, es) <==> i !in served) {
      LineIsPriced(db.items[i]);
      assert i in billed - served.Keys <==> i !in served;
    }
    SumPart(served, billed);
  }
}
