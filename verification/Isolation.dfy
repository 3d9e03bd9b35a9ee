/** Every interleaving is equivalent to its commits taken one after the other: each commit
    applies to the committed database exactly the effect the whole transaction stands for.
    The session row is what makes it so: whoever changes a session's items or adds a call to
    it writes that row before committing, and a closing writes it first. */
module Isolation {
  import opened Schema
  import opened Money
  import opened Effects
  import opened Laws
  import opened Interleaving
  import opened Statements
  import Requests

  ghost predicate AllOk(w: World) {
    forall t | t in w.txns :: Ok(w.db, w.txns[t])
  }

  /** No row is written by two transactions at once. */
  ghost predicate Disjoint(w: World) {
    forall t, u | t in w.txns && u in w.txns && t != u :: Apart(w.txns[t].held, w.txns[u].held)
  }

  ghost predicate Coherent(w: World) {
    Sound(w.db) && IndexOk(w) && AllOk(w) && Disjoint(w)
  }

  lemma SoundIn(w: World)
    requires Coherent(w)
    ensures Sound(w.db)
  {
  }

  // ----- A commit is its effect -----

  /** A session held open is the only one open at its table. */
  lemma HeldOpenExcludes(w: World, t: Id, sid: Id)
    requires IndexOk(w) && t in w.txns && sid in w.txns[t].held.sessions && w.txns[t].held.sessions[sid].status == Open
    ensures forall s | IsOpenAt(w.db, w.txns[t].held.sessions[sid].table, s) :: s == sid
  {
    var table := w.txns[t].held.sessions[sid].table;
    assert OpenRow(w.txns[t].held.sessions, sid, table) && Claims(w, sid, table);
    forall s | IsOpenAt(w.db, table, s) ensures s == sid {
      assert Claims(w, s, table);
    }
  }

  /** What a transaction holds at its commit is the write set of its effect, whose guard holds. */
  ghost predicate Matches(db: Db, x: Txn) {
    Committing(x) ==> Guard(db, EffectAt(x)[0]) && With(db, x.held) == Apply(db, EffectAt(x)[0])
  }

  lemma NoRow<R>(m: map<Id, R>)
    ensures m + map[] == m
  {
  }

  lemma OneRow<R>(m: map<Id, R>, k: Id, row: R)
    ensures m + map[k := row] == m[k := row]
  {
  }

  lemma OpenMatches(db: Db, x: Txn)
    requires x.pc.OpenCommit? && OkOpen(db, x) && forall s | IsOpenAt(db, x.pc.table, s) :: s == x.pc.sid
    ensures Matches(db, x)
  {
    OneRow(db.sessions, x.pc.sid, x.held.sessions[x.pc.sid]);
    NoRow(db.orders);
    NoRow(db.items);
    NoRow(db.calls);
  }

  lemma OrderMatches(db: Db, x: Txn)
    requires x.pc.OrderCommit? && OkOrder(db, x)
    ensures Matches(db, x)
  {
    hide RowsOf, OkOrder;
    var pc := x.pc;
    OrderAtCommit(db, x);
    OneRow(db.orders, pc.basket.order, OrderRow(pc.restaurant, pc.sid));
    OneRow(db.sessions, pc.sid, TouchRow(db.sessions[pc.sid], pc.at));
    NoRow(db.calls);
  }

  /** The rows an order commits meet the constraints of the table, and are in the session's
      restaurant. */
  lemma OrderAtCommit(db: Db, x: Txn)
    requires x.pc.OrderCommit? && OkOrder(db, x)
    ensures Guard(db, EffectAt(x)[0])
    ensures var pc, h := x.pc, x.held;
            && pc.sid in db.sessions && h.sessions == map[pc.sid := TouchRow(db.sessions[pc.sid], pc.at)]
            && h.orders == map[pc.basket.order := OrderRow(pc.restaurant, pc.sid)] && h.calls == map[]
            && h.items == RowsOf(pc.basket, pc.restaurant, pc.dishes, pc.at)
  {
    var pc := x.pc;
    Requests.LineRowsAreFresh(pc.dishes, pc.restaurant, pc.basket.order, pc.basket.lines, pc.basket.ids, pc.at);
  }

  lemma ItemMatches(db: Db, x: Txn)
    requires x.pc.ItemCommit? && OkItem(db, x)
    ensures Matches(db, x)
  {
    hide Move, CancelRow;
    OneRow(db.items, x.pc.item, x.held.items[x.pc.item]);
    OneRow(db.sessions, x.pc.sid, TouchRow(db.sessions[x.pc.sid], x.began));
    NoRow(db.orders);
    NoRow(db.calls);
  }

  lemma CallMatches(db: Db, x: Txn)
    requires x.pc.CallCommit? && OkCall(db, x)
    ensures Matches(db, x)
  {
    OneRow(db.sessions, x.pc.sid, TouchRow(db.sessions[x.pc.sid], x.began));
    OneRow(db.calls, x.pc.call, x.held.calls[x.pc.call]);
    NoRow(db.orders);
    NoRow(db.items);
  }

  lemma AckMatches(db: Db, x: Txn)
    requires x.pc.AckCommit? && OkAck(db, x)
    ensures Matches(db, x)
  {
    OneRow(db.calls, x.pc.call, x.held.calls[x.pc.call]);
    NoRow(db.sessions);
    NoRow(db.orders);
    NoRow(db.items);
  }

  lemma ReopenMatches(db: Db, x: Txn)
    requires x.pc.ReopenCommit? && OkReopen(db, x)
    requires forall s | IsOpenAt(db, db.sessions[x.pc.sid].table, s) :: s == x.pc.sid
    ensures Matches(db, x)
  {
    OneRow(db.sessions, x.pc.sid, x.held.sessions[x.pc.sid]);
    NoRow(db.orders);
    NoRow(db.items);
    NoRow(db.calls);
  }

  lemma HeldCancelled(db: Db, held: map<Id, ItemRow>, sid: Id, reason: string, at: Time)
    requires held == CancelledRows(LiveOf(db, sid), reason, at)
    ensures db.items + held == CancelLive(db, sid, reason, at)
  {
  }

  lemma HeldDismissed(db: Db, held: map<Id, CallRow>, sid: Id, at: Time)
    requires sid in db.sessions && held == DismissedRows(db, sid, at, {})
    ensures db.calls + held == DismissCalls(db.calls, sid, db.sessions[sid].restaurant, at)
  {
  }

  lemma CloseMatches(db: Db, x: Txn)
    requires x.pc.CloseCommit? && OkClose(db, x)
    ensures Matches(db, x)
  {
    hide CancelledRows, CancelLive, ServedLines, LiveOf, DismissCalls, DismissedRows;
    HeldCancelled(db, x.held.items, x.pc.sid, "table_closed", x.began);
    HeldDismissed(db, x.held.calls, x.pc.sid, x.began);
    CancelKeepsServed(db, x.pc.sid, "table_closed", x.began, x.pc.sid);
    OneRow(db.sessions, x.pc.sid, x.held.sessions[x.pc.sid]);
    NoRow(db.orders);
  }

  lemma SweepMatches(db: Db, x: Txn)
    requires x.pc.SweepCommit? && OkSweep(db, x)
    ensures Matches(db, x)
  {
    hide CancelledRows, CancelLive, LiveOf, DismissCalls, DismissedRows;
    HeldCancelled(db, x.held.items, x.pc.sid, "session_abandoned", x.began);
    HeldDismissed(db, x.held.calls, x.pc.sid, x.began);
    OneRow(db.sessions, x.pc.sid, x.held.sessions[x.pc.sid]);
    NoRow(db.orders);
  }

  lemma OpenedAlone(w: World, t: Id, x: Txn)
    requires Poised(w, t, x) && (x.pc.OpenCommit? || x.pc.ReopenCommit?)
    ensures x.pc.OpenCommit? ==> forall s | IsOpenAt(w.db, x.pc.table, s) :: s == x.pc.sid
    ensures x.pc.ReopenCommit? ==>
              Is(w.db, x.pc.sid, Abandoned) &&
                  forall s | IsOpenAt(w.db, w.db.sessions[x.pc.sid].table, s) :: s == x.pc.sid
  {
    hide Sound, OkOrder, OkItem, OkCall, OkAck, OkClose, OkSweep, IndexOk;
    assert x.pc.sid in x.held.sessions;
    HeldOpenExcludes(w, t, x.pc.sid);
  }

  /** Every commit applies to the committed database exactly the effect it stands for. */
  lemma CommitMatches(w: World, t: Id, x: Txn)
    requires Poised(w, t, x)
    ensures Matches(w.db, x)
  {
    hide Sound, IndexOk, Matches, OkOpen, OkOrder, OkItem, OkCall, OkAck, OkReopen, OkClose, OkSweep;
    var db, pc := w.db, x.pc;
    if pc.OpenCommit? { OpenedAlone(w, t, x); OpenMatches(db, x); }
    else if pc.OrderCommit? { OrderMatches(db, x); }
    else if pc.ItemCommit? { ItemMatches(db, x); }
    else if pc.CallCommit? { CallMatches(db, x); }
    else if pc.AckCommit? { AckMatches(db, x); }
    else if pc.ReopenCommit? { OpenedAlone(w, t, x); ReopenMatches(db, x); }
    else if pc.CloseCommit? { CloseMatches(db, x); }
    else if pc.SweepCommit? { SweepMatches(db, x); }
    else { NotCommitting(db, x); }
  }

  lemma NotCommitting(db: Db, x: Txn)
    requires !x.pc.OpenCommit? && !x.pc.OrderCommit? && !x.pc.ItemCommit? && !x.pc.CallCommit? && !x.pc.AckCommit?
    requires !x.pc.ReopenCommit? && !x.pc.CloseCommit? && !x.pc.SweepCommit?
    ensures Matches(db, x)
  {
  }

  // ----- A commit leaves what others hold alone -----

  /** The session row an effect writes. */
  function Writes(db: Db, e: Effect): Option<Id> {
    match e
    case OpenSession(s, _, _, _, _) => Some(s)
    case PlaceOrder(_, s, _, _, _) => Some(s)
    case MoveItem(i, _, _, _) => if HasSession(db, i) then Some(SessionOf(db, i)) else None
    case CancelItem(i, _, _, _) => if HasSession(db, i) then Some(SessionOf(db, i)) else None
    case Close(s, _, _) => Some(s)
    case Abandon(s, _) => Some(s)
    case Reopen(s, _) => Some(s)
    case NewCall(_, s, _) => Some(s)
    case _ => None
  }

  lemma RowFrame(db: Db, e: Effect, sid: Id, i: Id)
    requires Guard(db, e) && Writes(db, e) != Some(sid) && i in db.items && InSession(db.orders, db.items[i], sid)
    ensures i in Apply(db, e).items && Apply(db, e).items[i] == db.items[i]
  {
  }

  lemma CallFrame(db: Db, e: Effect, sid: Id, c: Id)
    requires Guard(db, e) && Writes(db, e) != Some(sid)
    requires c in Apply(db, e).calls && Apply(db, e).calls[c].session == sid && Apply(db, e).calls[c].status == Waiting
    ensures c in db.calls && Apply(db, e).calls[c] == db.calls[c]
  {
  }

  /** The session row is the lock of its items and of its pending calls: an effect that does
      not write the row leaves what is live and what is served of the session as it is, and
      adds no pending call to it. */
  lemma SessionFrame(db: Db, e: Effect, sid: Id)
    requires Sound(db) && Guard(db, e) && Writes(db, e) != Some(sid)
    ensures ItemsOf(Apply(db, e), sid) == ItemsOf(db, sid)
    ensures LiveOf(Apply(db, e), sid) == LiveOf(db, sid)
    ensures Bill(Apply(db, e), sid) == Bill(db, sid)
    ensures forall c | c in Apply(db, e).calls && Apply(db, e).calls[c].session == sid &&
        Apply(db, e).calls[c].status == Waiting ::
              c in db.calls && Apply(db, e).calls[c] == db.calls[c]
  {
    hide Apply, Guard;
    var db' := Apply(db, e);
    NotAnOrderFor(db, e, sid);
    MembershipStep(db, e, sid);
    forall i | i in ItemsOf(db, sid) ensures i in ItemsOf(db', sid) && ItemsOf(db', sid)[i] == db.items[i] {
      RowFrame(db, e, sid, i);
      assert i in ItemsOf(db', sid).Keys;
    }
    assert ItemsOf(db', sid).Keys == ItemsOf(db, sid).Keys;
    SameItems(db, db', sid);
    forall c | c in db'.calls && db'.calls[c].session == sid && db'.calls[c].status == Waiting
      ensures c in db.calls && db'.calls[c] == db.calls[c]
    {
      CallFrame(db, e, sid, c);
    }
  }

  lemma NotAnOrderFor(db: Db, e: Effect, sid: Id)
    requires Writes(db, e) != Some(sid)
    ensures NoOrderFor([e], sid)
  {
  }

  lemma SameItems(a: Db, b: Db, sid: Id)
    requires ItemsOf(a, sid).Keys == ItemsOf(b, sid).Keys
    requires forall i | i in ItemsOf(a, sid) :: ItemsOf(b, sid)[i] == a.items[i]
    ensures ItemsOf(a, sid) == ItemsOf(b, sid) && LiveOf(a, sid) == LiveOf(b, sid) && Bill(a, sid) == Bill(b, sid)
  {
    assert ItemsOf(a, sid) == ItemsOf(b, sid);
    LiveOfItems(a, sid);
    LiveOfItems(b, sid);
    ServedOfItems(a, sid);
    ServedOfItems(b, sid);
  }

  /** Nothing a holder of h relies on differs between the two databases. */
  ghost predicate Unmoved(db: Db, db': Db, h: Holding) {
    && db'.tables == db.tables
    && (forall s | s in db.sessions :: s in db'.sessions && SameOwner(db.sessions[s], db'.sessions[s]))
    && (forall o | o in db.orders :: o in db'.orders && db'.orders[o] == db.orders[o])
    && (forall s | s in h.sessions :: SameSession(db, db', s))
    && (forall o | o in h.orders :: o in db'.orders ==> o in db.orders)
    && (forall i | i in h.items :: SameItem(db, db', i))
    && (forall c | c in h.calls :: SameCall(db, db', c))
  }

  predicate SameOwner(a: SessionRow, b: SessionRow) {
    b.restaurant == a.restaurant && b.table == a.table
  }

  ghost predicate SameSession(db: Db, db': Db, s: Id) {
    && (s in db'.sessions <==> s in db.sessions)
    && (s in db.sessions ==> db'.sessions[s] == db.sessions[s])
    && LiveOf(db', s) == LiveOf(db, s) && Bill(db', s) == Bill(db, s)
    && forall c | c in db'.calls && db'.calls[c].session == s && db'.calls[c].status == Waiting ::
         c in db.calls && db'.calls[c] == db.calls[c]
  }

  predicate SameItem(db: Db, db': Db, i: Id) {
    (i in db'.items <==> i in db.items) && (i in db.items ==> db'.items[i] == db.items[i])
  }

  predicate SameCall(db: Db, db': Db, c: Id) {
    (c in db'.calls <==> c in db.calls) && (c in db.calls ==> db'.calls[c] == db.calls[c])
  }

  lemma OrderStable(db: Db, db': Db, x: Txn)
    requires Unmoved(db, db', x.held) && Ordering(x.pc) && OkOrder(db, x)
    ensures OkOrder(db', x)
  {
    hide LiveOf, Bill, RowsOf, ReadSoFar, Fits, OnSale, Requests.Priced;
    var pc, h := x.pc, x.held;
    if pc.OrderTouch? || pc.OrderCommit? {
      forall i | i in h.items ensures i !in db'.items {
        assert SameItem(db, db', i);
      }
    }
    if pc.OrderCommit? { assert pc.sid in h.sessions; }
    if !pc.OrderRead? && !pc.OrderInsert? { assert pc.basket.order in h.orders; }
  }

  lemma ItemStable(db: Db, db': Db, x: Txn)
    requires Unmoved(db, db', x.held) && (x.pc.ItemTouch? || x.pc.ItemCommit?) && OkItem(db, x)
    ensures OkItem(db', x)
  {
    hide LiveOf, Bill, OpResult;
    assert x.pc.item in x.held.items && SameItem(db, db', x.pc.item);
    if x.pc.ItemCommit? { assert x.pc.sid in x.held.sessions && SameSession(db, db', x.pc.sid); }
  }

  lemma CallStable(db: Db, db': Db, x: Txn)
    requires Unmoved(db, db', x.held) && Calling(x.pc) && OkCall(db, x)
    ensures OkCall(db', x)
  {
    hide LiveOf, Bill;
    if x.pc.CallInsert? || x.pc.CallCommit? { assert x.pc.sid in x.held.sessions && SameSession(db, db', x.pc.sid); }
    if x.pc.CallCommit? { assert x.pc.call in x.held.calls && SameCall(db, db', x.pc.call); }
  }

  /** The rows a dismissal holds are still exactly the pending ones it has come to. */
  lemma DismissedStable(db: Db, db': Db, h: Holding, sid: Id, at: Time, todo: set<Id>)
    requires Unmoved(db, db', h) && sid in h.sessions && sid in db.sessions &&
        h.calls == DismissedRows(db, sid, at, todo)
    ensures DismissedRows(db', sid, at, todo) == h.calls
  {
    hide LiveOf, Bill;
    assert SameSession(db, db', sid);
    forall c ensures c in DismissedRows(db', sid, at, todo) <==> c in h.calls {
      assert c in h.calls ==> SameCall(db, db', c);
    }
  }

  lemma CloseStable(db: Db, db': Db, x: Txn)
    requires Unmoved(db, db', x.held) && Closing(x.pc) && OkClose(db, x)
    ensures OkClose(db', x)
  {
    hide LiveOf, Bill, CancelledRows, DismissedRows, SameCall, SameItem;
    assert x.pc.sid in x.held.sessions && SameSession(db, db', x.pc.sid);
    if x.pc.CloseCalls? { DismissedStable(db, db', x.held, x.pc.sid, x.began, x.pc.todo); }
    if x.pc.CloseCommit? { DismissedStable(db, db', x.held, x.pc.sid, x.began, {}); }
  }

  lemma SweepStable(db: Db, db': Db, x: Txn)
    requires Unmoved(db, db', x.held) && Abandoning(x.pc) && OkSweep(db, x)
    ensures OkSweep(db', x)
  {
    hide LiveOf, Bill, CancelledRows, DismissedRows, SameCall, SameItem;
    assert x.pc.sid in x.held.sessions && SameSession(db, db', x.pc.sid);
    if x.pc.SweepCalls? { DismissedStable(db, db', x.held, x.pc.sid, x.began, x.pc.todo); }
    if x.pc.SweepCommit? { DismissedStable(db, db', x.held, x.pc.sid, x.began, {}); }
  }

  lemma OkStable(db: Db, db': Db, x: Txn)
    requires Unmoved(db, db', x.held) && Ok(db, x)
    ensures Ok(db', x)
  {
    hide OkOrder, OkItem, OkCall, OkClose, OkSweep, SameItem, LiveOf, Bill;
    var pc := x.pc;
    if Ordering(pc) { OrderStable(db, db', x); }
    else if pc.ItemTouch? || pc.ItemCommit? { ItemStable(db, db', x); }
    else if Calling(pc) { CallStable(db, db', x); }
    else if Closing(pc) { CloseStable(db, db', x); }
    else if Abandoning(pc) { SweepStable(db, db', x); }
    else if pc.OpenCommit? || pc.ReopenCommit? { assert pc.sid in x.held.sessions && SameSession(db, db', pc.sid); }
    else if pc.AckCommit? { assert pc.call in x.held.calls && SameCall(db, db', pc.call); }
  }

  /** The session row an effect writes, if any, is held by its transaction. */
  lemma WritesHeld(db: Db, x: Txn)
    requires Ok(db, x) && Committing(x)
    ensures var row := Writes(db, EffectAt(x)[0]); row.Some? ==> row.value in x.held.sessions
  {
    hide LiveOf, Bill, CancelledRows, DismissedRows, OpResult;
  }

  lemma CommitUnmoved(w: World, t: Id, other: Holding)
    requires t in w.txns && Poised(w, t, w.txns[t]) && Committing(w.txns[t]) && Apart(w.txns[t].held, other)
    ensures Unmoved(w.db, With(w.db, w.txns[t].held), other)
  {
    hide Ok, IndexOk, LiveOf, Bill, Guard, Apply, Sound;
    var x := w.txns[t];
    var e := EffectAt(x)[0];
    var db' := With(w.db, x.held);
    CommitMatches(w, t, x);
    WritesHeld(w.db, x);
    forall s | s in w.db.sessions ensures s in db'.sessions && SameOwner(w.db.sessions[s], db'.sessions[s]) {
      EffectKeepsOwners(w.db, e, s);
    }
    forall o | o in w.db.orders ensures o in db'.orders && db'.orders[o] == w.db.orders[o] {
      OrderStep(w.db, e, o);
    }
    forall s | s in other.sessions ensures SameSession(w.db, db', s) {
      SessionFrame(w.db, e, s);
    }
  }

  // ----- Every step keeps the invariant -----

  lemma InvPoised(w: World, t: Id)
    requires Coherent(w) && t in w.txns
    ensures Poised(w, t, Awake(w, w.txns[t])) && Ok(w.db, w.txns[t])
  {
    hide Sound, IndexOk, Disjoint, OkOpen, OkOrder, OkItem, OkCall, OkAck, OkReopen, OkClose, OkSweep;
    if w.txns[t].idle { AwakeOk(w.db, w.txns[t], w.clock); }
  }

  /** The statements between a transaction's first write and its end. */
  predicate HoldsRows(pc: Pc) {
    || pc.OpenCommit? || (Ordering(pc) && !pc.OrderRead? && !pc.OrderInsert?) || pc.ItemTouch? || pc.ItemCommit?
    || pc.CallInsert? || pc.CallCommit? || pc.AckCommit? || pc.ReopenCommit? || Closing(pc) || Abandoning(pc)
  }

  lemma HoldersHold(db: Db, x: Txn)
    requires Ok(db, x) && HoldsRows(x.pc)
    ensures x.held != NOTHING && !x.idle
  {
    hide LiveOf, Bill, CancelledRows, DismissedRows, OpResult;
    var pc, h := x.pc, x.held;
    if pc.AckCommit? { assert pc.call in h.calls; }
    else if Ordering(pc) { assert pc.basket.order in h.orders; }
    else if pc.ItemTouch? || pc.ItemCommit? { assert pc.item in h.items; }
    else { assert pc.sid in h.sessions; }
  }

  /** A transaction that holds nothing knows nothing of its now(). */
  lemma AwakeOk(db: Db, x: Txn, clock: Time)
    requires Ok(db, x) && x.idle
    ensures Ok(db, x.(began := clock, idle := false))
  {
    hide OkItem, OkClose, OkSweep, OkAck, OkReopen;
    assert !HoldsRows(x.pc) by {
      if HoldsRows(x.pc) { HoldersHold(db, x); }
    }
  }

  /** Every claim of w' was a claim of w. */
  ghost predicate FewerClaims(w: World, w': World) {
    forall s, table :: Claims(w', s, table) ==> Claims(w, s, table)
  }

  lemma KeptIndex(w: World, w': World)
    requires IndexOk(w) && FewerClaims(w, w')
    ensures IndexOk(w')
  {
  }

  /** A transaction that gives up its rows, or commits them, claims nothing new. */
  lemma FewerHeld(w: World, w': World, t: Id)
    requires t in w'.txns && w'.txns[t].held.sessions == map[]
    requires forall u | u in w'.txns && u != t :: u in w.txns && w'.txns[u].held == w.txns[u].held
    requires w'.db == w.db || (t in w.txns && w'.db == With(w.db, w.txns[t].held))
    ensures FewerClaims(w, w')
  {
  }

  lemma SameHeld(w: World, w': World)
    requires w'.db == w.db && forall u | u in w'.txns :: u in w.txns && w'.txns[u].held == w.txns[u].held
    ensures FewerClaims(w, w')
  {
  }

  lemma NewClaim(w: World, t: Id, rows: Holding, next: Txn, s: Id, table: Id)
    requires t in w.txns && next.held == w.txns[t].held && Claims(Execute(w, t, Write(rows, next)), s, table)
    ensures Claims(w, s, table) || OpenRow(rows.sessions, s, table)
  {
    var w' := Execute(w, t, Write(rows, next));
    if !OpenRow(w.db.sessions, s, table) {
      var u :| u in w'.txns && OpenRow(w'.txns[u].held.sessions, s, table);
      assert u == t && !OpenRow(rows.sessions, s, table) ==> OpenRow(w.txns[t].held.sessions, s, table);
    }
  }

  lemma WriteIndex(w: World, t: Id, rows: Holding, next: Txn)
    requires IndexOk(w) && t in w.txns && next.held == w.txns[t].held && ClaimAllowed(w, rows) && |rows.sessions| <= 1
    ensures IndexOk(Execute(w, t, Write(rows, next)))
  {
    var w' := Execute(w, t, Write(rows, next));
    forall a, b, table | Claims(w', a, table) && Claims(w', b, table) ensures a == b {
      NewClaim(w, t, rows, next, a, table);
      NewClaim(w, t, rows, next, b, table);
      if OpenRow(rows.sessions, a, table) && OpenRow(rows.sessions, b, table) {
        AtMostOne(rows.sessions.Keys, a, b);
      }
    }
  }

  lemma AtMostOne(s: set<Id>, a: Id, b: Id)
    requires |s| <= 1 && a in s && b in s
    ensures a == b
  {
    if a != b {
      assert {a, b} <= s && |{a, b}| == 2;
      FewerKeys({a, b}, s);
    }
  }

  /** A write of free rows keeps the holdings apart. */
  lemma WriteDisjoint(w: World, t: Id, rows: Holding, next: Txn)
    requires Disjoint(w) && t in w.txns && next.held == w.txns[t].held && Free(w, t, rows)
    ensures Disjoint(Execute(w, t, Write(rows, next)))
  {
    var w' := Execute(w, t, Write(rows, next));
    forall a, b | a in w'.txns && b in w'.txns && a != b ensures Apart(w'.txns[a].held, w'.txns[b].held) {
      assert Apart(w.txns[a].held, w.txns[b].held);
      if a == t { assert Apart(rows, w.txns[b].held); }
      if b == t { assert Apart(rows, w.txns[a].held); }
    }
  }

  /** Holdings stay apart when one of them is given up. */
  lemma DropDisjoint(w: World, w': World, t: Id)
    requires Disjoint(w) && t in w'.txns && w'.txns[t].held == NOTHING
    requires forall u | u in w'.txns && u != t :: u in w.txns && w'.txns[u].held == w.txns[u].held
    ensures Disjoint(w')
  {
    forall a, b | a in w'.txns && b in w'.txns && a != b ensures Apart(w'.txns[a].held, w'.txns[b].held) {
      if a != t && b != t { assert Apart(w.txns[a].held, w.txns[b].held); }
    }
  }

  /** A statement writes one session row at most. */
  lemma OneRowAtATime(w: World, t: Id, pick: Id)
    requires t in w.txns && Next(w, t, pick).Write?
    ensures |Next(w, t, pick).rows.sessions| <= 1
  {
    hide FindOpen, IndexBusy, SessionFree, Free, OpResult, HasSession, LiveOf, Stale, IsPendingOf, PendingOf, InSession;
  }

  /** A statement that writes rows. */
  lemma WriteKeeps(w: World, t: Id, pick: Id)
    requires Coherent(w) && Enabled(w, Run(t, pick)) && Next(w, t, pick).Write?
    ensures Coherent(Execute(w, t, Next(w, t, pick)))
  {
    hide Ok, Next, Sound, IndexOk, Claims, Disjoint, ClaimAllowed, Free;
    var st := Next(w, t, pick);
    InvPoised(w, t);
    EveryStatement(w, t, pick);
    OneRowAtATime(w, t, pick);
    WriteIndex(w, t, st.rows, st.next);
    WriteDisjoint(w, t, st.rows, st.next);
  }

  lemma RollbackKeeps(w: World, t: Id, pick: Id)
    requires Coherent(w) && Enabled(w, Run(t, pick)) && Next(w, t, pick).Rollback?
    ensures Coherent(Execute(w, t, Next(w, t, pick)))
  {
    hide Ok, Next, Sound, IndexOk, Claims, Disjoint, ClaimAllowed, Free;
    var w' := Execute(w, t, Next(w, t, pick));
    InvPoised(w, t);
    EveryStatement(w, t, pick);
    FewerHeld(w, w', t);
    KeptIndex(w, w');
    DropDisjoint(w, w', t);
  }

  lemma GotoKeeps(w: World, t: Id, pick: Id)
    requires Coherent(w) && Enabled(w, Run(t, pick)) && Next(w, t, pick).Goto?
    ensures Coherent(Execute(w, t, Next(w, t, pick)))
  {
    hide Ok, Next, Sound, IndexOk, Claims, Disjoint, ClaimAllowed, Free;
    var w' := Execute(w, t, Next(w, t, pick));
    InvPoised(w, t);
    EveryStatement(w, t, pick);
    SameHeld(w, w');
    KeptIndex(w, w');
    SameDisjoint(w, w');
  }

  /** A statement other than a commit. */
  lemma StatementKeeps(w: World, t: Id, pick: Id)
    requires Coherent(w) && Enabled(w, Run(t, pick)) && !Next(w, t, pick).Commit?
    ensures Coherent(Execute(w, t, Next(w, t, pick))) && Execute(w, t, Next(w, t, pick)).db == w.db
  {
    hide Coherent, Next;
    match Next(w, t, pick)
    case Write(_, _) => WriteKeeps(w, t, pick);
    case Rollback(_) => RollbackKeeps(w, t, pick);
    case Goto(_) => GotoKeeps(w, t, pick);
  }

  lemma SameDisjoint(w: World, w': World)
    requires Disjoint(w) && forall u | u in w'.txns :: u in w.txns && w'.txns[u].held == w.txns[u].held
    ensures Disjoint(w')
  {
    forall a, b | a in w'.txns && b in w'.txns && a != b ensures Apart(w'.txns[a].held, w'.txns[b].held) {
      assert Apart(w.txns[a].held, w.txns[b].held);
    }
  }

  lemma AfterOpening(w: World, t: Id, x: Txn)
    requires Poised(w, t, x) && x.pc.OpenCommit?
    ensures Ok(With(w.db, x.held), x.(pc := Found(x.pc, x.pc.sid), idle := true, held := NOTHING))
  {
    hide Sound, IndexOk, OkClose, OkSweep, OkItem, OkOrder, OkCall, OkAck, OkReopen;
    var db' := With(w.db, x.held);
    assert x.pc.sid in x.held.sessions;
    FoundOk(db', x.pc.sid, x);
    RestOk(db', x.(pc := Found(x.pc, x.pc.sid), held := NOTHING));
  }

  /** Between two transactions nothing is held. */
  lemma RestOk(db: Db, x: Txn)
    requires Ok(db, x) && x.held == NOTHING
    ensures Ok(db, x.(idle := true))
  {
    hide LiveOf, Bill, CancelledRows, DismissedRows, OpResult;
  }

  lemma CommitKinds(w: World, t: Id, pick: Id)
    requires t in w.txns && Next(w, t, pick).Commit?
    ensures var x := Awake(w, w.txns[t]); Next(w, t, pick).next == x.(pc := Next(w, t, pick).next.pc)
    ensures var pc := w.txns[t].pc; var next := Next(w, t, pick).next.pc;
            || (pc.OpenCommit? && next == Found(pc, pc.sid))
            || (pc.OrderCommit? && next == OrderDone(pc.sid)) || (pc.ItemCommit? && next == ItemDone(pc.item))
            || (pc.CallCommit? && next == CallDone(pc.call)) || (pc.AckCommit? && next == AckDone(pc.call))
            || (pc.ReopenCommit? && next == Reopened(pc.sid))
            || (pc.CloseCommit? && next == CloseDone(pc.sid, pc.list, pc.total, pc.count))
            || (pc.SweepCommit? && next == SweepNext(pc.rows))
  {
  }

  /** A transaction about to commit has begun. */
  lemma CommitsAwake(w: World, t: Id)
    requires t in w.txns && Ok(w.db, w.txns[t]) && Committing(w.txns[t])
    ensures Awake(w, w.txns[t]) == w.txns[t]
  {
    hide Ok;
    HoldersHold(w.db, w.txns[t]);
  }

  /** After a commit a transaction holds nothing and goes on with what it knows. */
  lemma AfterCommit(w: World, t: Id, pick: Id)
    requires t in w.txns && Poised(w, t, Awake(w, w.txns[t])) && Ok(w.db, w.txns[t]) && Next(w, t, pick).Commit?
    ensures Committing(w.txns[t]) && Awake(w, w.txns[t]) == w.txns[t] && Next(w, t, pick).next.held == w.txns[t].held
    ensures Ok(With(w.db, w.txns[t].held), Next(w, t, pick).next.(idle := true, held := NOTHING))
  {
    hide Poised, Ok, With, Next;
    CommitKinds(w, t, pick);
    CommitsAwake(w, t);
    if w.txns[t].pc.OpenCommit? {
      AfterOpening(w, t, w.txns[t]);
    } else {
      RestedOk(With(w.db, w.txns[t].held), w.txns[t], Next(w, t, pick).next.pc);
    }
  }

  /** A request that is over, or a sweep between two sessions, relies on nothing. */
  lemma RestedOk(db: Db, x: Txn, pc: Pc)
    requires pc.OrderDone? || pc.ItemDone? || pc.CallDone? || pc.AckDone? || pc.Reopened? || pc.CloseDone?
          || pc.SweepNext?
    ensures Ok(db, x.(pc := pc, idle := true, held := NOTHING))
  {
  }

  lemma CommitKeeps(w: World, t: Id, pick: Id)
    requires Coherent(w) && Enabled(w, Run(t, pick)) && Next(w, t, pick).Commit?
    ensures Coherent(Execute(w, t, Next(w, t, pick)))
    ensures Committing(w.txns[t]) && Guard(w.db, EffectAt(w.txns[t])[0])
    ensures Execute(w, t, Next(w, t, pick)).db == Apply(w.db, EffectAt(w.txns[t])[0])
  {
    hide Ok, Next, Sound, IndexOk, Claims, Guard, Apply, Disjoint, With;
    var w' := Execute(w, t, Next(w, t, pick));
    InvPoised(w, t);
    AfterCommit(w, t, pick);
    CommitMatches(w, t, w.txns[t]);
    EffectKeepsSound(w.db, EffectAt(w.txns[t])[0]);
    FewerHeld(w, w', t);
    KeptIndex(w, w');
    DropDisjoint(w, w', t);
    CommitKeepsOthers(w, t, pick);
  }

  lemma CommitKeepsOthers(w: World, t: Id, pick: Id)
    requires Coherent(w) && t in w.txns && Next(w, t, pick).Commit? && Poised(w, t, w.txns[t]) && Committing(w.txns[t])
    requires Next(w, t, pick).next.held == w.txns[t].held
    requires Ok(With(w.db, w.txns[t].held), Next(w, t, pick).next.(idle := true, held := NOTHING))
    ensures AllOk(Execute(w, t, Next(w, t, pick)))
  {
    hide Ok, Next, Sound, IndexOk, With, Unmoved;
    var w' := Execute(w, t, Next(w, t, pick));
    forall u | u in w'.txns ensures Ok(w'.db, w'.txns[u]) {
      if u != t {
        CommitUnmoved(w, t, w.txns[u].held);
        OkStable(w.db, w'.db, w.txns[u]);
      }
    }
  }

  lemma AbortKeeps(w: World, t: Id, pick: Id)
    requires Coherent(w) && Enabled(w, Abort(t, pick))
    ensures Coherent(Step(w, Abort(t, pick)))
  {
    hide Ok, Sound, IndexOk, Claims, Disjoint;
    var w' := Step(w, Abort(t, pick));
    FewerHeld(w, w', t);
    KeptIndex(w, w');
    DropDisjoint(w, w', t);
    AbortedOk(w.db, w.txns[t], pick);
  }

  lemma AbortedOk(db: Db, x: Txn, pick: Id)
    ensures Ok(db, x.(pc := AfterAbort(x.pc, pick), idle := true, held := NOTHING))
  {
  }

  lemma SpawnKeeps(w: World, t: Id, pc: Pc)
    requires Coherent(w) && t !in w.txns && Startable(w.db, pc)
    ensures Coherent(w.(txns := w.txns[t := Txn(w.clock, true, pc, NOTHING)]))
  {
    hide Ok, Sound, IndexOk, Claims, Startable, Disjoint;
    var w' := w.(txns := w.txns[t := Txn(w.clock, true, pc, NOTHING)]);
    FewerHeld(w, w', t);
    KeptIndex(w, w');
    DropDisjoint(w, w', t);
    SpawnedOk(w.db, w.clock, pc);
  }

  lemma SpawnedOk(db: Db, clock: Time, pc: Pc)
    requires Startable(db, pc)
    ensures Ok(db, Txn(clock, true, pc, NOTHING))
  {
  }

  lemma TickKeeps(w: World, now: Time)
    requires Coherent(w)
    ensures Coherent(w.(clock := now))
  {
    hide Ok, Sound, IndexOk, Claims, Disjoint;
    var w' := w.(clock := now);
    SameHeld(w, w');
    KeptIndex(w, w');
    SameDisjoint(w, w');
  }

  /** Waiting for the first statement to take effect. */
  lemma IssueKeeps(w: World, t: Id)
    requires Coherent(w) && Enabled(w, Issue(t))
    ensures Coherent(Step(w, Issue(t)))
  {
    hide Ok, Sound, IndexOk, Claims, Disjoint;
    var w' := Step(w, Issue(t));
    SameHeld(w, w');
    KeptIndex(w, w');
    SameDisjoint(w, w');
    AwakeOk(w.db, w.txns[t], w.clock);
  }

  /** No transaction relies on the menu or the settings as they are now. */
  lemma EditUnmoved(db: Db, e: Effect, h: Holding)
    requires Edits(e) && Guard(db, e)
    ensures Unmoved(db, Apply(db, e), h)
  {
    var db' := Apply(db, e);
    forall s | s in h.sessions ensures SameSession(db, db', s) {
      assert ItemsOf(db', s) == ItemsOf(db, s);
    }
  }

  lemma EditKeeps(w: World, e: Effect)
    requires Coherent(w) && Enabled(w, Edit(e))
    ensures Coherent(Step(w, Edit(e)))
  {
    hide Ok, Sound, IndexOk, Disjoint, Unmoved, Guard;
    var w' := Step(w, Edit(e));
    EffectKeepsSound(w.db, e);
    EditClaims(w, e);
    KeptIndex(w, w');
    SameDisjoint(w, w');
    forall t | t in w'.txns ensures Ok(w'.db, w'.txns[t]) {
      EditUnmoved(w.db, e, w.txns[t].held);
      OkStable(w.db, w'.db, w.txns[t]);
    }
  }

  lemma EditClaims(w: World, e: Effect)
    requires Enabled(w, Edit(e))
    ensures FewerClaims(w, Step(w, Edit(e)))
  {
  }

  /** Only a commit has an effect. */
  lemma OnlyCommits(w: World, t: Id, pick: Id)
    requires t in w.txns && Next(w, t, pick) != Blocked
    ensures Next(w, t, pick).Commit? <==> Committing(w.txns[t])
  {
    hide FindOpen, IndexBusy, SessionFree, Free, OpResult, HasSession, LiveOf, Stale, ServedLines, IsPendingOf,
        PendingOf, InSession;
  }

  /** One step of an interleaving changes the committed database by the effect it commits, if any. */
  lemma StepRefines(w: World, a: Action)
    requires Coherent(w) && Enabled(w, a)
    ensures Coherent(Step(w, a))
    ensures Valid(w.db, EffectsOf(w, a)) && Step(w, a).db == ApplyAll(w.db, EffectsOf(w, a))
  {
    hide Coherent, Next, Guard, Apply, Execute;
    match a
    case Tick(now) => TickKeeps(w, now);
    case Spawn(t, pc) => SpawnKeeps(w, t, pc);
    case Issue(t) => IssueKeeps(w, t);
    case Abort(t, pick) => AbortKeeps(w, t, pick);
    case Edit(e) =>
      EditKeeps(w, e);
      Cons(w.db, e, []);
      assert [e] + [] == [e];
    case Run(t, pick) =>
      OnlyCommits(w, t, pick);
      if Next(w, t, pick).Commit? {
        CommitKeeps(w, t, pick);
        assert EffectsOf(w, a) == [EffectAt(w.txns[t])[0]];
        Cons(w.db, EffectAt(w.txns[t])[0], []);
      } else {
        StatementKeeps(w, t, pick);
      }
  }

  /** Serial equivalence.  Whatever the interleaving of statements, waits and aborts, the
      committed database is the one its commits produce one after the other, each of them
      with its guard intact. */
  lemma {:induction false} ScheduleRefines(w: World, acts: seq<Action>)
    requires Coherent(w) && Schedule(w, acts)
    ensures Coherent(Outcome(w, acts))
    ensures Valid(w.db, Commits(w, acts)) && Outcome(w, acts).db == ApplyAll(w.db, Commits(w, acts))
    decreases |acts|
  {
    hide Coherent, Enabled, Step;
    if acts != [] {
      StepRefines(w, acts[0]);
      var next := Step(w, acts[0]);
      ScheduleRefines(next, acts[1..]);
      ValidConcat(w.db, EffectsOf(w, acts[0]), Commits(next, acts[1..]));
    }
  }

  /** A schedule can be cut anywhere. */
  lemma {:induction false} ScheduleSplit(w: World, p: seq<Action>, q: seq<Action>)
    requires Schedule(w, p + q)
    ensures Schedule(w, p) && Schedule(Outcome(w, p), q)
    ensures Outcome(w, p + q) == Outcome(Outcome(w, p), q)
    ensures Commits(w, p + q) == Commits(w, p) + Commits(Outcome(w, p), q)
    decreases |p|
  {
    hide Enabled, Step, EffectsOf;
    if p == [] {
      assert p + q == q;
    } else {
      assert (p + q)[1..] == p[1..] + q;
      ScheduleSplit(Step(w, p[0]), p[1..], q);
    }
  }

  /** Its last step. */
  lemma ScheduleLast(w: World, p: seq<Action>, a: Action)
    requires Schedule(w, p + [a])
    ensures Schedule(w, p) && Enabled(Outcome(w, p), a)
    ensures Outcome(w, p + [a]) == Step(Outcome(w, p), a)
    ensures Commits(w, p + [a]) == Commits(w, p) + EffectsOf(Outcome(w, p), a)
  {
    hide Enabled, Step, EffectsOf;
    ScheduleSplit(w, p, [a]);
    var w1 := Outcome(w, p);
    assert [a][0] == a && [a][1..] == [];
    assert Outcome(w1, [a]) == Outcome(Step(w1, a), []);
    assert Commits(w1, [a]) == EffectsOf(w1, a) + Commits(Step(w1, a), []);
  }
}
