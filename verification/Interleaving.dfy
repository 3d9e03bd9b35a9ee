/** The same transactions interleaved statement by statement, at the engine's default
    isolation (Read Committed): a statement sees what is committed plus its own writes; a
    written row stays locked until its transaction ends; a statement that needs a row locked
    by another waits; the unique index waits for uncommitted competitors; any transaction may
    be aborted, which also covers the victim of a deadlock.  now() is the instant at which the
    first statement of the transaction is issued, which may have to wait before it takes
    effect.  Edits of the menu and of the settings commit at any time. */
module Interleaving {
  import opened Schema
  import opened Money
  import opened Effects
  import Requests

  /** The uncommitted row versions of a transaction, which are also its locks on the rows. */
  datatype Holding = Holding(sessions: map<Id, SessionRow>, orders: map<Id, OrderRow>,
                             items: map<Id, ItemRow>, calls: map<Id, CallRow>)

  const NOTHING := Holding(map[], map[], map[], map[])

  /** One request or sweep; `idle` until the first statement of its current transaction is issued. */
  datatype Txn = Txn(began: Time, idle: bool, pc: Pc, held: Holding)

  datatype World = World(db: Db, clock: Time, txns: map<Id, Txn>)

  datatype ItemOp = SetTo(to: ItemStatus, actor: Option<Id>) | CancelAs(who: Canceller, reason: Option<string>)

  /** What create_order is asked for, with the identifiers generated for the order and its rows. */
  datatype Basket = Basket(order: Id, lines: seq<Requests.Line>, ids: seq<Id>)

  type Menu = map<Id, MenuRow>

  /** What a request goes on to do with the session of its table. */
  datatype Goal = JustOpen | ToOrder(basket: Basket) | ToCall | ToCancel(item: Id, reason: Option<string>)

  datatype Refusal = NoSuchSession | NotAbandoned | MissingStamp | TooOld | LostRace | IndexViolation

  /** Where a transaction stands: the next statement and the local variables it needs. */
  datatype Pc =
    // get_or_open
    | OpenFind(table: Id, restaurant: Id, opener: Option<Id>, goal: Goal)
    | OpenInsert(table: Id, restaurant: Id, opener: Option<Id>, goal: Goal)
    | OpenCommit(table: Id, restaurant: Id, opener: Option<Id>, goal: Goal, sid: Id)
    | OpenRetry(table: Id, restaurant: Id, opener: Option<Id>, goal: Goal, conflict: Id)
    | OpenReturned(table: Id, sid: Id)
    | OpenFailed(table: Id, conflict: Id)
    // create_order
    | OrderRead(sid: Id, restaurant: Id, basket: Basket, dishes: Menu, k: nat)
    | OrderInsert(sid: Id, restaurant: Id, basket: Basket, dishes: Menu, at: Time)
    | OrderLines(sid: Id, restaurant: Id, basket: Basket, dishes: Menu, at: Time)
    | OrderTouch(sid: Id, restaurant: Id, basket: Basket, dishes: Menu, at: Time)
    | OrderCommit(sid: Id, restaurant: Id, basket: Basket, dishes: Menu, at: Time)
    | OrderDone(sid: Id)
    | OrderRefused(sid: Id, line: nat)
    // the customer's cancel up to cancel_item
    | ItemScope(item: Id, restaurant: Id, sid: Id, reason: Option<string>)
    // set_status and cancel_item
    | ItemCas(item: Id, restaurant: Id, op: ItemOp)
    | ItemTouch(item: Id, op: ItemOp)
    | ItemCommit(item: Id, op: ItemOp, sid: Id)
    | ItemDone(item: Id)
    | ItemConflict(item: Id)
    // a staff call
    | CallRead(sid: Id, table: Id, restaurant: Id)
    | CallCheck(sid: Id, table: Id, restaurant: Id, cooldown: int)
    | CallTouch(sid: Id, table: Id, restaurant: Id)
    | CallInsert(sid: Id, table: Id, restaurant: Id)
    | CallCommit(sid: Id, table: Id, restaurant: Id, call: Id)
    | CallDone(call: Id)
    | CallCooling(sid: Id)
    // its acknowledgement
    | AckRead(call: Id, restaurant: Id, staff: Id)
    | AckWrite(call: Id, staff: Id, at: Time)
    | AckCommit(call: Id, staff: Id, at: Time)
    | AckDone(call: Id)
    | AckMissing(call: Id)
    // restore
    | RestoreRead(sid: Id, restaurant: Id)
    | RestoreFind(sid: Id, restaurant: Id, seen: Time)
    | ReopenCas(sid: Id, restaurant: Id, seen: Time)
    | ReopenCommit(sid: Id, seen: Time)
    | Reopened(sid: Id)
    | RestoreRefused(why: Refusal)
    // checkout, and restore's direct checkout
    | CloseCas(sid: Id, restaurant: Id, from: SessionStatus, stamp: Option<Time>)
    | CloseList(sid: Id, from: SessionStatus)
    | CloseUpdate(sid: Id, from: SessionStatus, list: map<Id, ItemRow>)
    | CloseMark(sid: Id, from: SessionStatus, list: map<Id, ItemRow>, todo: set<Id>)
    | CloseSum(sid: Id, from: SessionStatus, list: map<Id, ItemRow>)
    | CloseTotal(sid: Id, from: SessionStatus, list: map<Id, ItemRow>, total: int)
    | CloseDismiss(sid: Id, from: SessionStatus, list: map<Id, ItemRow>, total: int)
    | CloseCalls(sid: Id, from: SessionStatus, list: map<Id, ItemRow>, total: int, todo: set<Id>, count: nat)
    | CloseCommit(sid: Id, from: SessionStatus, list: map<Id, ItemRow>, total: int, count: nat)
    | CloseDone(sid: Id, list: map<Id, ItemRow>, total: int, count: nat)
    | CloseLost(sid: Id)
    // the sweep
    | SweepScan
    | SweepNext(rows: set<Id>)
    | SweepUpdate(sid: Id, rows: set<Id>)
    | SweepMark(sid: Id, rows: set<Id>, list: map<Id, ItemRow>, todo: set<Id>)
    | SweepDismiss(sid: Id, rows: set<Id>)
    | SweepCalls(sid: Id, rows: set<Id>, todo: set<Id>)
    | SweepCommit(sid: Id, rows: set<Id>)
    | SweepDone
    | Aborted

  // ----- Locks -----

  function OneSession(k: Id, row: SessionRow): Holding {
    NOTHING.(sessions := map[k := row])
  }

  function OneOrder(k: Id, row: OrderRow): Holding {
    NOTHING.(orders := map[k := row])
  }

  function SomeItems(rows: map<Id, ItemRow>): Holding {
    NOTHING.(items := rows)
  }

  function OneCall(k: Id, row: CallRow): Holding {
    NOTHING.(calls := map[k := row])
  }

  function Plus(h: Holding, more: Holding): Holding {
    Holding(h.sessions + more.sessions, h.orders + more.orders, h.items + more.items, h.calls + more.calls)
  }

  /** No row is in both. */
  predicate Apart(a: Holding, b: Holding) {
    && a.sessions.Keys !! b.sessions.Keys && a.orders.Keys !! b.orders.Keys
    && a.items.Keys !! b.items.Keys && a.calls.Keys !! b.calls.Keys
  }

  /** No other transaction has written any of these rows. */
  ghost predicate Free(w: World, t: Id, rows: Holding) {
    forall u | u in w.txns && u != t :: Apart(rows, w.txns[u].held)
  }

  ghost predicate SessionFree(w: World, t: Id, k: Id) {
    forall u | u in w.txns && u != t :: k !in w.txns[u].held.sessions
  }

  // ----- The unique partial index -----

  predicate OpenRow(rows: map<Id, SessionRow>, s: Id, table: Id) {
    s in rows && rows[s].table == table && rows[s].status == Open
  }

  /** Session s is, or after some commit may be, open at the table. */
  ghost predicate Claims(w: World, s: Id, table: Id) {
    OpenRow(w.db.sessions, s, table) || exists u :: u in w.txns && OpenRow(w.txns[u].held.sessions, s, table)
  }

  /** A statement about to make a session open waits for another's uncommitted competitor. */
  ghost predicate IndexBusy(w: World, t: Id, table: Id) {
    exists s :: Claims(w, s, table) && !SessionFree(w, t, s)
  }

  // ----- Statements -----

  datatype Statement =
    | Blocked
    | Goto(next: Txn)
    | Write(rows: Holding, next: Txn)
    | Commit(next: Txn)
    | Rollback(next: Txn)

  /** The first statement issued after a commit, a rollback or the arrival begins a transaction. */
  function Awake(w: World, x: Txn): Txn {
    if x.idle then x.(began := w.clock, idle := false) else x
  }

  function CancellableBy(who: Canceller): set<ItemStatus> {
    match who
    case Customer => {Pending}
    case Staff => {Pending, Cooking, Ready}
    case System => {}
  }

  function OpResult(op: ItemOp, row: ItemRow, at: Time): Option<ItemRow> {
    match op
    case SetTo(to, actor) => Move(row, to, actor, at)
    case CancelAs(who, reason) =>
      if row.status in CancellableBy(who) then Some(CancelRow(row, who, reason, at)) else None
  }

  function CancelledRows(rows: map<Id, ItemRow>, reason: string, at: Time): map<Id, ItemRow> {
    map i | i in rows :: CancelRow(rows[i], System, Some(reason), at)
  }

  predicate Opening(pc: Pc) {
    pc.OpenFind? || pc.OpenInsert? || pc.OpenCommit? || pc.OpenRetry?
  }

  predicate Ordering(pc: Pc) {
    pc.OrderRead? || pc.OrderInsert? || pc.OrderLines? || pc.OrderTouch? || pc.OrderCommit?
  }

  predicate Calling(pc: Pc) {
    pc.CallRead? || pc.CallCheck? || pc.CallTouch? || pc.CallInsert? || pc.CallCommit?
  }

  /** Past the compare-and-swap that closes. */
  predicate Closing(pc: Pc) {
    || pc.CloseList? || pc.CloseUpdate? || pc.CloseMark? || pc.CloseSum? || pc.CloseTotal?
    || pc.CloseDismiss? || pc.CloseCalls? || pc.CloseCommit?
  }

  /** Past the compare-and-swap that abandons. */
  predicate Abandoning(pc: Pc) {
    pc.SweepUpdate? || pc.SweepMark? || pc.SweepDismiss? || pc.SweepCalls? || pc.SweepCommit?
  }

  /** What get_or_open returning sid leads to. */
  function Found(pc: Pc, sid: Id): Pc
    requires Opening(pc)
  {
    match pc.goal
    case JustOpen => OpenReturned(pc.table, sid)
    case ToOrder(basket) => OrderRead(sid, pc.restaurant, basket, map[], 0)
    case ToCall => CallRead(sid, pc.table, pc.restaurant)
    case ToCancel(item, reason) => ItemScope(item, pc.restaurant, sid, reason)
  }

  /** Write the rows once no other transaction has a version of them. */
  ghost function WriteWhenFree(w: World, t: Id, rows: Holding, next: Txn): Statement {
    if Free(w, t, rows) then Write(rows, next) else Blocked
  }

  /** The calls dismiss_pending selects. */
  function PendingOf(db: Db, sid: Id): set<Id> {
    set c | c in db.calls && IsPendingOf(db, sid, db.calls[c])
  }

  predicate IsPendingOf(db: Db, sid: Id, row: CallRow) {
    sid in db.sessions && Dismissable(row, sid, db.sessions[sid].restaurant)
  }

  /** The next statement of t; `pick` is the identifier it generates or the row it takes next. */
  ghost function Next(w: World, t: Id, pick: Id): Statement
    requires t in w.txns
  {
    var x := Awake(w, w.txns[t]);
    var pc := x.pc;
    if Opening(pc) then NextOpen(w, t, x, pick)
    else if Ordering(pc) then NextOrder(w, t, x)
    else if pc.ItemScope? || pc.ItemCas? || pc.ItemTouch? || pc.ItemCommit? then NextItem(w, t, x)
    else if Calling(pc) then NextCall(w, t, x, pick)
    else if pc.AckRead? || pc.AckWrite? || pc.AckCommit? then NextAck(w, t, x)
    else if pc.RestoreRead? || pc.RestoreFind? || pc.ReopenCas? || pc.ReopenCommit? then NextRestore(w, t, x)
    else if pc.CloseCas? || Closing(pc) then NextClose(w, t, x, pick)
    else if pc.SweepScan? || pc.SweepNext? || Abandoning(pc) then NextSweep(w, t, x, pick)
    else Blocked
  }

  ghost function NextOpen(w: World, t: Id, x: Txn, pick: Id): Statement {
    var db := w.db;
    match x.pc
    case OpenFind(table, restaurant, opener, goal) =>
      var found := FindOpen(db, table);
      if found.Some? then Goto(x.(pc := Found(x.pc, found.value)))
      else Goto(x.(pc := OpenInsert(table, restaurant, opener, goal)))
    case OpenInsert(table, restaurant, opener, goal) =>
      if pick in db.sessions || IndexBusy(w, t, table) then Blocked
      else
        var found := FindOpen(db, table);
        if found.Some? then Rollback(x.(pc := OpenRetry(table, restaurant, opener, goal, found.value)))
        else WriteWhenFree(w, t, OneSession(pick, NewSession(restaurant, table, opener, x.began)),
                           x.(pc := OpenCommit(table, restaurant, opener, goal, pick)))
    case OpenCommit(_, _, _, _, sid) => Commit(x.(pc := Found(x.pc, sid)))
    case OpenRetry(table, _, _, _, conflict) =>
      var found := FindOpen(db, table);
      Goto(x.(pc := if found.Some? then Found(x.pc, found.value) else OpenFailed(table, conflict)))
    case _ => Blocked
  }

  /** Every line has been read and can be ordered. */
  predicate AllRead(basket: Basket, restaurant: Id, dishes: Menu) {
    |basket.ids| == |basket.lines| && Requests.AllOrderable(dishes, restaurant, basket.lines)
  }

  /** One row per line, from the menu rows that were read. */
  function RowsOf(basket: Basket, restaurant: Id, dishes: Menu, at: Time): map<Id, ItemRow> {
    if AllRead(basket, restaurant, dishes)
    then Requests.LineRows(dishes, restaurant, basket.order, basket.lines, basket.ids, at) else map[]
  }

  /** The read of one line.  A menu row read before is not loaded again: a repeated menu item
      keeps the version first seen. */
  function ReadLine(menu: Menu, pc: Pc): Pc
    requires pc.OrderRead? && pc.k < |pc.basket.lines|
  {
    var m := pc.basket.lines[pc.k].menuItem;
    if m !in menu || menu[m].restaurant != pc.restaurant || !menu[m].active then OrderRefused(pc.sid, pc.k)
    else
      var dish := if m in pc.dishes then pc.dishes[m] else menu[m];
      if dish.available then OrderRead(pc.sid, pc.restaurant, pc.basket, pc.dishes[m := dish], pc.k + 1)
      else OrderRefused(pc.sid, pc.k)
  }

  ghost function NextOrder(w: World, t: Id, x: Txn): Statement {
    match x.pc
    case OrderRead(sid, restaurant, basket, dishes, k) =>
      if k < |basket.lines| then Goto(x.(pc := ReadLine(w.db.menu, x.pc)))
      else Goto(x.(pc := OrderInsert(sid, restaurant, basket, dishes, w.clock)))
    case OrderInsert(sid, restaurant, basket, dishes, at) =>
      if basket.order in w.db.orders then Blocked
      else WriteWhenFree(w, t, OneOrder(basket.order, OrderRow(restaurant, sid)),
          x.(pc := OrderLines(sid, restaurant, basket, dishes, at)))
    case OrderLines(sid, restaurant, basket, dishes, at) =>
      var rows := RowsOf(basket, restaurant, dishes, at);
      if !(rows.Keys !! w.db.items.Keys) then Blocked
      else WriteWhenFree(w, t, SomeItems(rows), x.(pc := OrderTouch(sid, restaurant, basket, dishes, at)))
    case OrderTouch(sid, restaurant, basket, dishes, at) =>
      if sid !in w.db.sessions then Blocked
      else WriteWhenFree(w, t, OneSession(sid, TouchRow(w.db.sessions[sid], at)),
          x.(pc := OrderCommit(sid, restaurant, basket, dishes, at)))
    case OrderCommit(sid, _, _, _, _) => Commit(x.(pc := OrderDone(sid)))
    case _ => Blocked
  }

  ghost function NextItem(w: World, t: Id, x: Txn): Statement {
    var db := w.db;
    match x.pc
    case ItemScope(item, restaurant, sid, reason) =>
      Goto(x.(pc :=
        if item in db.items && db.items[item].restaurant == restaurant && InSession(db.orders, db.items[item], sid)
        then ItemCas(item, restaurant, CancelAs(Customer, reason)) else ItemConflict(item)))
    case ItemCas(item, restaurant, op) =>
      if item !in db.items || db.items[item].restaurant != restaurant || OpResult(op, db.items[item], x.began).None?
      then Goto(x.(pc := ItemConflict(item)))
      else WriteWhenFree(w, t, SomeItems(map[item := OpResult(op, db.items[item], x.began).value]),
          x.(pc := ItemTouch(item, op)))
    case ItemTouch(item, op) =>
      if !HasSession(db, item) then Blocked
      else
        var sid := SessionOf(db, item);
        WriteWhenFree(w, t, OneSession(sid, TouchRow(db.sessions[sid], x.began)), x.(pc := ItemCommit(item, op, sid)))
    case ItemCommit(item, _, _) => Commit(x.(pc := ItemDone(item)))
    case _ => Blocked
  }

  ghost function NextCall(w: World, t: Id, x: Txn, pick: Id): Statement {
    match x.pc
    case CallRead(sid, table, restaurant) =>
      Goto(x.(pc := CallCheck(sid, table, restaurant, Requests.CooldownSeconds(w.db, restaurant))))
    case CallCheck(sid, table, restaurant, cooldown) =>
      Goto(x.(pc :=
        if Requests.CalledRecently(w.db, table, cooldown, x.began) then CallCooling(sid)
        else CallTouch(sid, table, restaurant)))
    case CallTouch(sid, table, restaurant) =>
      if sid !in w.db.sessions then Blocked
      else WriteWhenFree(w, t, OneSession(sid, TouchRow(w.db.sessions[sid], x.began)),
          x.(pc := CallInsert(sid, table, restaurant)))
    case CallInsert(sid, table, restaurant) =>
      if pick in w.db.calls then Blocked
      else WriteWhenFree(w, t, OneCall(pick, CallRow(restaurant, table, sid, Waiting, x.began, None, None)),
                         x.(pc := CallCommit(sid, table, restaurant, pick)))
    case CallCommit(_, _, _, call) => Commit(x.(pc := CallDone(call)))
    case _ => Blocked
  }

  /** ack writes by id alone: whatever has become of the call it read is overwritten. */
  ghost function NextAck(w: World, t: Id, x: Txn): Statement {
    var calls := w.db.calls;
    match x.pc
    case AckRead(call, restaurant, staff) =>
      Goto(x.(pc :=
        if call !in calls || calls[call].restaurant != restaurant then AckMissing(call)
        else if calls[call].status == Acknowledged then AckDone(call)
        else AckWrite(call, staff, w.clock)))
    case AckWrite(call, staff, at) =>
      if call !in calls then Blocked
      else WriteWhenFree(w, t, OneCall(call, DismissRow(calls[call], at).(ackedBy := Some(staff))),
          x.(pc := AckCommit(call, staff, at)))
    case AckCommit(call, _, _) => Commit(x.(pc := AckDone(call)))
    case _ => Blocked
  }

  ghost function NextRestore(w: World, t: Id, x: Txn): Statement {
    var db := w.db;
    match x.pc
    case RestoreRead(sid, restaurant) =>
      Goto(x.(pc :=
        if sid !in db.sessions || db.sessions[sid].restaurant != restaurant then RestoreRefused(NoSuchSession)
        else if db.sessions[sid].status != Abandoned then RestoreRefused(NotAbandoned)
        else if db.sessions[sid].abandonedAt.None? then RestoreRefused(MissingStamp)
        else if w.clock - db.sessions[sid].abandonedAt.value > RESTORE_LIMIT then RestoreRefused(TooOld)
        else RestoreFind(sid, restaurant, db.sessions[sid].abandonedAt.value)))
    case RestoreFind(sid, restaurant, seen) =>
      Goto(x.(pc :=
        if sid in db.sessions && FindOpen(db, db.sessions[sid].table).Some?
        then CloseCas(sid, restaurant, Abandoned, Some(seen)) else ReopenCas(sid, restaurant, seen)))
    case ReopenCas(sid, restaurant, seen) =>
      if sid !in db.sessions || db.sessions[sid].restaurant != restaurant || db.sessions[sid].status != Abandoned
      then Goto(x.(pc := RestoreRefused(LostRace)))
      else if !SessionFree(w, t, sid) || IndexBusy(w, t, db.sessions[sid].table) then Blocked
      else if FindOpen(db, db.sessions[sid].table).Some? then Rollback(x.(pc := RestoreRefused(IndexViolation)))
      else WriteWhenFree(w, t, OneSession(sid, ReopenRow(db.sessions[sid], x.began)), x.(pc := ReopenCommit(sid, seen)))
    case ReopenCommit(sid, _) => Commit(x.(pc := Reopened(sid)))
    case _ => Blocked
  }

  ghost function NextClose(w: World, t: Id, x: Txn, pick: Id): Statement {
    var db := w.db;
    match x.pc
    case CloseCas(sid, restaurant, from, _) =>
      if sid !in db.sessions || db.sessions[sid].restaurant != restaurant || db.sessions[sid].status != from
      then Goto(x.(pc := CloseLost(sid)))
      else WriteWhenFree(w, t, OneSession(sid, CloseRow(db.sessions[sid], x.began)), x.(pc := CloseList(sid, from)))
    case CloseList(sid, from) =>
      var list := LiveOf(db, sid);
      Goto(x.(pc := if list == map[] then CloseSum(sid, from, list) else CloseUpdate(sid, from, list)))
    case CloseUpdate(sid, from, list) => Goto(x.(pc := CloseMark(sid, from, list, LiveOf(db, sid).Keys)))
    case CloseMark(sid, from, list, todo) =>
      if todo == {} then Goto(x.(pc := CloseSum(sid, from, list)))
      else MarkOne(w, t, x, pick, todo, "table_closed", x.(pc := CloseMark(sid, from, list, todo - {pick})))
    case CloseSum(sid, from, list) =>
      Goto(x.(pc := CloseTotal(sid, from, list, Sum(ServedLines(db.items + x.held.items, db.orders, sid)))))
    case CloseTotal(sid, from, list, total) =>
      if sid !in x.held.sessions then Blocked
      else WriteWhenFree(w, t, OneSession(sid, BillRow(x.held.sessions[sid], total)),
          x.(pc := CloseDismiss(sid, from, list, total)))
    case CloseDismiss(sid, from, list, total) =>
      Goto(x.(pc := CloseCalls(sid, from, list, total, PendingOf(db, sid), 0)))
    case CloseCalls(sid, from, list, total, todo, count) =>
      if todo == {} then Goto(x.(pc := CloseCommit(sid, from, list, total, count)))
      else DismissOne(w, t, x, pick, todo, sid, x.(pc := CloseCalls(sid, from, list, total, todo - {pick}, count + 1)),
                      x.(pc := CloseCalls(sid, from, list, total, todo - {pick}, count)))
    case CloseCommit(sid, _, list, total, count) => Commit(x.(pc := CloseDone(sid, list, total, count)))
    case _ => Blocked
  }

  /** One row of a bulk cancellation: wait for its lock, then look at its status again. */
  ghost function MarkOne(w: World, t: Id, x: Txn, pick: Id, todo: set<Id>, reason: string, after: Txn): Statement {
    if pick !in todo || pick !in w.db.items || !Free(w, t, SomeItems(map[pick := w.db.items[pick]])) then Blocked
    else if Live(w.db.items[pick].status)
    then WriteWhenFree(w, t, SomeItems(map[pick := CancelRow(w.db.items[pick], System, Some(reason), x.began)]), after)
    else Goto(after)
  }

  /** One row of dismiss_pending, in the same way. */
  ghost function DismissOne(w: World, t: Id, x: Txn, pick: Id, todo: set<Id>, sid: Id, done: Txn,
      skipped: Txn): Statement {
    if pick !in todo || pick !in w.db.calls || !Free(w, t, OneCall(pick, w.db.calls[pick])) then Blocked
    else if IsPendingOf(w.db, sid, w.db.calls[pick])
    then WriteWhenFree(w, t, OneCall(pick, DismissRow(w.db.calls[pick], x.began)), done)
    else Goto(skipped)
  }

  ghost function NextSweep(w: World, t: Id, x: Txn, pick: Id): Statement {
    var db := w.db;
    match x.pc
    case SweepScan => Goto(x.(pc := SweepNext(set s | s in db.sessions && Stale(db, s, x.began))))
    case SweepNext(rows) =>
      if rows == {} then Goto(x.(pc := SweepDone))
      else if pick !in rows then Blocked
      else if pick !in db.sessions || db.sessions[pick].status != Open then Goto(x.(pc := SweepNext(rows - {pick})))
      else WriteWhenFree(w, t, OneSession(pick, AbandonRow(db.sessions[pick], x.began)),
          x.(pc := SweepUpdate(pick, rows - {pick})))
    case SweepUpdate(sid, rows) => Goto(x.(pc := SweepMark(sid, rows, LiveOf(db, sid), LiveOf(db, sid).Keys)))
    case SweepMark(sid, rows, list, todo) =>
      if todo == {} then Goto(x.(pc := SweepDismiss(sid, rows)))
      else MarkOne(w, t, x, pick, todo, "session_abandoned", x.(pc := SweepMark(sid, rows, list, todo - {pick})))
    case SweepDismiss(sid, rows) => Goto(x.(pc := SweepCalls(sid, rows, PendingOf(db, sid))))
    case SweepCalls(sid, rows, todo) =>
      if todo == {} then Goto(x.(pc := SweepCommit(sid, rows)))
      else DismissOne(w, t, x, pick, todo, sid, x.(pc := SweepCalls(sid, rows, todo - {pick})),
                      x.(pc := SweepCalls(sid, rows, todo - {pick})))
    case SweepCommit(_, rows) => Commit(x.(pc := SweepNext(rows)))
    case _ => Blocked
  }

  // ----- Steps -----

  datatype Action =
    | Tick(now: Time)
    | Spawn(t: Id, pc: Pc)
    | Issue(t: Id)
    | Run(t: Id, pick: Id)
    | Abort(t: Id, pick: Id)
    | Edit(e: Effect)

  /** What the schema of the request and the identifiers generated for it guarantee. */
  predicate Fits(goal: Goal) {
    goal.ToOrder? ==>
      var basket := goal.basket;
      && basket.lines != [] && (forall l | l in basket.lines :: l.quantity > 0)
      && |basket.ids| == |basket.lines| && Requests.Distinct(basket.ids)
  }

  /** An administrator's edit of the menu or of the settings, from one commit to the next. */
  predicate Edits(e: Effect) {
    e.EditMenu? || e.EditSettings?
  }

  predicate Startable(db: Db, pc: Pc) {
    match pc
    case OpenFind(table, restaurant, _, goal) =>
      table in db.tables && db.tables[table].restaurant == restaurant && Fits(goal)
    case ItemCas(_, _, _) => true
    case AckRead(_, _, _) => true
    case RestoreRead(_, _) => true
    case CloseCas(_, _, from, stamp) => from == Open && stamp == None
    case SweepScan => true
    case _ => false
  }

  /** Nothing is left to do. */
  predicate Finished(pc: Pc) {
    || pc.OpenReturned? || pc.OpenFailed? || pc.OrderDone? || pc.OrderRefused? || pc.ItemDone? || pc.ItemConflict?
    || pc.CallDone? || pc.CallCooling? || pc.AckDone? || pc.AckMissing?
    || pc.Reopened? || pc.RestoreRefused? || pc.CloseDone? || pc.CloseLost? || pc.SweepDone? || pc.Aborted?
  }

  ghost predicate Enabled(w: World, a: Action) {
    match a
    case Tick(now) => w.clock <= now
    case Spawn(t, pc) => t !in w.txns && Startable(w.db, pc)
    case Issue(t) => t in w.txns && w.txns[t].idle && !Finished(w.txns[t].pc)
    case Run(t, pick) => t in w.txns && Next(w, t, pick) != Blocked
    case Abort(t, _) => t in w.txns && !Finished(w.txns[t].pc)
    case Edit(e) => Edits(e) && Guard(w.db, e)
  }

  /** A session whose part of the sweep fails, be it at its compare-and-swap (`pick`) or
      later, is rolled back and the sweep goes on with the others; any other failure ends its
      transaction for good, the sweep's as a whole included. */
  function AfterAbort(pc: Pc, pick: Id): Pc {
    if Abandoning(pc) then SweepNext(pc.rows)
    else if pc.SweepNext? && pick in pc.rows then SweepNext(pc.rows - {pick})
    else Aborted
  }

  /** The transaction of t ends; whatever t does next begins another. */
  function Dropped(w: World, t: Id, next: Txn): World {
    w.(txns := w.txns[t := next.(idle := true, held := NOTHING)])
  }

  /** The database with uncommitted rows written into it. */
  function With(db: Db, h: Holding): Db {
    db.(sessions := db.sessions + h.sessions, orders := db.orders + h.orders,
        items := db.items + h.items, calls := db.calls + h.calls)
  }

  ghost function Execute(w: World, t: Id, st: Statement): World
    requires t in w.txns && st != Blocked
  {
    match st
    case Goto(next) => w.(txns := w.txns[t := next])
    case Write(rows, next) => w.(txns := w.txns[t := next.(held := Plus(next.held, rows))])
    case Commit(next) => Dropped(w.(db := With(w.db, next.held)), t, next)
    case Rollback(next) => Dropped(w, t, next)
  }

  ghost function Step(w: World, a: Action): World
    requires Enabled(w, a)
  {
    match a
    case Tick(now) => w.(clock := now)
    case Spawn(t, pc) => w.(txns := w.txns[t := Txn(w.clock, true, pc, NOTHING)])
    case Issue(t) => w.(txns := w.txns[t := Awake(w, w.txns[t])])
    case Run(t, pick) => Execute(w, t, Next(w, t, pick))
    case Abort(t, pick) => Dropped(w, t, w.txns[t].(pc := AfterAbort(w.txns[t].pc, pick)))
    case Edit(e) => w.(db := Apply(w.db, e))
  }

  ghost predicate Schedule(w: World, acts: seq<Action>)
    decreases |acts|
  {
    acts == [] || (Enabled(w, acts[0]) && Schedule(Step(w, acts[0]), acts[1..]))
  }

  ghost function Outcome(w: World, acts: seq<Action>): World
    requires Schedule(w, acts)
    decreases |acts|
  {
    if acts == [] then w else Outcome(Step(w, acts[0]), acts[1..])
  }

  // ----- What a commit amounts to -----

  /** The effect the transaction is about to commit. */
  function EffectAt(x: Txn): seq<Effect> {
    match x.pc
    case OpenCommit(table, restaurant, opener, _, sid) => [OpenSession(sid, table, restaurant, opener, x.began)]
    case OrderCommit(sid, restaurant, basket, dishes, at) =>
      [PlaceOrder(basket.order, sid, restaurant, RowsOf(basket, restaurant, dishes, at), at)]
    case ItemCommit(item, op, _) =>
      (match op
       case SetTo(to, actor) => [MoveItem(item, to, actor, x.began)]
       case CancelAs(who, reason) => [CancelItem(item, who, reason, x.began)])
    case CallCommit(sid, _, _, call) => [NewCall(call, sid, x.began)]
    case AckCommit(call, staff, at) => [AckCall(call, staff, at)]
    case ReopenCommit(sid, _) => [Reopen(sid, x.began)]
    case CloseCommit(sid, from, _, _, _) => [Close(sid, from, x.began)]
    case SweepCommit(sid, _) => [Abandon(sid, x.began)]
    case _ => []
  }

  function EffectsOf(w: World, a: Action): seq<Effect> {
    if a.Edit? then [a.e] else if a.Run? && a.t in w.txns then EffectAt(w.txns[a.t]) else []
  }

  ghost function Commits(w: World, acts: seq<Action>): seq<Effect>
    requires Schedule(w, acts)
    decreases |acts|
  {
    if acts == [] then [] else EffectsOf(w, acts[0]) + Commits(Step(w, acts[0]), acts[1..])
  }
}
