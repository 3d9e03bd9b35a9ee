/** What every transaction holds and knows at each of its statements, and that every
    statement keeps it so. */
module Statements {
  import opened Schema
  import opened Money
  import opened Effects
  import opened Laws
  import opened Interleaving
  import Requests

  // ----- What a transaction holds and knows -----

  /** The session is of the restaurant the request acts for. */
  predicate SessionFits(db: Db, sid: Id, restaurant: Id) {
    sid in db.sessions && db.sessions[sid].restaurant == restaurant
  }

  ghost predicate Ok(db: Db, x: Txn) {
    var pc := x.pc;
    && (x.idle ==> x.held == NOTHING)
    && if Opening(pc) then OkOpen(db, x)
       else if Ordering(pc) then OkOrder(db, x)
       else if pc.ItemTouch? || pc.ItemCommit? then OkItem(db, x)
       else if Calling(pc) then OkCall(db, x)
       else if pc.AckCommit? then OkAck(db, x)
       else if pc.ReopenCommit? then OkReopen(db, x)
       else if Closing(pc) then OkClose(db, x)
       else if Abandoning(pc) then OkSweep(db, x)
       else x.held == NOTHING && (pc.CloseCas? ==> pc.from == if pc.stamp.Some? then Abandoned else Open)
  }

  predicate OkOpen(db: Db, x: Txn)
    requires Opening(x.pc)
  {
    var pc := x.pc;
    && pc.table in db.tables && db.tables[pc.table].restaurant == pc.restaurant && Fits(pc.goal)
    && if pc.OpenCommit? then
         pc.sid !in db.sessions && x.held == OneSession(pc.sid, NewSession(pc.restaurant, pc.table, pc.opener, x.began))
       else x.held == NOTHING
  }

  /** Rows as they are kept of the menu: on sale when they were read. */
  predicate OnSale(dishes: Menu, restaurant: Id) {
    forall m | m in dishes :: dishes[m].restaurant == restaurant && dishes[m].active && dishes[m].available
  }

  /** The lines read so far can be ordered. */
  predicate ReadSoFar(pc: Pc)
    requires Ordering(pc)
  {
    if pc.OrderRead?
    then pc.k <= |pc.basket.lines| && Requests.AllOrderable(pc.dishes, pc.restaurant, pc.basket.lines[..pc.k])
    else AllRead(pc.basket, pc.restaurant, pc.dishes)
  }

  predicate OkOrder(db: Db, x: Txn)
    requires Ordering(x.pc)
  {
    var pc, h := x.pc, x.held;
    && SessionFits(db, pc.sid, pc.restaurant) && Fits(ToOrder(pc.basket)) && ReadSoFar(pc)
    && Requests.Priced(pc.dishes) && OnSale(pc.dishes, pc.restaurant)
    && (pc.OrderRead? || pc.OrderInsert? ==> h == NOTHING)
    && (pc.OrderLines? || pc.OrderTouch? || pc.OrderCommit? ==>
              h.orders == map[pc.basket.order := OrderRow(pc.restaurant, pc.sid)] && pc.basket.order !in db.orders)
    && (pc.OrderLines? ==> h.items == map[])
    && (pc.OrderTouch? || pc.OrderCommit? ==>
              var rows := RowsOf(pc.basket, pc.restaurant, pc.dishes, pc.at);
              h.items == rows && rows.Keys !! db.items.Keys)
    && (!pc.OrderCommit? ==> h.sessions == map[])
    && (pc.OrderCommit? ==> h.sessions == map[pc.sid := TouchRow(db.sessions[pc.sid], pc.at)])
    && h.calls == map[]
  }

  predicate OkItem(db: Db, x: Txn)
    requires x.pc.ItemTouch? || x.pc.ItemCommit?
  {
    var pc, h := x.pc, x.held;
    && HasSession(db, pc.item) && OpResult(pc.op, db.items[pc.item], x.began).Some?
    && h.orders == map[] && h.calls == map[]
    && h.items == map[pc.item := OpResult(pc.op, db.items[pc.item], x.began).value]
    && (pc.ItemTouch? ==> h.sessions == map[])
    && (pc.ItemCommit? ==>
          pc.sid == SessionOf(db, pc.item) && h.sessions == map[pc.sid := TouchRow(db.sessions[pc.sid], x.began)])
  }

  predicate OkCall(db: Db, x: Txn)
    requires Calling(x.pc)
  {
    var pc, h := x.pc, x.held;
    && SessionFits(db, pc.sid, pc.restaurant) && db.sessions[pc.sid].table == pc.table
    && (pc.CallRead? || pc.CallCheck? || pc.CallTouch? ==> h == NOTHING)
    && (pc.CallInsert? ==> h == OneSession(pc.sid, TouchRow(db.sessions[pc.sid], x.began)))
    && (pc.CallCommit? ==>
          && pc.call !in db.calls
          && h == OneSession(pc.sid, TouchRow(db.sessions[pc.sid], x.began))
                  .(calls := map[pc.call := CallRow(pc.restaurant, pc.table, pc.sid, Waiting, x.began, None, None)]))
  }

  predicate OkAck(db: Db, x: Txn)
    requires x.pc.AckCommit?
  {
    var pc := x.pc;
    pc.call in db.calls && x.held == OneCall(pc.call, DismissRow(db.calls[pc.call], pc.at).(ackedBy := Some(pc.staff)))
  }

  predicate OkReopen(db: Db, x: Txn)
    requires x.pc.ReopenCommit?
  {
    Is(db, x.pc.sid, Abandoned) && x.held == OneSession(x.pc.sid, ReopenRow(db.sessions[x.pc.sid], x.began))
  }

  /** The pending calls of a session, dismissed, but for those still to do. */
  function DismissedRows(db: Db, sid: Id, at: Time, todo: set<Id>): map<Id, CallRow> {
    map c | c in db.calls && IsPendingOf(db, sid, db.calls[c]) && c !in todo :: DismissRow(db.calls[c], at)
  }

  ghost predicate OkClose(db: Db, x: Txn)
    requires Closing(x.pc)
  {
    var pc, h := x.pc, x.held;
    && Is(db, pc.sid, pc.from) && (pc.from == Open || pc.from == Abandoned) && h.orders == map[]
    && h.sessions == map[pc.sid := ClosedSoFar(db.sessions[pc.sid], x)]
    && (!pc.CloseList? ==> pc.list == LiveOf(db, pc.sid))
    && h.items == (if pc.CloseList? || pc.CloseUpdate? then map[]
                   else CancelledRows(if pc.CloseMark? then pc.list - pc.todo else pc.list, "table_closed", x.began))
    && (pc.CloseMark? ==> pc.todo <= pc.list.Keys)
    && (pc.CloseTotal? || Billed(pc) ==> pc.total == Bill(db, pc.sid))
    && (!pc.CloseCalls? && !pc.CloseCommit? ==> h.calls == map[])
    && (pc.CloseCalls? ==> h.calls == DismissedRows(db, pc.sid, x.began, pc.todo) && pc.count == |h.calls|)
    && (pc.CloseCommit? ==> h.calls == DismissedRows(db, pc.sid, x.began, {}) && pc.count == |h.calls|)
  }

  predicate Billed(pc: Pc) {
    pc.CloseDismiss? || pc.CloseCalls? || pc.CloseCommit?
  }

  function ClosedSoFar(row: SessionRow, x: Txn): SessionRow {
    if Billed(x.pc) then BillRow(CloseRow(row, x.began), x.pc.total) else CloseRow(row, x.began)
  }

  predicate OkSweep(db: Db, x: Txn)
    requires Abandoning(x.pc)
  {
    var pc, h := x.pc, x.held;
    && Is(db, pc.sid, Open) && h.orders == map[]
    && h.sessions == map[pc.sid := AbandonRow(db.sessions[pc.sid], x.began)]
    && (pc.SweepUpdate? ==> h.items == map[])
    && (pc.SweepMark? ==> pc.list == LiveOf(db, pc.sid) && pc.todo <= pc.list.Keys
                          && h.items == CancelledRows(pc.list - pc.todo, "session_abandoned", x.began))
    && (pc.SweepDismiss? || pc.SweepCalls? || pc.SweepCommit? ==>
          h.items == CancelledRows(LiveOf(db, pc.sid), "session_abandoned", x.began))
    && (!pc.SweepCalls? && !pc.SweepCommit? ==> h.calls == map[])
    && (pc.SweepCalls? ==> h.calls == DismissedRows(db, pc.sid, x.began, pc.todo))
    && (pc.SweepCommit? ==> h.calls == DismissedRows(db, pc.sid, x.began, {}))
  }

  /** At most one session may be, or become, open at a table. */
  ghost predicate IndexOk(w: World) {
    forall a, b, table | Claims(w, a, table) && Claims(w, b, table) :: a == b
  }

  /** What a statement of t may rely on. */
  ghost predicate Poised(w: World, t: Id, x: Txn) {
    t in w.txns && x.held == w.txns[t].held && Sound(w.db) && IndexOk(w) && Ok(w.db, x) && !x.idle
  }

  // ----- What a statement has to keep -----

  /** A session row written open claims a table no other session claims. */
  ghost predicate ClaimAllowed(w: World, rows: Holding) {
    forall k, s | k in rows.sessions && rows.sessions[k].status == Open && Claims(w, s, rows.sessions[k].table) ::
      s == k
  }

  /** The obligations of a statement other than a commit. */
  ghost predicate StatementOk(w: World, t: Id, x: Txn, st: Statement) {
    match st
    case Blocked => true
    case Commit(_) => true
    case Rollback(next) => Ok(w.db, next.(idle := true, held := NOTHING))
    case Goto(next) => next.held == x.held && Ok(w.db, next)
    case Write(rows, next) =>
      next.held == x.held && Free(w, t, rows) && ClaimAllowed(w, rows) && Ok(w.db, next.(held := Plus(x.held, rows)))
  }

  lemma WriteOk(w: World, t: Id, x: Txn, rows: Holding, next: Txn)
    requires next.held == x.held && ClaimAllowed(w, rows) && Ok(w.db, next.(held := Plus(x.held, rows)))
    ensures StatementOk(w, t, x, WriteWhenFree(w, t, rows, next))
  {
    hide Ok, Free, ClaimAllowed;
  }

  lemma GotoOk(w: World, t: Id, x: Txn, next: Txn)
    requires next.held == x.held && Ok(w.db, next)
    ensures StatementOk(w, t, x, Goto(next))
  {
    hide Ok;
  }

  lemma BlockedOk(w: World, t: Id, x: Txn)
    ensures StatementOk(w, t, x, Blocked)
  {
  }

  /** While a closing goes on, OkClose is all there is to know, and likewise for a sweep. */
  lemma OkIsClose(db: Db, x: Txn)
    requires Closing(x.pc) && !x.idle
    ensures Ok(db, x) <==> OkClose(db, x)
  {
    hide OkClose;
  }

  lemma OkIsSweep(db: Db, x: Txn)
    requires Abandoning(x.pc) && !x.idle
    ensures Ok(db, x) <==> OkSweep(db, x)
  {
    hide OkSweep;
  }

  /** An open session already claims its table, so touching it claims nothing new. */
  lemma TouchAllowed(w: World, sid: Id, row: SessionRow)
    requires IndexOk(w) && sid in w.db.sessions && row.status == w.db.sessions[sid].status &&
        row.table == w.db.sessions[sid].table
    ensures ClaimAllowed(w, OneSession(sid, row))
  {
    assert row.status == Open ==> Claims(w, sid, row.table);
  }

  lemma NoClaim(w: World, rows: Holding)
    requires rows.sessions == map[]
    ensures ClaimAllowed(w, rows)
  {
  }

  lemma NoOpenClaim(w: World, sid: Id, row: SessionRow)
    requires row.status != Open
    ensures ClaimAllowed(w, OneSession(sid, row))
  {
  }

  /** With no competitor, committed or not, no one claims the table. */
  lemma Uncontested(w: World, t: Id, sid: Id, row: SessionRow)
    requires t in w.txns && w.txns[t].held.sessions == map[]
    requires !IndexBusy(w, t, row.table) && FindOpen(w.db, row.table).None?
    ensures ClaimAllowed(w, OneSession(sid, row))
  {
    forall s ensures !Claims(w, s, row.table) {
      assert !IsOpenAt(w.db, row.table, s);
    }
  }

  lemma PlusNothing(h: Holding)
    ensures Plus(NOTHING, h) == h
  {
  }

  // ----- get_or_open -----

  lemma OpenStatement(w: World, t: Id, x: Txn, pick: Id)
    requires Poised(w, t, x) && (x.pc.OpenFind? || x.pc.OpenRetry?)
    ensures StatementOk(w, t, x, NextOpen(w, t, x, pick))
  {
    hide OkItem, OkClose, OkSweep, OkAck, OkReopen, OrdersLinked, ItemsLinked, CallsLinked, SessionShapes,
        ItemShapes, Catalogued;
    var found := FindOpen(w.db, x.pc.table);
    if found.Some? {
      assert w.db.sessions[found.value].restaurant == x.pc.restaurant;
      FoundOk(w.db, found.value, x);
    }
  }

  /** Whatever get_or_open was called for can go on with the session it returns. */
  lemma FoundOk(db: Db, sid: Id, x: Txn)
    requires Opening(x.pc) && Fits(x.pc.goal)
    requires SessionFits(db, sid, x.pc.restaurant) && db.sessions[sid].table == x.pc.table
    ensures Ok(db, x.(pc := Found(x.pc, sid), held := NOTHING))
  {
    hide OkItem, OkClose, OkSweep, OkAck, OkReopen;
  }

  lemma InsertStatement(w: World, t: Id, x: Txn, pick: Id)
    requires Poised(w, t, x) && x.pc.OpenInsert?
    ensures StatementOk(w, t, x, NextOpen(w, t, x, pick))
  {
    hide OkOrder, OkItem, OkClose, OkSweep, OkCall, OkAck, OkReopen, Sound, IndexOk, IndexBusy, FindOpen, Free,
        ClaimAllowed, Claims;
    var pc := x.pc;
    var row := NewSession(pc.restaurant, pc.table, pc.opener, x.began);
    if FindOpen(w.db, pc.table).None? && !IndexBusy(w, t, pc.table) {
      Uncontested(w, t, pick, row);
      PlusNothing(OneSession(pick, row));
    }
  }

  // ----- create_order -----

  lemma OrderReadStatement(w: World, t: Id, x: Txn)
    requires Poised(w, t, x) && x.pc.OrderRead?
    ensures StatementOk(w, t, x, NextOrder(w, t, x))
  {
    hide OkItem, OkClose, OkSweep, OkCall, OkAck, OkReopen, OkOpen, IndexOk;
    hide Linked, OneOpenPerTable, SessionShapes, ItemShapes, Requests.Distinct, ReadLine;
    var pc := x.pc;
    if pc.k < |pc.basket.lines| {
      ReadOne(w.db.menu, pc);
    } else {
      assert pc.basket.lines[..pc.k] == pc.basket.lines;
    }
  }

  /** Reading one line more. */
  lemma ReadOne(menu: Menu, pc: Pc)
    requires pc.OrderRead? && pc.k < |pc.basket.lines| && ReadSoFar(pc)
    requires Requests.Priced(menu) && Requests.Priced(pc.dishes) && OnSale(pc.dishes, pc.restaurant)
    ensures var next := ReadLine(menu, pc);
            next.OrderRefused? || (next.OrderRead? && next == pc.(dishes := next.dishes, k := pc.k + 1)
                                   && ReadSoFar(next)
                                   && Requests.Priced(next.dishes) && OnSale(next.dishes, pc.restaurant))
  {
    var next := ReadLine(menu, pc);
    if next.OrderRead? {
      var lines := pc.basket.lines;
      assert lines[..pc.k + 1] == lines[..pc.k] + [lines[pc.k]];
      forall l | l in lines[..pc.k + 1] ensures Requests.Orderable(next.dishes, pc.restaurant, l) {
        if l in lines[..pc.k] {
          assert Requests.Orderable(pc.dishes, pc.restaurant, l);
        }
      }
    }
  }

  lemma OrderStatement(w: World, t: Id, x: Txn)
    requires Poised(w, t, x) && (x.pc.OrderInsert? || x.pc.OrderLines?)
    ensures StatementOk(w, t, x, NextOrder(w, t, x))
  {
    hide OkItem, OkClose, OkSweep, OkCall, OkAck, OkReopen, OkOpen, Sound, Free, ClaimAllowed, RowsOf, AllRead, Fits;
    var basket := x.pc.basket;
    var rows := RowsOf(basket, x.pc.restaurant, x.pc.dishes, x.pc.at);
    NoClaim(w, OneOrder(basket.order, OrderRow(x.pc.restaurant, x.pc.sid)));
    NoClaim(w, SomeItems(rows));
    PlusNothing(OneOrder(basket.order, OrderRow(x.pc.restaurant, x.pc.sid)));
  }

  lemma OrderTouchStatement(w: World, t: Id, x: Txn)
    requires Poised(w, t, x) && x.pc.OrderTouch?
    ensures StatementOk(w, t, x, NextOrder(w, t, x))
  {
    hide OkItem, OkClose, OkSweep, OkCall, OkAck, OkReopen, OkOpen, Sound, Free, ClaimAllowed;
    TouchAllowed(w, x.pc.sid, TouchRow(w.db.sessions[x.pc.sid], x.pc.at));
  }

  // ----- set_status and cancel_item -----

  lemma ItemScopeStatement(w: World, t: Id, x: Txn)
    requires Poised(w, t, x) && x.pc.ItemScope?
    ensures StatementOk(w, t, x, NextItem(w, t, x))
  {
    hide OkOrder, OkItem, OkClose, OkSweep, OkCall, OkAck, OkReopen, OkOpen, Sound, IndexOk, InSession;
  }

  lemma ItemCasStatement(w: World, t: Id, x: Txn)
    requires Poised(w, t, x) && x.pc.ItemCas?
    ensures StatementOk(w, t, x, NextItem(w, t, x))
  {
    hide OkOrder, OkClose, OkSweep, OkCall, OkAck, OkReopen, OkOpen, OpResult, Sound, IndexOk, Free, ClaimAllowed;
    var pc := x.pc;
    if pc.item in w.db.items && OpResult(pc.op, w.db.items[pc.item], x.began).Some? {
      var rows := SomeItems(map[pc.item := OpResult(pc.op, w.db.items[pc.item], x.began).value]);
      ItemHasSession(w.db, pc.item);
      NoClaim(w, rows);
      PlusNothing(rows);
    }
  }

  lemma ItemTouchStatement(w: World, t: Id, x: Txn)
    requires Poised(w, t, x) && x.pc.ItemTouch?
    ensures StatementOk(w, t, x, NextItem(w, t, x))
  {
    hide OkOrder, OkClose, OkSweep, OkCall, OkAck, OkReopen, OkOpen, OpResult, Sound, Free, ClaimAllowed;
    var sid := SessionOf(w.db, x.pc.item);
    TouchAllowed(w, sid, TouchRow(w.db.sessions[sid], x.began));
  }

  // ----- Staff calls -----

  lemma CallStatement(w: World, t: Id, x: Txn, pick: Id)
    requires Poised(w, t, x) && (x.pc.CallRead? || x.pc.CallCheck? || x.pc.CallTouch?)
    ensures StatementOk(w, t, x, NextCall(w, t, x, pick))
  {
    hide OkItem, OkOrder, OkClose, OkSweep, OkAck, OkReopen, OkOpen, Sound, Free, ClaimAllowed, Requests.CalledRecently;
    var touched := TouchRow(w.db.sessions[x.pc.sid], x.began);
    TouchAllowed(w, x.pc.sid, touched);
    PlusNothing(OneSession(x.pc.sid, touched));
  }

  lemma CallInsertStatement(w: World, t: Id, x: Txn, pick: Id)
    requires Poised(w, t, x) && x.pc.CallInsert?
    ensures StatementOk(w, t, x, NextCall(w, t, x, pick))
  {
    hide OkItem, OkOrder, OkClose, OkSweep, OkAck, OkReopen, OkOpen, Sound, IndexOk, Free, ClaimAllowed, Plus, OneCall;
    var pc := x.pc;
    var row := CallRow(pc.restaurant, pc.table, pc.sid, Waiting, x.began, None, None);
    OneCallOnly(w, pick, row);
    PlusOneCall(x.held, pick, row);
  }

  lemma OneCallOnly(w: World, c: Id, row: CallRow)
    ensures ClaimAllowed(w, OneCall(c, row)) && map[] + map[c := row] == map[c := row]
  {
    NoClaim(w, OneCall(c, row));
  }

  lemma AckStatement(w: World, t: Id, x: Txn)
    requires Poised(w, t, x) && (x.pc.AckRead? || x.pc.AckWrite?)
    ensures StatementOk(w, t, x, NextAck(w, t, x))
  {
    hide OkItem, OkOrder, OkClose, OkSweep, OkCall, OkReopen, OkOpen, Sound, IndexOk, Free, ClaimAllowed;
    if x.pc.AckWrite? && x.pc.call in w.db.calls {
      var rows := OneCall(x.pc.call, DismissRow(w.db.calls[x.pc.call], x.pc.at).(ackedBy := Some(x.pc.staff)));
      NoClaim(w, rows);
      PlusNothing(rows);
    }
  }

  // ----- restore -----

  lemma RestoreStatement(w: World, t: Id, x: Txn)
    requires Poised(w, t, x) && (x.pc.RestoreRead? || x.pc.RestoreFind?)
    ensures StatementOk(w, t, x, NextRestore(w, t, x))
  {
    hide OkOrder, OkItem, OkClose, OkSweep, OkCall, OkAck, OkReopen, OkOpen, Sound, IndexOk, IndexBusy, FindOpen;
  }

  lemma ReopenStatement(w: World, t: Id, x: Txn)
    requires Poised(w, t, x) && x.pc.ReopenCas?
    ensures StatementOk(w, t, x, NextRestore(w, t, x))
  {
    hide OkOrder, OkItem, OkClose, OkSweep, OkCall, OkAck, OkOpen, Sound, IndexOk, IndexBusy, FindOpen, Free,
        ClaimAllowed, Claims;
    hide SessionFree;
    var sid := x.pc.sid;
    if Is(w.db, sid, Abandoned) {
      var row := ReopenRow(w.db.sessions[sid], x.began);
      PlusNothing(OneSession(sid, row));
      if FindOpen(w.db, row.table).None? && !IndexBusy(w, t, row.table) {
        Uncontested(w, t, sid, row);
      }
    }
  }

  // ----- Closing -----

  /** Seen with every live item of sid cancelled, the served lines are the committed ones. */
  lemma SeenServed(db: Db, held: map<Id, ItemRow>, sid: Id, reason: string, at: Time)
    requires held == CancelledRows(LiveOf(db, sid), reason, at)
    ensures ServedLines(db.items + held, db.orders, sid) == ServedLines(db.items, db.orders, sid)
  {
  }

  lemma CloseCasStatement(w: World, t: Id, x: Txn, pick: Id)
    requires Poised(w, t, x) && x.pc.CloseCas?
    ensures StatementOk(w, t, x, NextClose(w, t, x, pick))
  {
    hide OkOrder, OkItem, OkSweep, OkCall, OkAck, OkReopen, OkOpen, Sound, IndexOk, LiveOf, Bill, DismissedRows,
        Free, ClaimAllowed;
    var sid := x.pc.sid;
    if sid in w.db.sessions {
      var row := CloseRow(w.db.sessions[sid], x.began);
      NoOpenClaim(w, sid, row);
      PlusNothing(OneSession(sid, row));
    }
  }

  lemma CloseLists(w: World, t: Id, x: Txn, pick: Id)
    requires Poised(w, t, x) && (x.pc.CloseList? || x.pc.CloseUpdate?)
    ensures StatementOk(w, t, x, NextClose(w, t, x, pick))
  {
    hide Sound, IndexOk, LiveOf, ServedLines, Bill, DismissedRows, StatementOk, Ok;
    var st := NextClose(w, t, x, pick);
    OkIsClose(w.db, x);
    OkIsClose(w.db, st.next);
    if x.pc.CloseList? {
      assert CancelledRows(map[], "table_closed", x.began) == map[];
    } else {
      assert CancelledRows(x.pc.list - x.pc.list.Keys, "table_closed", x.began) == map[];
    }
    GotoOk(w, t, x, st.next);
  }

  /** Taking one more row of a bulk cancellation. */
  lemma OneMore(db: Db, sid: Id, todo: set<Id>, pick: Id, reason: string, at: Time)
    requires todo <= LiveOf(db, sid).Keys && pick in todo
    ensures Live(db.items[pick].status)
    ensures CancelledRows(LiveOf(db, sid) - todo, reason, at)
            + map[pick := CancelRow(db.items[pick], System, Some(reason), at)]
            == CancelledRows(LiveOf(db, sid) - (todo - {pick}), reason, at)
  {
  }

  lemma CloseMarks(w: World, t: Id, x: Txn, pick: Id)
    requires Poised(w, t, x) && x.pc.CloseMark?
    ensures StatementOk(w, t, x, NextClose(w, t, x, pick))
  {
    hide Sound, IndexOk, LiveOf, ServedLines, Bill, CancelledRows, DismissedRows, StatementOk, Ok, CancelRow, Free,
        ClaimAllowed, WriteWhenFree;
    var pc := x.pc;
    OkIsClose(w.db, x);
    if pc.todo == {} {
      var next := x.(pc := CloseSum(pc.sid, pc.from, pc.list));
      assert pc.list - {} == pc.list;
      OkIsClose(w.db, next);
      GotoOk(w, t, x, next);
    } else if NextClose(w, t, x, pick) == Blocked {
      BlockedOk(w, t, x);
    } else {
      var next := x.(pc := CloseMark(pc.sid, pc.from, pc.list, pc.todo - {pick}));
      var rows := SomeItems(map[pick := CancelRow(w.db.items[pick], System, Some("table_closed"), x.began)]);
      OneMore(w.db, pc.sid, pc.todo, pick, "table_closed", x.began);
      NoClaim(w, rows);
      OkIsClose(w.db, next.(held := Plus(x.held, rows)));
      WriteOk(w, t, x, rows, next);
    }
  }

  lemma CloseSums(w: World, t: Id, x: Txn, pick: Id)
    requires Poised(w, t, x) && x.pc.CloseSum?
    ensures StatementOk(w, t, x, NextClose(w, t, x, pick))
  {
    hide Sound, IndexOk, LiveOf, ServedLines, CancelledRows, DismissedRows, StatementOk, Ok;
    var st := NextClose(w, t, x, pick);
    OkIsClose(w.db, x);
    SeenServed(w.db, x.held.items, x.pc.sid, "table_closed", x.began);
    OkIsClose(w.db, st.next);
    GotoOk(w, t, x, st.next);
  }

  lemma CloseTotals(w: World, t: Id, x: Txn, pick: Id)
    requires Poised(w, t, x) && x.pc.CloseTotal?
    ensures StatementOk(w, t, x, NextClose(w, t, x, pick))
  {
    hide Sound, IndexOk, StatementOk, Ok, OkClose, Free, ClaimAllowed, WriteWhenFree;
    var pc := x.pc;
    OkIsClose(w.db, x);
    TotalWritten(w.db, x);
    var row := BillRow(x.held.sessions[pc.sid], pc.total);
    var next := x.(pc := CloseDismiss(pc.sid, pc.from, pc.list, pc.total));
    NoOpenClaim(w, pc.sid, row);
    OkIsClose(w.db, next.(held := Plus(x.held, OneSession(pc.sid, row))));
    WriteOk(w, t, x, OneSession(pc.sid, row), next);
  }

  lemma TotalWritten(db: Db, x: Txn)
    requires Closing(x.pc) && OkClose(db, x) && x.pc.CloseTotal?
    ensures x.pc.sid in x.held.sessions && x.held.sessions[x.pc.sid].status == Closed
    ensures var row := BillRow(x.held.sessions[x.pc.sid], x.pc.total);
            OkClose(db, x.(pc := CloseDismiss(x.pc.sid, x.pc.from, x.pc.list, x.pc.total),
                           held := Plus(x.held, OneSession(x.pc.sid, row))))
  {
    hide LiveOf, Bill, CancelledRows, DismissedRows;
    assert x.pc.sid in x.held.sessions;
    var row := BillRow(x.held.sessions[x.pc.sid], x.pc.total);
    assert x.held.sessions + map[x.pc.sid := row] == map[x.pc.sid := row];
  }

  /** dismiss_pending: none of the rows it selects is done yet, then one more is. */
  lemma DismissBegins(db: Db, sid: Id, at: Time)
    ensures DismissedRows(db, sid, at, PendingOf(db, sid)) == map[]
  {
  }

  lemma DismissMore(db: Db, sid: Id, at: Time, todo: set<Id>, pick: Id)
    requires pick in todo && pick in db.calls
    ensures var before, after := DismissedRows(db, sid, at, todo), DismissedRows(db, sid, at, todo - {pick});
            if IsPendingOf(db, sid, db.calls[pick])
            then after == before + map[pick := DismissRow(db.calls[pick], at)] && |after| == |before| + 1
            else after == before
  {
    var before, after := DismissedRows(db, sid, at, todo), DismissedRows(db, sid, at, todo - {pick});
    if IsPendingOf(db, sid, db.calls[pick]) {
      assert after == before + map[pick := DismissRow(db.calls[pick], at)];
      assert after.Keys == before.Keys + {pick};
      assert |after| == |after.Keys| && |before| == |before.Keys|;
    }
  }

  lemma PlusOneCall(h: Holding, c: Id, row: CallRow)
    ensures Plus(h, OneCall(c, row)) == h.(calls := h.calls + map[c := row])
  {
    var more := OneCall(c, row);
    assert h.sessions + more.sessions == h.sessions && h.orders + more.orders == h.orders;
    assert h.items + more.items == h.items;
  }

  lemma CloseDismisses(w: World, t: Id, x: Txn, pick: Id)
    requires Poised(w, t, x) && x.pc.CloseDismiss?
    ensures StatementOk(w, t, x, NextClose(w, t, x, pick))
  {
    hide Sound, IndexOk, LiveOf, Bill, CancelledRows, DismissedRows, PendingOf, StatementOk, Ok;
    var st := NextClose(w, t, x, pick);
    DismissBegins(w.db, x.pc.sid, x.began);
    OkIsClose(w.db, x);
    OkIsClose(w.db, st.next);
    GotoOk(w, t, x, st.next);
  }

  lemma CloseDismissesOne(w: World, t: Id, x: Txn, pick: Id)
    requires Poised(w, t, x) && x.pc.CloseCalls?
    ensures StatementOk(w, t, x, NextClose(w, t, x, pick))
  {
    hide Sound, IndexOk, StatementOk, Ok, OkClose, DismissRow, IsPendingOf, Free, ClaimAllowed, WriteWhenFree;
    var pc, db := x.pc, w.db;
    OkIsClose(db, x);
    if pc.todo == {} {
      var next := x.(pc := CloseCommit(pc.sid, pc.from, pc.list, pc.total, pc.count));
      DismissedAll(db, x, next);
      OkIsClose(db, next);
      GotoOk(w, t, x, next);
    } else if NextClose(w, t, x, pick) == Blocked {
      BlockedOk(w, t, x);
    } else {
      var left := pc.todo - {pick};
      if IsPendingOf(db, pc.sid, db.calls[pick]) {
        var rows := OneCall(pick, DismissRow(db.calls[pick], x.began));
        var next := x.(pc := CloseCalls(pc.sid, pc.from, pc.list, pc.total, left, pc.count + 1));
        DismissedOne(db, x, pick, next);
        OkIsClose(db, next.(held := Plus(x.held, rows)));
        NoClaim(w, rows);
        WriteOk(w, t, x, rows, next);
      } else {
        var next := x.(pc := CloseCalls(pc.sid, pc.from, pc.list, pc.total, left, pc.count));
        SkippedOne(db, x, pick, next);
        OkIsClose(db, next);
        GotoOk(w, t, x, next);
      }
    }
  }

  lemma DismissedAll(db: Db, x: Txn, next: Txn)
    requires Closing(x.pc) && OkClose(db, x) && x.pc.CloseCalls? && x.pc.todo == {}
    requires next == x.(pc := CloseCommit(x.pc.sid, x.pc.from, x.pc.list, x.pc.total, x.pc.count))
    ensures OkClose(db, next)
  {
    hide LiveOf, Bill, CancelledRows, DismissedRows;
  }

  lemma DismissedOne(db: Db, x: Txn, pick: Id, next: Txn)
    requires Closing(x.pc) && OkClose(db, x) && x.pc.CloseCalls? && pick in x.pc.todo && pick in db.calls
    requires IsPendingOf(db, x.pc.sid, db.calls[pick])
    requires next == x.(pc := CloseCalls(x.pc.sid, x.pc.from, x.pc.list, x.pc.total, x.pc.todo - {pick},
                                         x.pc.count + 1))
    ensures OkClose(db, next.(held := Plus(x.held, OneCall(pick, DismissRow(db.calls[pick], x.began)))))
  {
    hide LiveOf, Bill, CancelledRows, DismissedRows, IsPendingOf, DismissRow, Plus, OneCall;
    PlusOneCall(x.held, pick, DismissRow(db.calls[pick], x.began));
    DismissMore(db, x.pc.sid, x.began, x.pc.todo, pick);
  }

  lemma SkippedOne(db: Db, x: Txn, pick: Id, next: Txn)
    requires Closing(x.pc) && OkClose(db, x) && x.pc.CloseCalls? && pick in x.pc.todo && pick in db.calls
    requires !IsPendingOf(db, x.pc.sid, db.calls[pick])
    requires next == x.(pc := CloseCalls(x.pc.sid, x.pc.from, x.pc.list, x.pc.total, x.pc.todo - {pick}, x.pc.count))
    ensures OkClose(db, next)
  {
    hide LiveOf, Bill, CancelledRows, DismissedRows, IsPendingOf, DismissRow;
    DismissMore(db, x.pc.sid, x.began, x.pc.todo, pick);
  }

  // ----- The sweep -----

  lemma SweepStatement(w: World, t: Id, x: Txn, pick: Id)
    requires Poised(w, t, x) && (x.pc.SweepScan? || x.pc.SweepNext?)
    ensures StatementOk(w, t, x, NextSweep(w, t, x, pick))
  {
    hide OkOrder, OkItem, OkClose, OkCall, OkAck, OkReopen, OkOpen, Sound, IndexOk, DismissedRows, LiveOf, Stale,
        Free, ClaimAllowed;
    if x.pc.SweepNext? && pick in w.db.sessions {
      var row := AbandonRow(w.db.sessions[pick], x.began);
      NoOpenClaim(w, pick, row);
      PlusNothing(OneSession(pick, row));
    }
  }

  lemma SweepLists(w: World, t: Id, x: Txn, pick: Id)
    requires Poised(w, t, x) && x.pc.SweepUpdate?
    ensures StatementOk(w, t, x, NextSweep(w, t, x, pick))
  {
    hide Sound, IndexOk, DismissedRows, LiveOf, StatementOk, Ok;
    var st := NextSweep(w, t, x, pick);
    var list := LiveOf(w.db, x.pc.sid);
    assert CancelledRows(list - list.Keys, "session_abandoned", x.began) == map[];
    OkIsSweep(w.db, x);
    OkIsSweep(w.db, st.next);
    GotoOk(w, t, x, st.next);
  }

  lemma SweepMarks(w: World, t: Id, x: Txn, pick: Id)
    requires Poised(w, t, x) && x.pc.SweepMark?
    ensures StatementOk(w, t, x, NextSweep(w, t, x, pick))
  {
    hide Sound, IndexOk, LiveOf, CancelledRows, DismissedRows, StatementOk, Ok, CancelRow, Free, ClaimAllowed,
        WriteWhenFree;
    var pc := x.pc;
    OkIsSweep(w.db, x);
    if pc.todo == {} {
      var next := x.(pc := SweepDismiss(pc.sid, pc.rows));
      assert pc.list - {} == pc.list;
      OkIsSweep(w.db, next);
      GotoOk(w, t, x, next);
    } else if NextSweep(w, t, x, pick) == Blocked {
      BlockedOk(w, t, x);
    } else {
      var next := x.(pc := SweepMark(pc.sid, pc.rows, pc.list, pc.todo - {pick}));
      var rows := SomeItems(map[pick := CancelRow(w.db.items[pick], System, Some("session_abandoned"), x.began)]);
      OneMore(w.db, pc.sid, pc.todo, pick, "session_abandoned", x.began);
      NoClaim(w, rows);
      OkIsSweep(w.db, next.(held := Plus(x.held, rows)));
      WriteOk(w, t, x, rows, next);
    }
  }

  lemma SweepDismisses(w: World, t: Id, x: Txn, pick: Id)
    requires Poised(w, t, x) && x.pc.SweepDismiss?
    ensures StatementOk(w, t, x, NextSweep(w, t, x, pick))
  {
    hide Sound, IndexOk, LiveOf, CancelledRows, DismissedRows, PendingOf, StatementOk, Ok;
    var st := NextSweep(w, t, x, pick);
    DismissBegins(w.db, x.pc.sid, x.began);
    OkIsSweep(w.db, x);
    OkIsSweep(w.db, st.next);
    GotoOk(w, t, x, st.next);
  }

  lemma SweepDismissesOne(w: World, t: Id, x: Txn, pick: Id)
    requires Poised(w, t, x) && x.pc.SweepCalls?
    ensures StatementOk(w, t, x, NextSweep(w, t, x, pick))
  {
    hide Sound, IndexOk, StatementOk, Ok, OkSweep, DismissRow, IsPendingOf, Free, ClaimAllowed, WriteWhenFree;
    var pc, db := x.pc, w.db;
    OkIsSweep(db, x);
    if pc.todo == {} {
      var next := x.(pc := SweepCommit(pc.sid, pc.rows));
      SweptAll(db, x, next);
      OkIsSweep(db, next);
      GotoOk(w, t, x, next);
    } else if NextSweep(w, t, x, pick) == Blocked {
      BlockedOk(w, t, x);
    } else {
      var next := x.(pc := SweepCalls(pc.sid, pc.rows, pc.todo - {pick}));
      SweptOne(db, x, pick, next);
      if IsPendingOf(db, pc.sid, db.calls[pick]) {
        var rows := OneCall(pick, DismissRow(db.calls[pick], x.began));
        OkIsSweep(db, next.(held := Plus(x.held, rows)));
        NoClaim(w, rows);
        WriteOk(w, t, x, rows, next);
      } else {
        OkIsSweep(db, next);
        GotoOk(w, t, x, next);
      }
    }
  }

  lemma SweptAll(db: Db, x: Txn, next: Txn)
    requires Abandoning(x.pc) && OkSweep(db, x) && x.pc.SweepCalls? && x.pc.todo == {}
    requires next == x.(pc := SweepCommit(x.pc.sid, x.pc.rows))
    ensures OkSweep(db, next)
  {
    hide LiveOf, CancelledRows, DismissedRows;
  }

  lemma SweptOne(db: Db, x: Txn, pick: Id, next: Txn)
    requires Abandoning(x.pc) && OkSweep(db, x) && x.pc.SweepCalls? && pick in x.pc.todo && pick in db.calls
    requires next == x.(pc := SweepCalls(x.pc.sid, x.pc.rows, x.pc.todo - {pick}))
    ensures if IsPendingOf(db, x.pc.sid, db.calls[pick])
            then OkSweep(db, next.(held := Plus(x.held, OneCall(pick, DismissRow(db.calls[pick], x.began)))))
            else OkSweep(db, next)
  {
    hide LiveOf, CancelledRows, DismissedRows, IsPendingOf, DismissRow, Plus, OneCall;
    PlusOneCall(x.held, pick, DismissRow(db.calls[pick], x.began));
    DismissMore(db, x.pc.sid, x.began, x.pc.todo, pick);
  }

  // ----- Every statement -----

  predicate Committing(x: Txn) {
    EffectAt(x) != []
  }

  /** Every statement keeps its transaction's part of the invariant. */
  lemma EveryStatement(w: World, t: Id, pick: Id)
    requires t in w.txns && Poised(w, t, Awake(w, w.txns[t]))
    ensures StatementOk(w, t, Awake(w, w.txns[t]), Next(w, t, pick))
  {
    hide Poised, StatementOk;
    var x := Awake(w, w.txns[t]);
    var pc := x.pc;
    if pc.OpenFind? || pc.OpenRetry? { OpenStatement(w, t, x, pick); }
    else if pc.OpenInsert? { InsertStatement(w, t, x, pick); }
    else if pc.OrderRead? { OrderReadStatement(w, t, x); }
    else if pc.OrderInsert? || pc.OrderLines? { OrderStatement(w, t, x); }
    else if pc.OrderTouch? { OrderTouchStatement(w, t, x); }
    else if pc.ItemScope? { ItemScopeStatement(w, t, x); }
    else if pc.ItemCas? { ItemCasStatement(w, t, x); }
    else if pc.ItemTouch? { ItemTouchStatement(w, t, x); }
    else if pc.CallRead? || pc.CallCheck? || pc.CallTouch? { CallStatement(w, t, x, pick); }
    else if pc.CallInsert? { CallInsertStatement(w, t, x, pick); }
    else if pc.AckRead? || pc.AckWrite? { AckStatement(w, t, x); }
    else if pc.RestoreRead? || pc.RestoreFind? { RestoreStatement(w, t, x); }
    else if pc.ReopenCas? { ReopenStatement(w, t, x); }
    else if pc.CloseCas? { CloseCasStatement(w, t, x, pick); }
    else if pc.CloseList? || pc.CloseUpdate? { CloseLists(w, t, x, pick); }
    else if pc.CloseMark? { CloseMarks(w, t, x, pick); }
    else if pc.CloseSum? { CloseSums(w, t, x, pick); }
    else if pc.CloseTotal? { CloseTotals(w, t, x, pick); }
    else if pc.CloseDismiss? { CloseDismisses(w, t, x, pick); }
    else if pc.CloseCalls? { CloseDismissesOne(w, t, x, pick); }
    else if pc.SweepScan? || pc.SweepNext? { SweepStatement(w, t, x, pick); }
    else if pc.SweepUpdate? { SweepLists(w, t, x, pick); }
    else if pc.SweepMark? { SweepMarks(w, t, x, pick); }
    else if pc.SweepDismiss? { SweepDismisses(w, t, x, pick); }
    else if pc.SweepCalls? { SweepDismissesOne(w, t, x, pick); }
    else { CommitOrNothing(w, t, pick); }
  }

  /** What is left are the commits and the transactions that have finished. */
  lemma CommitOrNothing(w: World, t: Id, pick: Id)
    requires t in w.txns && (Committing(w.txns[t]) || Finished(w.txns[t].pc))
    ensures Next(w, t, pick).Commit? || Next(w, t, pick).Blocked?
    ensures StatementOk(w, t, Awake(w, w.txns[t]), Next(w, t, pick))
  {
  }
}
