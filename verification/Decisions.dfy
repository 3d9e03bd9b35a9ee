/** What the statements of interleaved transactions decide on, and what each commit writes, in
    terms of the columns of the tables: each deciding statement goes on exactly under the
    condition stated, and each commit changes exactly the columns stated. */
module Decisions {
  import opened Schema
  import opened Money
  import opened Effects
  import opened Laws
  import opened Requests
  import opened Columns
  import opened Interleaving
  import opened Statements
  import opened Isolation
  import opened Races
  import S = SweepLaws
  import OrderRaces

  // ----- Which request it is -----

  /** The later statement works for the request the earlier one worked for. */
  predicate SameRequest(a: Pc, b: Pc) {
    && (Opening(a) && Opening(b) ==>
          b.table == a.table && b.restaurant == a.restaurant && b.opener == a.opener && b.goal == a.goal)
    && (Opening(a) && b.OpenReturned? ==> a.goal == JustOpen && b.table == a.table)
    && (Opening(a) && b.OrderRead? ==>
          a.goal == ToOrder(b.basket) && b.restaurant == a.restaurant && b.dishes == map[] && b.k == 0)
    && (Opening(a) && b.CallRead? ==> a.goal == ToCall && b.table == a.table && b.restaurant == a.restaurant)
    && (Opening(a) && b.ItemScope? ==> a.goal == ToCancel(b.item, b.reason) && b.restaurant == a.restaurant)
    && (Ordering(a) && Ordering(b) ==> b.sid == a.sid && b.restaurant == a.restaurant && b.basket == a.basket)
    && (a.ItemScope? && b.ItemCas? ==>
          b.item == a.item && b.restaurant == a.restaurant && b.op == CancelAs(Customer, a.reason))
    && ((a.ItemCas? || a.ItemTouch?) && (b.ItemCas? || b.ItemTouch? || b.ItemCommit?) ==>
              b.item == a.item && b.op == a.op)
    && (Calling(a) && Calling(b) ==> b.sid == a.sid && b.table == a.table && b.restaurant == a.restaurant)
    && (a.AckRead? && b.AckWrite? ==> b.call == a.call && b.staff == a.staff)
    && (a.AckWrite? && b.AckCommit? ==> b.call == a.call && b.staff == a.staff && b.at == a.at)
    && (a.RestoreRead? && b.RestoreFind? ==> b.sid == a.sid && b.restaurant == a.restaurant)
    && (a.RestoreFind? && (b.ReopenCas? || b.CloseCas?) ==> b.sid == a.sid && b.restaurant == a.restaurant)
    && (a.ReopenCas? && b.ReopenCommit? ==> b.sid == a.sid)
    && ((a.CloseCas? || Closing(a)) && Closing(b) ==> b.sid == a.sid && b.from == a.from)
  }

  /** No step, of its own or of another, turns a request into a different one. */
  lemma RequestKept(w: World, a: Action, t: Id)
    requires Enabled(w, a) && t in w.txns
    ensures t in Step(w, a).txns && SameRequest(w.txns[t].pc, Step(w, a).txns[t].pc)
  {
    hide Next, With;
    match a
    case Run(u, pick) =>
      if u == t { RequestKeptNext(w, t, pick); } else { OthersPc(w, u, pick, t); }
    case _ =>
  }

  lemma RequestKeptNext(w: World, t: Id, pick: Id)
    requires t in w.txns && Next(w, t, pick) != Blocked
    ensures SameRequest(w.txns[t].pc, Next(w, t, pick).next.pc)
  {
    hide NextOpen, NextOrder, NextItem, NextCall, NextAck, NextRestore, NextClose, NextSweep;
    var x := Awake(w, w.txns[t]);
    OpeningKept(w, t, x, pick);
    OrderingKept(w, t, x);
    ServingKept(w, t, x, pick);
    RestoringKept(w, t, x);
    ClosingKept(w, t, x, pick);
  }

  lemma OpeningKept(w: World, t: Id, x: Txn, pick: Id)
    ensures var st := NextOpen(w, t, x, pick); Opening(x.pc) && !st.Blocked? ==> SameRequest(x.pc, st.next.pc)
  {
    hide FindOpen, IndexBusy, Free;
  }

  lemma OrderingKept(w: World, t: Id, x: Txn)
    ensures var st := NextOrder(w, t, x); Ordering(x.pc) && !st.Blocked? ==> SameRequest(x.pc, st.next.pc)
  {
    hide Free, RowsOf;
  }

  lemma ServingKept(w: World, t: Id, x: Txn, pick: Id)
    ensures var st := NextItem(w, t, x);
            (x.pc.ItemScope? || x.pc.ItemCas? || x.pc.ItemTouch? || x.pc.ItemCommit?) && !st.Blocked? ==>
              SameRequest(x.pc, st.next.pc)
    ensures var st := NextCall(w, t, x, pick); Calling(x.pc) && !st.Blocked? ==> SameRequest(x.pc, st.next.pc)
    ensures var st := NextAck(w, t, x);
            (x.pc.AckRead? || x.pc.AckWrite? || x.pc.AckCommit?) && !st.Blocked? ==> SameRequest(x.pc, st.next.pc)
  {
    hide Free, OpResult, HasSession, InSession, CalledRecently, CooldownSeconds;
  }

  lemma RestoringKept(w: World, t: Id, x: Txn)
    ensures var st := NextRestore(w, t, x);
            (x.pc.RestoreRead? || x.pc.RestoreFind? || x.pc.ReopenCas? || x.pc.ReopenCommit?) && !st.Blocked? ==>
              SameRequest(x.pc, st.next.pc)
  {
    hide FindOpen, IndexBusy, SessionFree, Free;
  }

  lemma ClosingKept(w: World, t: Id, x: Txn, pick: Id)
    ensures var st := NextClose(w, t, x, pick);
            (x.pc.CloseCas? || Closing(x.pc)) && !st.Blocked? ==> SameRequest(x.pc, st.next.pc)
    ensures var st := NextSweep(w, t, x, pick);
            (x.pc.SweepScan? || x.pc.SweepNext? || Abandoning(x.pc)) && !st.Blocked? ==> SameRequest(x.pc, st.next.pc)
  {
    hide FindOpen, SessionFree, Free, LiveOf, Stale, ServedLines, IsPendingOf, PendingOf;
  }

  /** now() of a transaction is the instant its first statement is issued and stays so; what
      follows a commit, a rollback or an abort is another transaction. */
  lemma NowOfTransaction(w: World, a: Action, t: Id)
    requires Enabled(w, a) && t in w.txns
    ensures t in Step(w, a).txns
    ensures var x, x' := w.txns[t], Step(w, a).txns[t];
            && x'.began == (if x.idle && (a == Issue(t) || (a.Run? && a.t == t)) then w.clock else x.began)
            && (x'.idle <==>
                  (x.idle && a != Issue(t) && !(a.Run? && a.t == t)) || (a.Abort? && a.t == t)
                  || (a.Run? && a.t == t && (Next(w, t, a.pick).Commit? || Next(w, t, a.pick).Rollback?)))
  {
    hide Next, With;
    match a
    case Run(u, pick) =>
      if u == t { NextKeepsNow(w, t, pick); } else { OthersPc(w, u, pick, t); }
    case _ =>
  }

  lemma NextKeepsNow(w: World, t: Id, pick: Id)
    requires t in w.txns && Next(w, t, pick) != Blocked
    ensures var x := Awake(w, w.txns[t]); Next(w, t, pick).next == x.(pc := Next(w, t, pick).next.pc)
  {
    hide FindOpen, IndexBusy, SessionFree, Free, OpResult, HasSession, LiveOf, Stale, ServedLines, IsPendingOf,
        PendingOf, InSession, CalledRecently, ReadLine, CooldownSeconds, RowsOf, Found;
  }

  /** A failure rolls back what is not committed; the sweep goes on without the session that
      failed, any other request is over. */
  lemma FailureEnds(w: World, t: Id, q: Id)
    requires Enabled(w, Abort(t, q))
    ensures var pc, w' := w.txns[t].pc, Step(w, Abort(t, q));
            && w'.db == w.db && w'.clock == w.clock && w'.txns[t].held == NOTHING
            && w'.txns[t].pc
               == if pc.SweepUpdate? || pc.SweepMark? || pc.SweepDismiss? || pc.SweepCalls? || pc.SweepCommit?
                  then SweepNext(pc.rows)
                  else if pc.SweepNext? && q in pc.rows then SweepNext(pc.rows - {q}) else Aborted
  {
  }

  // ----- What the deciding statements decide on -----

  /** Where a statement leaves its own transaction. */
  lemma Moves(w: World, t: Id, q: Id)
    requires Enabled(w, Run(t, q))
    ensures t in w.txns && t in Step(w, Run(t, q)).txns && Next(w, t, q) != Blocked
    ensures Step(w, Run(t, q)).txns[t].pc == Next(w, t, q).next.pc
    ensures Step(w, Run(t, q)).txns[t].began == Next(w, t, q).next.began
  {
    hide Next, With;
  }

  /** get_or_open takes the session that is open at the table, and goes on to open one exactly
      when there is none. */
  lemma OpenFinds(w: World, t: Id, q: Id)
    requires Enabled(w, Run(t, q)) && w.txns[t].pc.OpenFind?
    ensures var pc := w.txns[t].pc; var next := Step(w, Run(t, q)).txns[t].pc;
            if Occupied(w.db, pc.table)
            then exists s :: s in w.db.sessions && w.db.sessions[s].table == pc.table && w.db.sessions[s].status == Open
                             && next == Found(pc, s)
            else next == OpenInsert(pc.table, pc.restaurant, pc.opener, pc.goal)
  {
    hide Enabled, Step, Execute;
    hide NextOrder, NextItem, NextCall, NextAck, NextRestore, NextClose, NextSweep;
    hide Occupied;
    Moves(w, t, q);
    OccupiedMeans(w.db, w.txns[t].pc.table);
  }

  /** The insert runs into the index exactly when the table has an open session by then, and the
      second look fails exactly when it has none again. */
  lemma OpenInserts(w: World, t: Id, q: Id)
    requires Enabled(w, Run(t, q)) && (w.txns[t].pc.OpenInsert? || w.txns[t].pc.OpenRetry?)
    ensures var pc := w.txns[t].pc; var next := Step(w, Run(t, q)).txns[t].pc;
            if Occupied(w.db, pc.table)
            then exists s :: s in w.db.sessions && w.db.sessions[s].table == pc.table && w.db.sessions[s].status == Open
                             && next == if pc.OpenInsert?
                                        then OpenRetry(pc.table, pc.restaurant, pc.opener, pc.goal, s) else Found(pc, s)
            else next == if pc.OpenInsert? then OpenCommit(pc.table, pc.restaurant, pc.opener, pc.goal, q)
                         else OpenFailed(pc.table, pc.conflict)
  {
    hide Enabled, Step, Execute;
    hide NextOrder, NextItem, NextCall, NextAck, NextRestore, NextClose, NextSweep;
    hide Occupied, IndexBusy, Free;
    Moves(w, t, q);
    OccupiedMeans(w.db, w.txns[t].pc.table);
  }

  /** A line is refused exactly when its menu item is missing, of another restaurant or inactive
      at that instant, or not available in the version first seen; with the last line read the
      order takes the instant it will carry. */
  lemma LineDecides(w: World, t: Id, q: Id)
    requires Enabled(w, Run(t, q)) && w.txns[t].pc.OrderRead?
    ensures var pc := w.txns[t].pc; var menu := w.db.menu;
            Step(w, Run(t, q)).txns[t].pc
            == if pc.k >= |pc.basket.lines| then OrderInsert(pc.sid, pc.restaurant, pc.basket, pc.dishes, w.clock)
               else
                 var m := pc.basket.lines[pc.k].menuItem;
                 if m in menu && menu[m].restaurant == pc.restaurant && menu[m].active
                    && (if m in pc.dishes then pc.dishes[m].available else menu[m].available)
                 then OrderRead(pc.sid, pc.restaurant, pc.basket,
                                if m in pc.dishes then pc.dishes else pc.dishes[m := menu[m]], pc.k + 1)
                 else OrderRefused(pc.sid, pc.k)
  {
    hide Enabled, Step, Execute;
    hide NextOpen, NextItem, NextCall, NextAck, NextRestore, NextClose, NextSweep;
    Moves(w, t, q);
    var pc := w.txns[t].pc;
    if pc.k < |pc.basket.lines| {
      var m := pc.basket.lines[pc.k].menuItem;
      if m in pc.dishes { assert pc.dishes[m := pc.dishes[m]] == pc.dishes; }
    }
  }

  /** When a staff member's or a guest's change applies to an item. */
  predicate Applies(op: ItemOp, row: ItemRow, now: Time) {
    match op
    case SetTo(to, _) =>
      && Leads(row.status, to) && to != Cancelled
      && (to == Pending ==> row.servedAt.Some? && now - row.servedAt.value <= 120 * SECOND)
    case CancelAs(Customer, _) => row.status == Pending
    case CancelAs(Staff, _) => row.status == Pending || row.status == Cooking || row.status == Ready
    case CancelAs(System, _) => false
  }

  /** The row it leaves. */
  function Changed(op: ItemOp, row: ItemRow, now: Time): ItemRow {
    match op
    case SetTo(Served, actor) => row.(status := Served, servedBy := actor, servedAt := Some(now))
    case SetTo(Pending, _) => row.(status := Pending, servedBy := None, servedAt := None)
    case SetTo(to, _) => row.(status := to)
    case CancelAs(who, reason) =>
      row.(status := Cancelled, cancelledBy := Some(who), cancelledAt := Some(now), reason := reason)
  }

  lemma OpResultIs(op: ItemOp, row: ItemRow, now: Time)
    ensures OpResult(op, row, now) == if Applies(op, row, now) then Some(Changed(op, row, now)) else None
  {
  }

  /** The compare-and-swap on an item succeeds exactly when the change applies to it. */
  lemma ItemDecides(w: World, t: Id, q: Id)
    requires Enabled(w, Run(t, q)) && w.txns[t].pc.ItemCas?
    ensures var pc := w.txns[t].pc; var x' := Step(w, Run(t, q)).txns[t];
            && x'.pc == (if pc.item in w.db.items && w.db.items[pc.item].restaurant == pc.restaurant
                            && Applies(pc.op, w.db.items[pc.item], x'.began)
                         then ItemTouch(pc.item, pc.op) else ItemConflict(pc.item))
            && x'.began == if w.txns[t].idle then w.clock else w.txns[t].began
  {
    hide Enabled, Step, Execute;
    hide NextOpen, NextOrder, NextCall, NextAck, NextRestore, NextClose, NextSweep;
    hide OpResult, Applies, Changed, Free;
    Moves(w, t, q);
    var x := Awake(w, w.txns[t]);
    if x.pc.item in w.db.items { OpResultIs(x.pc.op, w.db.items[x.pc.item], x.began); }
  }

  /** A guest's cancel reaches an item of the table's restaurant and of the session found. */
  lemma ScopeDecides(w: World, t: Id, q: Id)
    requires Enabled(w, Run(t, q)) && w.txns[t].pc.ItemScope?
    ensures var pc := w.txns[t].pc; var db := w.db;
            Step(w, Run(t, q)).txns[t].pc
            == if pc.item in db.items && db.items[pc.item].restaurant == pc.restaurant
                  && db.items[pc.item].order in db.orders && db.orders[db.items[pc.item].order].session == pc.sid
               then ItemCas(pc.item, pc.restaurant, CancelAs(Customer, pc.reason)) else ItemConflict(pc.item)
  {
    hide Enabled, Step, Execute;
    hide NextOpen, NextOrder, NextCall, NextAck, NextRestore, NextClose, NextSweep;
    Moves(w, t, q);
  }

  /** The cooldown is that of the restaurant's settings, 60 seconds without any; a call is made
      exactly when none of the table is younger. */
  lemma CallDecides(w: World, t: Id, q: Id)
    requires Enabled(w, Run(t, q)) && (w.txns[t].pc.CallRead? || w.txns[t].pc.CallCheck?)
    ensures var pc := w.txns[t].pc; var x' := Step(w, Run(t, q)).txns[t];
            x'.pc
            == if pc.CallRead?
               then var r := pc.restaurant;
                    CallCheck(pc.sid, pc.table, r, if r in w.db.settings then w.db.settings[r].cooldownSeconds else 60)
               else if forall c | c in w.db.calls && w.db.calls[c].table == pc.table ::
                         w.db.calls[c].createdAt <= x'.began - pc.cooldown * SECOND
                    then CallTouch(pc.sid, pc.table, pc.restaurant) else CallCooling(pc.sid)
  {
    hide Enabled, Step, Execute;
    hide NextOpen, NextOrder, NextItem, NextAck, NextRestore, NextClose, NextSweep;
    Moves(w, t, q);
  }

  lemma AckDecides(w: World, t: Id, q: Id)
    requires Enabled(w, Run(t, q)) && w.txns[t].pc.AckRead?
    ensures var pc := w.txns[t].pc; var calls := w.db.calls;
            Step(w, Run(t, q)).txns[t].pc
            == if pc.call in calls && calls[pc.call].restaurant == pc.restaurant
               then if calls[pc.call].status == Waiting then AckWrite(pc.call, pc.staff, w.clock) else AckDone(pc.call)
               else AckMissing(pc.call)
  {
    hide Enabled, Step, Execute;
    hide NextOpen, NextOrder, NextItem, NextCall, NextRestore, NextClose, NextSweep;
    Moves(w, t, q);
  }

  /** A restore goes on exactly when the session is one of the restaurant, abandoned, and that
      no more than 24 hours ago. */
  lemma RestoreDecides(w: World, t: Id, q: Id)
    requires Coherent(w) && Enabled(w, Run(t, q)) && w.txns[t].pc.RestoreRead?
    ensures var pc := w.txns[t].pc; var next := Step(w, Run(t, q)).txns[t].pc; var sessions := w.db.sessions;
            if !(pc.sid in sessions && sessions[pc.sid].restaurant == pc.restaurant)
            then next == RestoreRefused(NoSuchSession)
            else if sessions[pc.sid].status != Abandoned then next == RestoreRefused(NotAbandoned)
            else && sessions[pc.sid].abandonedAt.Some?
                 && next == if w.clock - sessions[pc.sid].abandonedAt.value <= 24 * 3_600 * SECOND
                            then RestoreFind(pc.sid, pc.restaurant, sessions[pc.sid].abandonedAt.value)
                            else RestoreRefused(TooOld)
  {
    hide Enabled, Step, Execute, Coherent, FindOpen, IndexBusy, SessionFree, Free;
    hide NextOpen, NextOrder, NextItem, NextCall, NextAck, NextClose, NextSweep;
    Moves(w, t, q);
    StampThere(w, w.txns[t].pc.sid);
  }

  lemma StampThere(w: World, sid: Id)
    requires Coherent(w)
    ensures sid in w.db.sessions && w.db.sessions[sid].status == Abandoned ==> w.db.sessions[sid].abandonedAt.Some?
  {
    hide IndexOk, AllOk, Disjoint, Linked, OneOpenPerTable, ItemShapes, Catalogued;
    SoundIn(w);
    assert sid in w.db.sessions ==> SessionShape(w.db.sessions[sid]);
  }

  /** It closes the session directly exactly when its table has an open one by now. */
  lemma RestoreFinds(w: World, t: Id, q: Id)
    requires Enabled(w, Run(t, q)) && w.txns[t].pc.RestoreFind?
    ensures var pc := w.txns[t].pc; var sessions := w.db.sessions;
            Step(w, Run(t, q)).txns[t].pc
            == if pc.sid in sessions && Occupied(w.db, sessions[pc.sid].table)
               then CloseCas(pc.sid, pc.restaurant, Abandoned, Some(pc.seen))
               else ReopenCas(pc.sid, pc.restaurant, pc.seen)
  {
    hide Enabled, Step, Execute;
    hide NextOpen, NextOrder, NextItem, NextCall, NextAck, NextClose, NextSweep;
    hide Occupied, FindOpen;
    Moves(w, t, q);
    var pc := w.txns[t].pc;
    if pc.sid in w.db.sessions {
      OccupiedMeans(w.db, w.db.sessions[pc.sid].table);
    }
  }

  /** The compare-and-swap that reopens: lost, in conflict with an open session, or won. */
  lemma ReopenDecides(w: World, t: Id, q: Id)
    requires Enabled(w, Run(t, q)) && w.txns[t].pc.ReopenCas?
    ensures var pc := w.txns[t].pc; var sessions := w.db.sessions;
            Step(w, Run(t, q)).txns[t].pc
            == if !(pc.sid in sessions && sessions[pc.sid].restaurant == pc.restaurant
                    && sessions[pc.sid].status == Abandoned) then RestoreRefused(LostRace)
               else if Occupied(w.db, sessions[pc.sid].table) then RestoreRefused(IndexViolation)
               else ReopenCommit(pc.sid, pc.seen)
  {
    hide Enabled, Step, Execute;
    hide NextOpen, NextOrder, NextItem, NextCall, NextAck, NextClose, NextSweep;
    hide IndexBusy, SessionFree, Free, Occupied, FindOpen;
    Moves(w, t, q);
    var pc := w.txns[t].pc;
    if pc.sid in w.db.sessions {
      OccupiedMeans(w.db, w.db.sessions[pc.sid].table);
    }
  }

  lemma CloseDecides(w: World, t: Id, q: Id)
    requires Enabled(w, Run(t, q)) && w.txns[t].pc.CloseCas?
    ensures var pc := w.txns[t].pc; var sessions := w.db.sessions;
            Step(w, Run(t, q)).txns[t].pc
            == if pc.sid in sessions && sessions[pc.sid].restaurant == pc.restaurant
                  && sessions[pc.sid].status == pc.from
               then CloseList(pc.sid, pc.from) else CloseLost(pc.sid)
  {
    hide Enabled, Step, Execute;
    hide NextOpen, NextOrder, NextItem, NextCall, NextAck, NextRestore, NextSweep;
    hide Free;
    Moves(w, t, q);
  }

  /** The sweep's scan takes up the open sessions whose last activity is further back than the
      timeout of their restaurant. */
  lemma SweepDecides(w: World, t: Id, q: Id)
    requires Enabled(w, Run(t, q)) && w.txns[t].pc.SweepScan?
    ensures var db := w.db; var x' := Step(w, Run(t, q)).txns[t];
            && x'.pc.SweepNext?
            && forall s :: s in x'.pc.rows <==>
                 && s in db.sessions && db.sessions[s].status == Open && db.sessions[s].restaurant in db.settings
                 && db.sessions[s].lastActivity
                    < x'.began - db.settings[db.sessions[s].restaurant].timeoutHours * 3_600 * SECOND
  {
    hide Enabled, Step, Execute;
    hide NextOpen, NextOrder, NextItem, NextCall, NextAck, NextRestore, NextClose;
    Moves(w, t, q);
  }

  /** Of those it takes one at a time, and abandons it exactly when it is still open. */
  lemma SweepTakes(w: World, t: Id, q: Id)
    requires Enabled(w, Run(t, q)) && w.txns[t].pc.SweepNext?
    ensures var rows := w.txns[t].pc.rows; var sessions := w.db.sessions;
            && (rows != {} ==> q in rows)
            && Step(w, Run(t, q)).txns[t].pc
               == if rows == {} then SweepDone
                  else if q in sessions && sessions[q].status == Open then SweepUpdate(q, rows - {q})
                  else SweepNext(rows - {q})
  {
    hide Enabled, Step, Execute;
    hide NextOpen, NextOrder, NextItem, NextCall, NextAck, NextRestore, NextClose, Free;
    Moves(w, t, q);
  }

  // ----- What the commits write -----

  lemma CommitApplies(w: World, t: Id, q: Id)
    requires Coherent(w) && Enabled(w, Run(t, q)) && Committing(w.txns[t])
    ensures t in w.txns && |EffectAt(w.txns[t])| == 1 && Guard(w.db, EffectAt(w.txns[t])[0])
    ensures Step(w, Run(t, q)).db == Apply(w.db, EffectAt(w.txns[t])[0])
  {
    hide Coherent, Next, Guard, Apply, Execute;
    OnlyCommits(w, t, q);
    CommitKeeps(w, t, q);
  }

  /** A session get_or_open commits is new, the only open one of its table, opened by whom and
      when it was asked for, and active since; no sweep takes it up before its timeout. */
  lemma OpenWrites(w: World, t: Id, q: Id)
    requires Coherent(w) && Enabled(w, Run(t, q)) && w.txns[t].pc.OpenCommit?
    ensures var pc, now, db, db' := w.txns[t].pc, w.txns[t].began, w.db, Step(w, Run(t, q)).db;
            && pc.sid !in db.sessions
            && !Occupied(db, pc.table)
            && db' == db.(sessions := db.sessions[pc.sid := SessionRow(pc.restaurant, pc.table, Open, pc.opener,
                                                                       now, now, None, None, None)])
    ensures var pc, now, db' := w.txns[t].pc, w.txns[t].began, Step(w, Run(t, q)).db;
            pc.restaurant in db'.settings ==>
              forall at | at <= now + db'.settings[pc.restaurant].timeoutHours * 3_600 * SECOND ::
                !Stale(db', pc.sid, at)
  {
    hide Coherent, Next, Execute, Step, Enabled;
    CommitApplies(w, t, q);
    OccupiedMeans(w.db, w.txns[t].pc.table);
  }

  /** An order is committed with its lines, and its session is active as of its instant. */
  lemma OrderWrites(w: World, t: Id, q: Id)
    requires Coherent(w) && Enabled(w, Run(t, q)) && w.txns[t].pc.OrderCommit?
    ensures var pc, db, db' := w.txns[t].pc, w.db, Step(w, Run(t, q)).db;
            && pc.basket.order !in db.orders && pc.sid in db.sessions
            && db'.orders == db.orders[pc.basket.order := OrderRow(pc.restaurant, pc.sid)]
            && db'.sessions == db.sessions[pc.sid := db.sessions[pc.sid].(lastActivity := pc.at)]
            && db'.calls == db.calls
    ensures var pc, db, db' := w.txns[t].pc, w.db, Step(w, Run(t, q)).db;
            && (forall i :: i in db'.items <==> i in db.items || i in pc.basket.ids)
            && (forall i | i in db.items :: db'.items[i] == db.items[i])
            && |pc.basket.ids| == |pc.basket.lines|
            && forall k | 0 <= k < |pc.basket.lines| ::
                 var line := pc.basket.lines[k];
                 && line.menuItem in pc.dishes && pc.basket.ids[k] in db'.items
                 && Records(db'.items[pc.basket.ids[k]], pc.dishes[line.menuItem], pc.restaurant, pc.basket.order, line,
                            pc.at)
  {
    hide Coherent, Next, Execute, Step, Enabled, Records, RowsOf, FreshLine;
    CommitApplies(w, t, q);
    OrderRaces.CommitsSnapshots(w, t);
  }

  /** A change of an item applied to the committed row, writes exactly its columns, and marks
      its session as active. */
  lemma ItemWrites(w: World, t: Id, q: Id)
    requires Coherent(w) && Enabled(w, Run(t, q)) && w.txns[t].pc.ItemCommit?
    ensures var pc, now, db, db' := w.txns[t].pc, w.txns[t].began, w.db, Step(w, Run(t, q)).db;
            && pc.item in db.items && Applies(pc.op, db.items[pc.item], now)
            && db'.items == db.items[pc.item := Changed(pc.op, db.items[pc.item], now)]
            && TouchedOnly(db, db', pc.item, now)
            && db'.orders == db.orders && db'.calls == db.calls
  {
    hide Coherent, Next, Execute, Step, Enabled, OpResult, Applies, Changed;
    CommitApplies(w, t, q);
    ItemAtCommit(w, t);
    OpResultIs(w.txns[t].pc.op, w.db.items[w.txns[t].pc.item], w.txns[t].began);
    ItemEffect(w.db, w.txns[t]);
  }

  lemma ItemAtCommit(w: World, t: Id)
    requires Coherent(w) && t in w.txns && w.txns[t].pc.ItemCommit?
    ensures var x := w.txns[t];
            HasSession(w.db, x.pc.item) && OpResult(x.pc.op, w.db.items[x.pc.item], x.began).Some?
  {
    hide Sound, IndexOk, Disjoint, OpResult;
    assert Ok(w.db, w.txns[t]);
  }

  lemma ItemEffect(db: Db, x: Txn)
    requires x.pc.ItemCommit? && HasSession(db, x.pc.item) && OpResult(x.pc.op, db.items[x.pc.item], x.began).Some?
    requires Guard(db, EffectAt(x)[0])
    ensures Apply(db, EffectAt(x)[0])
            == db.(items := db.items[x.pc.item := OpResult(x.pc.op, db.items[x.pc.item], x.began).value],
                   sessions := Touched(db, SessionOf(db, x.pc.item), x.began))
  {
    hide Move, CancelRow, CancelLive, DismissCalls, ServedLines, CancellableBy;
  }

  /** A call is committed for its session and table, waiting, and marks the session as active. */
  lemma CallWrites(w: World, t: Id, q: Id)
    requires Coherent(w) && Enabled(w, Run(t, q)) && w.txns[t].pc.CallCommit?
    ensures var pc, now, db, db' := w.txns[t].pc, w.txns[t].began, w.db, Step(w, Run(t, q)).db;
            && pc.call !in db.calls && pc.sid in db.sessions && db.sessions[pc.sid].table == pc.table
            && db' == db.(calls := db.calls[pc.call := CallRow(pc.restaurant, pc.table, pc.sid, Waiting, now,
                                                               None, None)],
                          sessions := db.sessions[pc.sid := db.sessions[pc.sid].(lastActivity := now)])
  {
    hide Coherent, Next, Execute, Step, Enabled;
    CommitApplies(w, t, q);
    CallAtCommit(w, t);
  }

  lemma CallAtCommit(w: World, t: Id)
    requires Coherent(w) && t in w.txns && w.txns[t].pc.CallCommit?
    ensures var pc := w.txns[t].pc;
            && pc.sid in w.db.sessions && w.db.sessions[pc.sid].table == pc.table
            && w.db.sessions[pc.sid].restaurant == pc.restaurant
  {
    hide Sound, IndexOk, Disjoint;
    assert Ok(w.db, w.txns[t]);
  }

  /** An acknowledgement writes who acknowledged and when, at the instant of its read. */
  lemma AckWrites(w: World, t: Id, q: Id)
    requires Coherent(w) && Enabled(w, Run(t, q)) && w.txns[t].pc.AckCommit?
    ensures var pc, db, db' := w.txns[t].pc, w.db, Step(w, Run(t, q)).db;
            && pc.call in db.calls
            && db' == db.(calls := db.calls[pc.call := db.calls[pc.call].(status := Acknowledged,
                                                                          ackedAt := Some(pc.at),
                                                                          ackedBy := Some(pc.staff))])
  {
    hide Coherent, Next, Execute, Step, Enabled;
    CommitApplies(w, t, q);
  }

  /** A restore's reopening clears the stamp and marks the session as active. */
  lemma ReopenWrites(w: World, t: Id, q: Id)
    requires Coherent(w) && Enabled(w, Run(t, q)) && w.txns[t].pc.ReopenCommit?
    ensures var pc, now, db, db' := w.txns[t].pc, w.txns[t].began, w.db, Step(w, Run(t, q)).db;
            && pc.sid in db.sessions && db.sessions[pc.sid].status == Abandoned
            && !Occupied(db, db.sessions[pc.sid].table)
            && db' == db.(sessions := db.sessions[pc.sid := db.sessions[pc.sid].(status := Open, abandonedAt := None,
                                                                                 lastActivity := now)])
  {
    hide Coherent, Next, Execute, Step, Enabled;
    CommitApplies(w, t, q);
    OccupiedMeans(w.db, w.db.sessions[w.txns[t].pc.sid].table);
  }

  /** The sweep's commit for a session abandons it whole and leaves every other session alone. */
  lemma SweepWrites(w: World, t: Id, q: Id, other: Id)
    requires Coherent(w) && Enabled(w, Run(t, q)) && w.txns[t].pc.SweepCommit?
    ensures var pc, now, db, db' := w.txns[t].pc, w.txns[t].began, w.db, Step(w, Run(t, q)).db;
            if other == pc.sid then S.FullyAbandoned(db, db', other, now) else S.Untouched(db, db', other)
  {
    hide Coherent, Next, Execute, Step, Enabled, Apply, Guard, S.FullyAbandoned, S.Untouched;
    CommitApplies(w, t, q);
    SoundIn(w);
    if other == w.txns[t].pc.sid {
      S.AbandonIsFull(w.db, other, w.txns[t].began);
    } else {
      S.AbandonLeavesOthers(w.db, w.txns[t].pc.sid, other, w.txns[t].began);
    }
  }
}
