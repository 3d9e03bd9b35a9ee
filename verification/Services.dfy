/** The services as they update the tables, statement by statement, each method run as one
    transaction.  A store holds the tables; every method is proved against the effects that
    Requests plans for it. */
module Services {
  import opened Schema
  import opened Money
  import opened Effects
  import opened Laws
  import opened Requests
  import opened Columns
  import O = Ordering
  import SweepLaws

  datatype CancelledLine = CancelledLine(id: Id, name: string, quantity: int, before: ItemStatus)

  datatype Receipt = Receipt(total: int, cancelled: seq<CancelledLine>, dismissed: nat)

  datatype RestoreOutcome =
    | NotFound | NotAbandoned | MissingStamp | TooOld | Lost
    | Reopened | CheckedOut(receipt: Receipt)

  datatype OrderOutcome = NoTable | SessionEnded | Refused(line: nat) | Placed(order: Id)

  /** Where the work on one session of a sweep raises, if it does. */
  datatype Fault = NoFault | AtCas | AtCancel | AtDismiss | AtCommit | AfterCommit

  function RolledBack(faults: map<Id, Fault>): set<Id> {
    set s | s in faults && faults[s] != NoFault && faults[s] != AfterCommit
  }

  datatype MoveOutcome = InvalidTransition | Conflict | Changed(row: ItemRow)

  function Summary(id: Id, row: ItemRow): CancelledLine {
    CancelledLine(id, row.name, row.quantity, row.status)
  }

  /** The lines describe exactly these rows, each once. */
  predicate Describes(lines: seq<CancelledLine>, rows: map<Id, ItemRow>) {
    && (forall k | 0 <= k < |lines| :: lines[k].id in rows && lines[k] == Summary(lines[k].id, rows[lines[k].id]))
    && (forall j, k | 0 <= j < k < |lines| :: lines[j].id != lines[k].id)
    && (forall i | i in rows :: Lists(lines, i))
  }

  /** What a closing makes of the tables, column by column, and what it reports. */
  ghost predicate BilledOut(db: Db, db': Db, sid: Id, restaurant: Id, now: Time, r: Receipt) {
    && ClosedOut(db, db', sid, restaurant, now, r.total)
    && (forall i :: CancelledBySystem(db, sid, i) <==> Lists(r.cancelled, i))
    && (forall k | 0 <= k < |r.cancelled| ::
          var id := r.cancelled[k].id;
          id in db.items
          && r.cancelled[k] == CancelledLine(id, db.items[id].name, db.items[id].quantity, db.items[id].status))
    && (forall j, k | 0 <= j < k < |r.cancelled| :: r.cancelled[j].id != r.cancelled[k].id)
    && r.dismissed == |set c | c in db.calls && DismissedWith(db, sid, restaurant, c)|
  }

  lemma ClosingBillsOut(db: Db, db': Db, sid: Id, restaurant: Id, now: Time, r: Receipt)
    requires sid in db.sessions && db.sessions[sid].restaurant == restaurant
    requires db'.items == CancelLive(db, sid, "table_closed", now)
    requires db'.sessions == db.sessions[sid := BillRow(CloseRow(db.sessions[sid], now), r.total)]
    requires db'.calls == DismissCalls(db.calls, sid, restaurant, now)
    requires Describes(r.cancelled, LiveOf(db, sid)) && r.dismissed == |PendingCalls(db.calls, sid, restaurant)|
    ensures BilledOut(db, db', sid, restaurant, now, r)
  {
    assert PendingCalls(db.calls, sid, restaurant) == set c | c in db.calls && DismissedWith(db, sid, restaurant, c);
    forall i ensures CancelledBySystem(db, sid, i) <==> Lists(r.cancelled, i) {
      assert CancelledBySystem(db, sid, i) <==> i in LiveOf(db, sid);
    }
  }

  predicate Lists(lines: seq<CancelledLine>, i: Id) {
    exists k :: 0 <= k < |lines| && lines[k].id == i
  }

  function PendingCalls(calls: map<Id, CallRow>, sid: Id, restaurant: Id): set<Id> {
    set c | c in calls && Dismissable(calls[c], sid, restaurant)
  }

  /** How many keys of s are done. */
  function CountDone(s: set<Id>, todo: set<Id>): nat {
    |s - todo|
  }

  lemma OneMoreKey(s: set<Id>, todo: set<Id>, i: Id)
    requires i in todo
    ensures CountDone(s, todo - {i}) == CountDone(s, todo) + One(i in s)
  {
    assert s - (todo - {i}) == if i in s then (s - todo) + {i} else s - todo;
  }

  lemma DoneBounds(s: set<Id>, all: set<Id>)
    requires s <= all
    ensures CountDone(s, all) == 0 && CountDone(s, {}) == |s|
  {
    assert s - all == {} && s - {} == s;
  }

  /** The sum over the lines that are done. */
  ghost function SumDone(m: map<Id, int>, todo: set<Id>): int {
    Sum(m - todo)
  }

  lemma SumOneMore(m: map<Id, int>, todo: set<Id>, i: Id)
    requires i in todo
    ensures SumDone(m, todo - {i}) == SumDone(m, todo) + if i in m then m[i] else 0
  {
    OneKeyMore(m, todo, i);
    if i in m {
      Add(m - todo, i, m[i]);
    }
  }

  lemma SumBounds(m: map<Id, int>, all: set<Id>)
    requires m.Keys <= all
    ensures SumDone(m, all) == 0 && SumDone(m, {}) == Sum(m)
  {
    assert m - all == map[] && m - {} == m;
  }

  /** The session row shows this total. */
  predicate ShowsTotal(db: Db, sid: Id, total: int) {
    sid in db.sessions && db.sessions[sid].total == Some(total)
  }

  lemma RestorePlan(db: Db, now: Time, sid: Id, restaurant: Id)
    ensures Plan(db, now, Request.Restore(sid, restaurant))
            == if !Restorable(db, sid, restaurant, now) then []
               else if FindOpen(db, db.sessions[sid].table).Some? then [Close(sid, Abandoned, now)]
                   else [Reopen(sid, now)]
  {
  }

  /** Taking one key off the list of keys still to do. */
  lemma OneKeyMore<R>(m: map<Id, R>, todo: set<Id>, i: Id)
    requires i in todo
    ensures i in m ==> m - (todo - {i}) == (m - todo)[i := m[i]]
    ensures i !in m ==> m - (todo - {i}) == m - todo
  {
  }

  /** db' is what committing the plan on db leads to. */
  ghost predicate Performs(db: Db, plan: seq<Effect>, db': Db) {
    Valid(db, plan) && db' == ApplyAll(db, plan)
  }

  lemma PerformsNone(db: Db)
    ensures Performs(db, [], db)
  {
  }

  lemma PerformsOne(db: Db, e: Effect)
    requires Guard(db, e)
    ensures Performs(db, [e], Apply(db, e))
  {
    assert [e] == [e] + [];
    Cons(db, e, []);
  }

  lemma PerformsThen(a: Db, p: seq<Effect>, b: Db, q: seq<Effect>, c: Db)
    requires Performs(a, p, b) && Performs(b, q, c)
    ensures Performs(a, p + q, c)
  {
    ValidConcat(a, p, q);
  }

  /** dismiss_pending with the calls in todo still to come. */
  function DismissedBut(calls: map<Id, CallRow>, todo: set<Id>, sid: Id, restaurant: Id, now: Time): map<Id, CallRow> {
    map c | c in calls ::
      if c !in todo && Dismissable(calls[c], sid, restaurant) then DismissRow(calls[c], now) else calls[c]
  }

  lemma DismissBounds(calls: map<Id, CallRow>, sid: Id, restaurant: Id, now: Time)
    ensures DismissedBut(calls, calls.Keys, sid, restaurant, now) == calls
    ensures DismissedBut(calls, {}, sid, restaurant, now) == DismissCalls(calls, sid, restaurant, now)
  {
  }

  lemma DismissNext(calls: map<Id, CallRow>, todo: set<Id>, c: Id, sid: Id, restaurant: Id, now: Time)
    requires c in todo && c in calls
    ensures var done := DismissedBut(calls, todo, sid, restaurant, now);
            && done[c] == calls[c]
            && DismissedBut(calls, todo - {c}, sid, restaurant, now)
               == if Dismissable(calls[c], sid, restaurant) then done[c := DismissRow(calls[c], now)] else done
  {
  }

  class Store {
    var restaurants: map<Id, bool>
    var tables: map<Id, TableRow>
    var settings: map<Id, SettingsRow>
    var menu: map<Id, MenuRow>
    var sessions: map<Id, SessionRow>
    var orders: map<Id, OrderRow>
    var items: map<Id, ItemRow>
    var calls: map<Id, CallRow>
    /** What was last committed; the sweep's ROLLBACK returns to it. */
    var savepoint: Db

    function State(): Db
      reads this
    {
      Db(restaurants, tables, settings, menu, sessions, orders, items, calls)
    }

    // ----- session_service -----

    method FindOpenSession(table: Id) returns (found: Option<Id>)
      requires OneOpenPerTable(State())
      ensures found == FindOpen(State(), table)
      ensures found.Some? ==>
                found.value in sessions && sessions[found.value].table == table && sessions[found.value].status == Open
      ensures found.None? ==> forall s | s in sessions :: sessions[s].table != table || sessions[s].status != Open
    {
      found := None;
      var todo := sessions.Keys;
      while todo != {} && found == None
        invariant todo <= sessions.Keys
        invariant found.Some? ==> IsOpenAt(State(), table, found.value)
        invariant found.None? ==> forall s | s in sessions && s !in todo :: !IsOpenAt(State(), table, s)
        decreases |todo|
      {
        var s :| s in todo;
        todo := todo - {s};
        if sessions[s].table == table && sessions[s].status == Open {
          found := Some(s);
        }
      }
    }

    /** The INSERT, checked against the unique partial index. */
    method InsertSession(sid: Id, row: SessionRow) returns (inserted: bool)
      requires OneOpenPerTable(State()) && sid !in sessions && row.status == Open
      modifies this`sessions
      ensures inserted <==> forall s :: !IsOpenAt(old(State()), row.table, s)
      ensures sessions == if inserted then old(sessions)[sid := row] else old(sessions)
    {
      var holder := FindOpenSession(row.table);
      inserted := holder == None;
      if inserted {
        sessions := sessions[sid := row];
      }
    }

    /** None stands for the RuntimeError of a failed race recovery. */
    method GetOrOpen(table: Id, restaurant: Id, opener: Option<Id>, newId: Id, now: Time) returns (sid: Option<Id>)
      requires Sound(State()) && table in tables && tables[table].restaurant == restaurant && newId !in sessions
      modifies this`sessions
      ensures Performs(old(State()), Ensure(old(State()), table, opener, newId, now), State())
      ensures sid == Some(Current(old(State()), table, newId)) && IsOpenAt(State(), table, sid.value) && Sound(State())
      ensures if exists s :: s in old(sessions) && old(sessions)[s].table == table && old(sessions)[s].status == Open
              then sid.value in old(sessions) && old(sessions)[sid.value].table == table
                   && old(sessions)[sid.value].status == Open && sessions == old(sessions)
              else sid == Some(newId)
                   && sessions == old(sessions)[newId := SessionRow(restaurant, table, Open, opener, now, now,
                                                                    None, None, None)]
      ensures sid.value !in old(sessions) && restaurant in settings ==>
                forall at | at <= now + settings[restaurant].timeoutHours * 3_600 * SECOND ::
                  !(sessions[newId].lastActivity < at - settings[restaurant].timeoutHours * 3_600 * SECOND)
                  && !Stale(State(), newId, at)
    {
      ghost var before := State();
      var existing := FindOpenSession(table);
      if existing.Some? {
        PerformsNone(before);
        return existing;
      }
      var inserted := InsertSession(newId, NewSession(restaurant, table, opener, now));
      if !inserted {
        var winner := FindOpenSession(table);
        return winner;
      }
      ghost var e := OpenSession(newId, table, restaurant, opener, now);
      PerformsOne(before, e);
      EffectKeepsSound(before, e);
      return Some(newId);
    }

    /** The lookup of the table and get_or_open: by a member of staff for their own restaurant,
        who is noted as the opener, or by a guest's code, which needs an active restaurant. */
    method OpenTable(table: Id, scope: Option<Id>, opener: Option<Id>, newId: Id, now: Time) returns (sid: Option<Id>)
      requires Sound(State()) && newId !in sessions
      modifies this`sessions
      ensures Performs(old(State()), Plan(old(State()), now, Request.OpenTable(table, scope, opener, newId)), State())
      ensures sid.Some? <==>
                && table in tables && tables[table].active
                && match scope
                   case Some(r) => tables[table].restaurant == r
                   case None => tables[table].restaurant in restaurants && restaurants[tables[table].restaurant]
      ensures sid.None? ==> sessions == old(sessions)
      ensures sid.Some? ==>
                && sid.value in sessions && sessions[sid.value].table == table && sessions[sid.value].status == Open
                && sessions == if sid.value in old(sessions) then old(sessions)
                               else old(sessions)[newId := SessionRow(tables[table].restaurant, table, Open, opener,
                                                                      now, now, None, None, None)]
    {
      hide Sound, Performs, FindOpen;
      if !Resolves(State(), table, scope) {
        PerformsNone(State());
        return None;
      }
      sid := GetOrOpen(table, tables[table].restaurant, opener, newId, now);
    }

    /** get_or_open for a guest of the table. */
    method GuestSession(table: Id, newId: Id, now: Time) returns (sid: Id)
      requires Sound(State()) && table in tables && newId !in sessions
      modifies this`sessions
      ensures Performs(old(State()), Ensure(old(State()), table, None, newId, now), State())
      ensures sid == Current(old(State()), table, newId) && IsOpenAt(State(), table, sid) && Sound(State())
      ensures sid in old(sessions) ==> sessions == old(sessions)
      ensures Joined(old(State()), State().(sessions := Touched(State(), sid, now)), table, sid, now)
    {
      var found := GetOrOpen(table, tables[table].restaurant, None, newId, now);
      return found.value;
    }

    /** UPDATE table_sessions SET status = 'closed' WHERE id, restaurant and status match. */
    method CasClose(sid: Id, restaurant: Id, from: SessionStatus, now: Time) returns (won: bool)
      modifies this`sessions
      ensures won <==>
                sid in old(sessions) && old(sessions)[sid].restaurant == restaurant && old(sessions)[sid].status == from
      ensures sessions == if won then old(sessions)[sid := old(sessions)[sid].(status := Closed, closedAt := Some(now))]
                          else old(sessions)
    {
      won := sid in sessions && sessions[sid].restaurant == restaurant && sessions[sid].status == from;
      if won {
        sessions := sessions[sid := CloseRow(sessions[sid], now)];
      }
    }

    method SelectLive(sid: Id) returns (lines: seq<CancelledLine>)
      ensures Describes(lines, LiveOf(State(), sid))
    {
      lines := [];
      ghost var live := LiveOf(State(), sid);
      var todo := items.Keys;
      while todo != {}
        invariant todo <= items.Keys
        invariant Describes(lines, live - todo)
        decreases |todo|
      {
        var i :| i in todo;
        OneKeyMore(live, todo, i);
        if InSession(orders, items[i], sid) && Live(items[i].status) {
          DescribesMore(lines, live - todo, i, items[i]);
          lines := lines + [Summary(i, items[i])];
        }
        todo := todo - {i};
      }
      assert live - todo == live;
    }

    method CancelLiveItems(sid: Id, reason: string, now: Time)
      modifies this`items
      ensures items == CancelLive(old(State()), sid, reason, now)
      ensures items.Keys == old(items).Keys && forall i | i in items ::
                items[i] == if CancelledBySystem(old(State()), sid, i)
                            then old(items)[i].(status := Cancelled, cancelledBy := Some(System),
                                                cancelledAt := Some(now), reason := Some(reason))
                            else old(items)[i]
    {
      ghost var before := State();
      ghost var target := CancelLive(before, sid, reason, now);
      var todo := items.Keys;
      while todo != {}
        invariant todo <= items.Keys == before.items.Keys
        invariant forall i | i in items :: items[i] == if i in todo then before.items[i] else target[i]
        decreases |todo|
      {
        var i :| i in todo;
        todo := todo - {i};
        if InSession(orders, items[i], sid) && Live(items[i].status) {
          items := items[i := CancelRow(items[i], System, Some(reason), now)];
        }
      }
    }

    method SumServed(sid: Id) returns (total: int)
      ensures total == Bill(State(), sid)
      ensures var db := State();
              total == Sum(map i | i in db.items && db.items[i].order in db.orders
                                   && db.orders[db.items[i].order].session == sid && db.items[i].status == Served ::
                             db.items[i].price * db.items[i].quantity)
    {
      hide SumDone;
      total := 0;
      ghost var lines := ServedLines(items, orders, sid);
      var todo := items.Keys;
      SumBounds(lines, todo);
      while todo != {}
        invariant todo <= items.Keys
        invariant total == SumDone(lines, todo)
        decreases |todo|
      {
        var i :| i in todo;
        SumOneMore(lines, todo, i);
        if InSession(orders, items[i], sid) && items[i].status == Served {
          total := total + LineTotal(items[i]);
        }
        todo := todo - {i};
      }
      BillOfAmounts(State(), sid);
    }

    method DismissPending(sid: Id, restaurant: Id, now: Time) returns (count: nat)
      modifies this`calls
      ensures calls == DismissCalls(old(calls), sid, restaurant, now)
      ensures count == |PendingCalls(old(calls), sid, restaurant)|
      ensures calls.Keys == old(calls).Keys && forall c | c in calls ::
                calls[c] == if old(calls)[c].session == sid && old(calls)[c].restaurant == restaurant
                               && old(calls)[c].status == Waiting
                            then old(calls)[c].(status := Acknowledged, ackedAt := Some(now)) else old(calls)[c]
      ensures count == |set c | c in old(calls) && old(calls)[c].session == sid
                                && old(calls)[c].restaurant == restaurant && old(calls)[c].status == Waiting|
    {
      count := 0;
      ghost var before := calls;
      ghost var pending := PendingCalls(before, sid, restaurant);
      var todo := calls.Keys;
      DoneBounds(pending, todo);
      DismissBounds(before, sid, restaurant, now);
      hide CountDone, DismissedBut, DismissCalls;
      while todo != {}
        invariant todo <= before.Keys == calls.Keys
        invariant calls == DismissedBut(before, todo, sid, restaurant, now)
        invariant count == CountDone(pending, todo)
        decreases |todo|
      {
        var c :| c in todo;
        OneMoreKey(pending, todo, c);
        DismissNext(before, todo, c, sid, restaurant, now);
        if Dismissable(calls[c], sid, restaurant) {
          calls := calls[c := DismissRow(calls[c], now)];
          count := count + 1;
        }
        todo := todo - {c};
      }
      assert pending == set c | c in before && before[c].session == sid
                                && before[c].restaurant == restaurant && before[c].status == Waiting;
    }

    /** The statements between the winning compare-and-swap and the commit of a closing. */
    method Settle(sid: Id, restaurant: Id, now: Time) returns (receipt: Receipt)
      requires sid in sessions
      modifies this`sessions, this`items, this`calls
      ensures Describes(receipt.cancelled, old(LiveOf(State(), sid)))
      ensures items == CancelLive(old(State()), sid, "table_closed", now)
      ensures receipt.total == Bill(State(), sid) && receipt.dismissed == |PendingCalls(old(calls), sid, restaurant)|
      ensures sessions == old(sessions)[sid := BillRow(old(sessions)[sid], receipt.total)]
      ensures calls == DismissCalls(old(calls), sid, restaurant, now)
    {
      var lines := SelectLive(sid);
      if lines != [] {
        CancelLiveItems(sid, "table_closed", now);
      } else {
        NothingToCancel(State(), lines, sid, now);
      }
      var total := SumServed(sid);
      sessions := sessions[sid := BillRow(sessions[sid], total)];
      var dismissed := DismissPending(sid, restaurant, now);
      receipt := Receipt(total, lines, dismissed);
    }

    /** Compare-and-swap from the given status, then settle and commit. */
    method CloseAndBill(sid: Id, restaurant: Id, from: SessionStatus, now: Time) returns (receipt: Option<Receipt>)
      requires Sound(State()) && (from == Open || from == Abandoned)
      modifies this`sessions, this`items, this`calls
      ensures receipt.Some? <==>
                sid in old(sessions) && old(sessions)[sid].restaurant == restaurant && old(sessions)[sid].status == from
      ensures Performs(old(State()), if receipt.Some? then [Close(sid, from, now)] else [], State())
      ensures receipt.Some? ==>
                && Describes(receipt.value.cancelled, old(LiveOf(State(), sid)))
                && receipt.value.total == Bill(State(), sid) && ShowsTotal(State(), sid, receipt.value.total)
                && receipt.value.dismissed == |PendingCalls(old(calls), sid, restaurant)| &&
                    LiveOf(State(), sid) == map[]
      ensures receipt.Some? ==> BilledOut(old(State()), State(), sid, restaurant, now, receipt.value)
      ensures receipt.Some? ==> receipt.value.total == Bill(old(State()), sid)
      ensures receipt.None? ==> State() == old(State())
    {
      ghost var before := State();
      var won := CasClose(sid, restaurant, from, now);
      if !won {
        PerformsNone(before);
        return None;
      }
      var r := Settle(sid, restaurant, now);
      SettledIsClose(before, State(), sid, from, now, r);
      ClosingBillsOut(before, State(), sid, restaurant, now, r);
      CancelKeepsServed(before, sid, "table_closed", now, sid);
      return Some(r);
    }

    method Checkout(sid: Id, restaurant: Id, now: Time) returns (receipt: Option<Receipt>)
      requires Sound(State())
      modifies this`sessions, this`items, this`calls
      ensures Performs(old(State()), Plan(old(State()), now, Request.Checkout(sid, restaurant)), State())
      ensures receipt.Some? <==>
                sid in old(sessions) && old(sessions)[sid].restaurant == restaurant && old(sessions)[sid].status == Open
      ensures receipt.Some? ==>
                && Describes(receipt.value.cancelled, old(LiveOf(State(), sid)))
                && receipt.value.total == Bill(State(), sid) && ShowsTotal(State(), sid, receipt.value.total)
                && receipt.value.dismissed == |PendingCalls(old(calls), sid, restaurant)| &&
                    LiveOf(State(), sid) == map[]
      ensures receipt.Some? ==> BilledOut(old(State()), State(), sid, restaurant, now, receipt.value)
      ensures receipt.Some? ==>
                && sid in sessions && sessions[sid].status == Closed && sessions[sid].closedAt == Some(now)
                && sessions[sid].total == Some(receipt.value.total)
      ensures var db := old(State());
              receipt.Some? ==>
                receipt.value.total
                == Sum(map i | i in db.items && db.items[i].order in db.orders
                               && db.orders[db.items[i].order].session == sid && db.items[i].status == Served ::
                         db.items[i].price * db.items[i].quantity)
      ensures receipt.None? ==> State() == old(State())
    {
      BillOfAmounts(State(), sid);
      receipt := CloseAndBill(sid, restaurant, Open, now);
    }

    method Restore(sid: Id, restaurant: Id, now: Time) returns (outcome: RestoreOutcome)
      requires Sound(State())
      modifies this`sessions, this`items, this`calls
      ensures Performs(old(State()), Plan(old(State()), now, Request.Restore(sid, restaurant)), State())
      ensures outcome != Lost && outcome != MissingStamp
      ensures outcome == NotFound <==> !(sid in old(sessions) && old(sessions)[sid].restaurant == restaurant)
      ensures outcome == NotAbandoned <==>
                sid in old(sessions) && old(sessions)[sid].restaurant == restaurant &&
                    old(sessions)[sid].status != Abandoned
      ensures outcome == TooOld <==>
                && sid in old(sessions) && old(sessions)[sid].restaurant == restaurant
                && old(sessions)[sid].status == Abandoned && old(sessions)[sid].abandonedAt.Some?
                && now - old(sessions)[sid].abandonedAt.value > 24 * 3_600 * SECOND
      ensures outcome == Reopened <==>
                && sid in old(sessions) && old(sessions)[sid].restaurant == restaurant
                && old(sessions)[sid].status == Abandoned && old(sessions)[sid].abandonedAt.Some?
                && now - old(sessions)[sid].abandonedAt.value <= 24 * 3_600 * SECOND
                && forall s | s in old(sessions) ::
                     old(sessions)[s].table != old(sessions)[sid].table || old(sessions)[s].status != Open
      ensures outcome.CheckedOut? <==>
                && sid in old(sessions) && old(sessions)[sid].restaurant == restaurant
                && old(sessions)[sid].status == Abandoned && old(sessions)[sid].abandonedAt.Some?
                && now - old(sessions)[sid].abandonedAt.value <= 24 * 3_600 * SECOND
                && exists s :: s in old(sessions) && old(sessions)[s].table == old(sessions)[sid].table
                               && old(sessions)[s].status == Open
      ensures outcome == Reopened ==>
                && sessions == old(sessions)[sid := old(sessions)[sid].(status := Open, abandonedAt := None,
                                                                        lastActivity := now)]
                && items == old(items) && calls == old(calls)
      ensures outcome.CheckedOut? ==>
                && Describes(outcome.receipt.cancelled, old(LiveOf(State(), sid)))
                && outcome.receipt.total == Bill(State(), sid) && ShowsTotal(State(), sid, outcome.receipt.total)
                && outcome.receipt.dismissed == |PendingCalls(old(calls), sid, restaurant)| &&
                    LiveOf(State(), sid) == map[]
      ensures outcome.CheckedOut? ==> BilledOut(old(State()), State(), sid, restaurant, now, outcome.receipt)
      ensures var db := old(State());
              outcome.CheckedOut? ==>
                outcome.receipt.total
                == Sum(map i | i in db.items && db.items[i].order in db.orders
                               && db.orders[db.items[i].order].session == sid && db.items[i].status == Served ::
                         db.items[i].price * db.items[i].quantity)
      ensures outcome != Reopened && !outcome.CheckedOut? ==> State() == old(State())
    {
      hide Plan, Apply, Valid, ApplyAll;
      ghost var before := State();
      PerformsNone(before);
      RestorePlan(before, now, sid, restaurant);
      BillOfAmounts(before, sid);
      if sid !in sessions || sessions[sid].restaurant != restaurant {
        return NotFound;
      }
      var row := sessions[sid];
      assert SessionShape(row);
      if row.status != Abandoned {
        return NotAbandoned;
      }
      if row.abandonedAt == None {
        return MissingStamp;
      }
      if now - row.abandonedAt.value > RESTORE_LIMIT {
        return TooOld;
      }
      var existing := FindOpenSession(row.table);
      if existing == None {
        if sessions[sid].status != Abandoned {
          return Lost;
        }
        sessions := sessions[sid := ReopenRow(sessions[sid], now)];
        ReopenCommits(before, State(), sid, now);
        return Reopened;
      }
      var receipt := CloseAndBill(sid, restaurant, Abandoned, now);
      if receipt == None {
        return Lost;
      }
      return CheckedOut(receipt.value);
    }

    // ----- item_state_service -----

    /** UPDATE table_sessions SET last_activity_at of the session an order belongs to. */
    method TouchSessionOf(order: Id, now: Time)
      modifies this`sessions
      ensures sessions == if order in orders && orders[order].session in old(sessions)
                          then old(sessions)[orders[order].session :=
                            old(sessions)[orders[order].session].(lastActivity := now)]
                          else old(sessions)
    {
      if order in orders && orders[order].session in sessions {
        var sid := orders[order].session;
        sessions := sessions[sid := TouchRow(sessions[sid], now)];
      }
    }

    method SetStatus(item: Id, to: ItemStatus, actor: Option<Id>, restaurant: Id, now: Time)
        returns (outcome: MoveOutcome)
      requires Sound(State())
      modifies this`sessions, this`items
      ensures Performs(old(State()), Plan(old(State()), now, Request.SetStatus(item, to, actor, restaurant)), State())
      ensures outcome == InvalidTransition <==> to == Cancelled
      ensures outcome.Changed? <==>
                item in old(items) && old(items)[item].restaurant == restaurant
                && Move(old(items)[item], to, actor, now).Some?
      ensures outcome.Changed? <==>
                && item in old(items) && old(items)[item].restaurant == restaurant
                && match to
                   case Cooking => old(items)[item].status == Pending
                   case Ready => old(items)[item].status == Pending || old(items)[item].status == Cooking
                   case Served => old(items)[item].status == Pending || old(items)[item].status == Cooking
                               || old(items)[item].status == Ready
                   case Pending => old(items)[item].status == Served && old(items)[item].servedAt.Some?
                                   && now - old(items)[item].servedAt.value <= 120 * SECOND
                   case Cancelled => false
      ensures outcome.Changed? ==>
                && items == old(items)[item := outcome.row]
                && outcome.row == (match to
                                   case Served => old(items)[item].(status := Served, servedBy := actor,
                                                                    servedAt := Some(now))
                                   case Pending => old(items)[item].(status := Pending, servedBy := None,
                                                                     servedAt := None)
                                   case _ => old(items)[item].(status := to))
                && TouchedOnly(old(State()), State(), item, now)
      ensures !outcome.Changed? ==> State() == old(State())
    {
      hide Plan, Performs, Sound;
      ghost var before := State();
      MovePlan(before, now, item, to, actor, restaurant);
      if to == Cancelled {
        return InvalidTransition;
      }
      var allowed := AllowedFrom(to);
      if item !in items || items[item].restaurant != restaurant || items[item].status !in allowed {
        return Conflict;
      }
      var row := items[item];
      if to == Pending {
        if row.servedAt == None || now - row.servedAt.value > UNDO_WINDOW {
          return Conflict;
        }
        row := row.(status := to, servedBy := None, servedAt := None);
      } else if to == Served {
        row := row.(status := to, servedBy := actor, servedAt := Some(now));
      } else {
        row := row.(status := to);
      }
      items := items[item := row];
      TouchSessionOf(row.order, now);
      return Changed(row);
    }

    /** For whatever statuses the caller allows; the two callers allow live ones only, and then
        it is the cancellation of one live item. */
    method CancelOne(item: Id, who: Canceller, restaurant: Id, allowed: set<ItemStatus>, reason: Option<string>,
        now: Time)
      returns (row: Option<ItemRow>)
      requires Sound(State())
      modifies this`sessions, this`items
      ensures row.Some? <==>
                item in old(items) && old(items)[item].restaurant == restaurant && old(items)[item].status in allowed
      ensures row.Some? ==>
                && HasSession(old(State()), item) && row.value == CancelRow(old(items)[item], who, reason, now)
                && items == old(items)[item := row.value]
                && sessions == Touched(old(State()), SessionOf(old(State()), item), now)
      ensures row.Some? ==>
                && items == old(items)[item := old(items)[item].(status := Cancelled, cancelledBy := Some(who),
                                                                 cancelledAt := Some(now), reason := reason)]
                && TouchedOnly(old(State()), State(), item, now)
      ensures row.None? ==> items == old(items) && sessions == old(sessions)
      ensures (forall s | s in allowed :: Live(s)) ==>
                Performs(old(State()), if row.Some? then [CancelItem(item, who, reason, now)] else [], State())
    {
      ghost var before := State();
      if item !in items || items[item].restaurant != restaurant || items[item].status !in allowed {
        PerformsNone(before);
        return None;
      }
      ItemHasSession(before, item);
      var cancelled := CancelRow(items[item], who, reason, now);
      items := items[item := cancelled];
      TouchSessionOf(cancelled.order, now);
      if forall s | s in allowed :: Live(s) {
        PerformsOne(before, CancelItem(item, who, reason, now));
      }
      return Some(cancelled);
    }

    method StaffCancel(item: Id, reason: Option<string>, restaurant: Id, now: Time) returns (row: Option<ItemRow>)
      requires Sound(State())
      modifies this`sessions, this`items
      ensures Performs(old(State()), Plan(old(State()), now, Request.StaffCancel(item, reason, restaurant)), State())
      ensures row.Some? <==>
                item in old(items) && old(items)[item].restaurant == restaurant && Live(old(items)[item].status)
      ensures row.Some? <==>
                && item in old(items) && old(items)[item].restaurant == restaurant
                && (old(items)[item].status == Pending || old(items)[item].status == Cooking
                    || old(items)[item].status == Ready)
      ensures row.Some? ==>
                && items == old(items)[item := row.value] && TouchedOnly(old(State()), State(), item, now)
                && row.value == old(items)[item].(status := Cancelled, cancelledBy := Some(Staff),
                                                  cancelledAt := Some(now), reason := reason)
      ensures row.None? ==> State() == old(State())
    {
      row := CancelOne(item, Staff, restaurant, {Pending, Cooking, Ready}, reason, now);
    }

    /** The customer's cancel: get_or_open, then only a pending item of that session. */
    method CustomerCancel(table: Id, item: Id, reason: Option<string>, newId: Id, now: Time)
        returns (row: Option<ItemRow>)
      requires Sound(State()) && newId !in sessions
      modifies this`sessions, this`items
      ensures Performs(old(State()), Plan(old(State()), now, Request.CustomerCancel(table, item, reason, newId)),
          State())
      ensures row.Some? <==>
                && Resolves(old(State()), table, None) && item in old(items) && old(items)[item].status == Pending
                && InSession(old(orders), old(items)[item], Current(old(State()), table, newId))
                && old(items)[item].restaurant == old(tables)[table].restaurant
      ensures row.Some? <==>
                && TakesRequests(old(State()), table) && item in old(items) && old(items)[item].status == Pending
                && old(items)[item].restaurant == old(tables)[table].restaurant && old(items)[item].order in orders
                && var s := orders[old(items)[item].order].session;
                   s in old(sessions) && old(sessions)[s].table == table && old(sessions)[s].status == Open
      ensures row.Some? ==>
                && items == old(items)[item := row.value] && TouchedOnly(old(State()), State(), item, now)
                && row.value == old(items)[item].(status := Cancelled, cancelledBy := Some(Customer),
                                                  cancelledAt := Some(now), reason := reason)
      ensures row.None? ==> items == old(items)
    {
      hide Apply, Valid, ApplyAll, Sound, Guard, FindOpen;
      ghost var before := State();
      if !Resolves(State(), table, None) {
        PerformsNone(before);
        return None;
      }
      if item in items { ItemOfCurrent(before, table, newId, item); }
      var restaurant := tables[table].restaurant;
      var sid := GuestSession(table, newId, now);
      ghost var ready := State();
      if item !in items || !InSession(orders, items[item], sid) || items[item].restaurant != restaurant {
        row := None;
        PerformsNone(ready);
      } else {
        row := CancelOne(item, Customer, restaurant, {Pending}, reason, now);
      }
      PerformsThen(before, Ensure(before, table, None, newId, now), ready,
                  if row.Some? then [CancelItem(item, Customer, reason, now)] else [], State());
    }

    // ----- create_order -----

    /** The menu row of every line, or the first line that cannot be ordered. */
    method ValidateLines(restaurant: Id, lines: seq<Line>) returns (bad: Option<nat>, dishes: map<Id, MenuRow>)
      ensures bad.None? <==> AllOrderable(menu, restaurant, lines)
      ensures bad.Some? ==> bad.value < |lines| && !Orderable(menu, restaurant, lines[bad.value])
                            && AllOrderable(menu, restaurant, lines[..bad.value])
      ensures forall m | m in dishes :: m in menu && dishes[m] == menu[m]
      ensures bad.None? ==> forall l | l in lines :: l.menuItem in dishes
    {
      dishes := map[];
      for k := 0 to |lines|
        invariant forall j | 0 <= j < k :: Orderable(menu, restaurant, lines[j]) && lines[j].menuItem in dishes
        invariant forall m | m in dishes :: m in menu && dishes[m] == menu[m]
      {
        var m := lines[k].menuItem;
        if m !in menu || menu[m].restaurant != restaurant || !menu[m].active || !menu[m].available {
          assert !Orderable(menu, restaurant, lines[k]) && lines[k] in lines;
          return Some(k), dishes;
        }
        dishes := dishes[m := menu[m]];
      }
      return None, dishes;
    }

    /** One row per line; the lookup in the validated dishes never fails. */
    method InsertLines(restaurant: Id, order: Id, lines: seq<Line>, ids: seq<Id>, dishes: map<Id, MenuRow>, now: Time)
      requires AllOrderable(menu, restaurant, lines) && |ids| == |lines|
      requires forall m | m in dishes :: m in menu && dishes[m] == menu[m]
      requires forall l | l in lines :: l.menuItem in dishes
      modifies this`items
      ensures items == old(items) + LineRows(menu, restaurant, order, lines, ids, now)
      ensures items.Keys == old(items).Keys + (set i | i in ids)
      ensures forall i | i in old(items) && i !in ids :: items[i] == old(items)[i]
      ensures Distinct(ids) ==>
                forall k | 0 <= k < |lines| ::
                  lines[k].menuItem in menu
                  && Records(items[ids[k]], menu[lines[k].menuItem], restaurant, order, lines[k], now)
    {
      ghost var before := State();
      assert items == before.items + LineRows(menu, restaurant, order, lines[..0], ids[..0], now);
      hide LineRows, NewItem, Records;
      for k := 0 to |lines|
        invariant items == before.items + LineRows(menu, restaurant, order, lines[..k], ids[..k], now)
      {
        assert lines[k] in lines;
        LineRowsGrow(menu, restaurant, order, lines, ids, now, k);
        var dish := dishes[lines[k].menuItem];
        items := items[ids[k] := NewItem(restaurant, order, lines[k].menuItem, dish, lines[k].quantity,
            lines[k].note, now)];
      }
      assert lines[..|lines|] == lines && ids[..|lines|] == ids;
      RowsInserted(before.items, menu, restaurant, order, lines, ids, now);
    }

    /** The order, its lines and the session's new activity stamp. */
    method WriteOrder(sid: Id, table: Id, order: Id, lines: seq<Line>, ids: seq<Id>, dishes: map<Id, MenuRow>,
        now: Time)
      requires Sound(State()) && table in tables && IsOpenAt(State(), table, sid) && order !in orders
      requires AllOrderable(menu, tables[table].restaurant, lines) && |ids| == |lines|
      requires (forall l | l in lines :: l.quantity > 0) && forall i | i in ids :: i !in items
      requires forall m | m in dishes :: m in menu && dishes[m] == menu[m]
      requires forall l | l in lines :: l.menuItem in dishes
      modifies this`sessions, this`orders, this`items
      ensures var r := tables[table].restaurant;
              Performs(old(State()),
                  [PlaceOrder(order, sid, r, LineRows(menu, r, order, lines, ids, now), now)], State())
    {
      ghost var before := State();
      var restaurant := tables[table].restaurant;
      orders := orders[order := OrderRow(restaurant, sid)];
      ghost var placing := State();
      InsertLines(restaurant, order, lines, ids, dishes, now);
      sessions := sessions[sid := TouchRow(sessions[sid], now)];
      PlaceCommits(before, State(), table, lines, ids,
                   PlaceOrder(order, sid, restaurant, LineRows(menu, restaurant, order, lines, ids, now), now));
    }

    method CreateOrder(table: Id, lines: seq<Line>, newId: Id, order: Id, ids: seq<Id>, now: Time)
        returns (outcome: OrderOutcome)
      requires Sound(State()) && Legal(State(), now, now, Submit(table, lines, newId, order, ids))
      modifies this`sessions, this`orders, this`items
      ensures Performs(old(State()), Plan(old(State()), now, Submit(table, lines, newId, order, ids)), State())
      ensures outcome == NoTable <==> !TakesRequests(old(State()), table)
      ensures outcome != SessionEnded
      ensures outcome == Placed(order) <==>
                TakesRequests(old(State()), table)
                && forall k | 0 <= k < |lines| ::
                     && lines[k].menuItem in menu && menu[lines[k].menuItem].restaurant == tables[table].restaurant
                     && menu[lines[k].menuItem].active && menu[lines[k].menuItem].available
      ensures outcome == Placed(order) ==> O.Placed(old(State()), State(), table, order, lines, ids, now)
      ensures outcome.Refused? ==>
                && outcome.line < |lines| && OnMenu(menu, tables[table].restaurant, lines[..outcome.line])
                && var m := lines[outcome.line].menuItem;
                   !(m in menu && menu[m].restaurant == tables[table].restaurant && menu[m].active && menu[m].available)
      ensures outcome.Placed? ==> outcome.order == order
      ensures outcome != Placed(order) ==> orders == old(orders) && items == old(items)
    {
      hide Apply, Valid, ApplyAll, Sound, Guard;
      ghost var before := State();
      if !Resolves(State(), table, None) {
        PerformsNone(before);
        return NoTable;
      }
      var restaurant := tables[table].restaurant;
      OnMenuIsOrderable(menu, restaurant, lines);
      var sid := GuestSession(table, newId, now);
      ghost var ready := State();
      if sessions[sid].status != Open {
        return SessionEnded;
      }
      var bad, dishes := ValidateLines(restaurant, lines);
      if bad.Some? {
        OnMenuIsOrderable(menu, restaurant, lines[..bad.value]);
        PerformsNone(ready);
        PerformsThen(before, Ensure(before, table, None, newId, now), ready, [], ready);
        return Refused(bad.value);
      }
      WriteOrder(sid, table, order, lines, ids, dishes, now);
      ghost var e := PlaceOrder(order, sid, restaurant, LineRows(menu, restaurant, order, lines, ids, now), now);
      PerformsThen(before, Ensure(before, table, None, newId, now), ready, [e], State());
      OrderPlaced(before, State(), table, lines, newId, order, ids, now);
      return Placed(order);
    }

    // ----- staff_call_service -----

    method RecentCall(table: Id, cooldown: int, now: Time) returns (recent: bool)
      ensures recent <==>
                exists c | c in calls :: calls[c].table == table && calls[c].createdAt > now - cooldown * SECOND
    {
      recent := false;
      var todo := calls.Keys;
      while todo != {} && !recent
        invariant todo <= calls.Keys
        invariant recent ==>
                  exists c | c in calls :: calls[c].table == table && calls[c].createdAt > now - cooldown * SECOND
        invariant !recent ==> forall c | c in calls &&
            c !in todo :: !(calls[c].table == table && calls[c].createdAt > now - cooldown * SECOND)
        decreases |todo|
      {
        var c :| c in todo;
        todo := todo - {c};
        if calls[c].table == table && calls[c].createdAt > now - cooldown * SECOND {
          recent := true;
        }
      }
    }

    /** The call and the session's new activity stamp. */
    method WriteCall(sid: Id, table: Id, call: Id, now: Time)
      requires Sound(State()) && table in tables && IsOpenAt(State(), table, sid) && call !in calls
      modifies this`sessions, this`calls
      ensures Performs(old(State()), [NewCall(call, sid, now)], State())
      ensures calls == old(calls)[call := CallRow(tables[table].restaurant, table, sid, Waiting, now, None, None)]
      ensures sessions == Touched(old(State()), sid, now)
    {
      ghost var before := State();
      calls := calls[call := CallRow(tables[table].restaurant, table, sid, Waiting, now, None, None)];
      sessions := sessions[sid := TouchRow(sessions[sid], now)];
      CallCommits(before, State(), NewCall(call, sid, now), table);
    }

    method CallStaff(table: Id, newId: Id, call: Id, now: Time) returns (created: bool)
      requires Sound(State()) && newId !in sessions && call !in calls
      modifies this`sessions, this`calls
      ensures Performs(old(State()), Plan(old(State()), now, Request.CallStaff(table, newId, call)), State())
      ensures created <==>
                && TakesRequests(old(State()), table)
                && var r := tables[table].restaurant;
                   var cooldown := if r in settings then settings[r].cooldownSeconds else 60;
                   forall c | c in old(calls) && old(calls)[c].table == table ::
                     old(calls)[c].createdAt <= now - cooldown * SECOND
      ensures created ==>
                && call in calls
                && calls == old(calls)[call := CallRow(tables[table].restaurant, table, calls[call].session, Waiting,
                                                       now, None, None)]
                && Joined(old(State()), State(), table, calls[call].session, now)
      ensures !created ==> calls == old(calls)
    {
      hide Apply, Valid, ApplyAll, Sound, Performs, FindOpen, Current, Joined;
      ghost var before := State();
      if !Resolves(State(), table, None) {
        PerformsNone(before);
        return false;
      }
      var restaurant := tables[table].restaurant;
      var sid := GuestSession(table, newId, now);
      ghost var ready := State();
      var cooldown := if restaurant in settings then settings[restaurant].cooldownSeconds else DEFAULT_COOLDOWN_SECONDS;
      var recent := RecentCall(table, cooldown, now);
      if recent {
        PerformsNone(ready);
        PerformsThen(before, Ensure(before, table, None, newId, now), ready, [], ready);
        return false;
      }
      WriteCall(sid, table, call, now);
      O.JoinedBySessions(before, ready, State(), table, sid, now);
      PerformsThen(before, Ensure(before, table, None, newId, now), ready, [NewCall(call, sid, now)], State());
      return true;
    }

    /** None when no such call; a call acknowledged before stays as it is. */
    method AckCall(call: Id, staff: Id, restaurant: Id, now: Time) returns (row: Option<CallRow>)
      requires Sound(State())
      modifies this`calls
      ensures Performs(old(State()), Plan(old(State()), now, Request.Ack(call, staff, restaurant)), State())
      ensures row.Some? <==> call in old(calls) && old(calls)[call].restaurant == restaurant
      ensures row.Some? ==> call in calls && row.value == calls[call] && row.value.status == Acknowledged
      ensures calls == if row.Some? && old(calls)[call].status == Waiting
                       then old(calls)[call := old(calls)[call].(status := Acknowledged, ackedAt := Some(now),
                                                                 ackedBy := Some(staff))]
                       else old(calls)
    {
      ghost var before := State();
      PerformsNone(before);
      if call !in calls || calls[call].restaurant != restaurant {
        return None;
      }
      if calls[call].status == Acknowledged {
        return Some(calls[call]);
      }
      calls := calls[call := calls[call].(status := Acknowledged, ackedAt := Some(now), ackedBy := Some(staff))];
      PerformsOne(before, Effect.AckCall(call, staff, now));
      return Some(calls[call]);
    }

    // ----- the abandon sweep -----

    method ScanStale(now: Time) returns (rows: seq<Id>)
      ensures Distinct(rows) && forall s :: s in rows <==> Stale(State(), s, now)
      ensures forall s :: s in rows <==>
                && s in sessions && sessions[s].status == Open && sessions[s].restaurant in settings
                && sessions[s].lastActivity < now - settings[sessions[s].restaurant].timeoutHours * 3_600 * SECOND
    {
      rows := [];
      var todo := sessions.Keys;
      while todo != {}
        invariant todo <= sessions.Keys
        invariant Distinct(rows)
        invariant forall s :: s in rows <==> Stale(State(), s, now) && s !in todo
        decreases |todo|
      {
        var s :| s in todo;
        todo := todo - {s};
        if sessions[s].status == Open && sessions[s].restaurant in settings
           && sessions[s].lastActivity < now - settings[sessions[s].restaurant].timeoutHours * HOUR {
          rows := rows + [s];
        }
      }
    }

    method Commit()
      modifies this`savepoint
      ensures savepoint == State()
    {
      savepoint := State();
    }

    method Rollback()
      modifies this
      ensures State() == savepoint == old(savepoint)
    {
      restaurants, tables, settings, menu := savepoint.restaurants, savepoint.tables, savepoint.settings,
          savepoint.menu;
      sessions, orders, items, calls := savepoint.sessions, savepoint.orders, savepoint.items, savepoint.calls;
    }

    /** One session of the sweep, raising where the fault says. */
    method AbandonSession(sid: Id, restaurant: Id, now: Time, fault: Fault) returns (raised: bool)
      requires Sound(State()) && savepoint == State()
      requires sid in sessions && sessions[sid].restaurant == restaurant
      modifies this`sessions, this`items, this`calls, this`savepoint
      ensures !Is(old(State()), sid, Open) ==> State() == savepoint == old(State())
      ensures Is(old(State()), sid, Open) && (fault == NoFault || fault == AfterCommit) ==>
                && Performs(old(State()), [Abandon(sid, now)], State()) && savepoint == State()
                && SweepLaws.FullyAbandoned(old(State()), State(), sid, now)
      ensures Is(old(State()), sid, Open) && fault != NoFault && fault != AfterCommit ==>
                raised && savepoint == old(State())
    {
      hide CancelLive, DismissCalls, Performs, Sound, SweepLaws.FullyAbandoned, CancelledBySystem;
      ghost var before := State();
      if fault == AtCas { return true; }
      if sessions[sid].status != Open { return false; }
      sessions := sessions[sid := AbandonRow(sessions[sid], now)];
      if fault == AtCancel { return true; }
      ghost var marked := State();
      CancelLiveItems(sid, "session_abandoned", now);
      if fault == AtDismiss { return true; }
      var _ := DismissPending(sid, restaurant, now);
      if fault == AtCommit { return true; }
      AbandonCommits(before, marked, State(), sid, now);
      Commit();
      return fault == AfterCommit;
    }

    /** For any pattern of failures the sweep commits exactly the sessions that did not fail
        before their commit, each whole. */
    method RunSweep(faults: map<Id, Fault>, now: Time) returns (rows: seq<Id>)
      requires Sound(State())
      modifies this
      ensures Distinct(rows) && forall s :: s in rows <==> Stale(old(State()), s, now)
      ensures Performs(old(State()), AbandonAll(rows, RolledBack(faults), now), State())
      ensures forall s ::
                if s in rows && (s in faults ==> faults[s] == NoFault || faults[s] == AfterCommit)
                then SweepLaws.FullyAbandoned(old(State()), State(), s, now)
                else SweepLaws.Untouched(old(State()), State(), s)
    {
      hide Stale, Performs, Sound, SweepLaws.FullyAbandoned, SweepLaws.Untouched;
      ghost var before := State();
      ghost var failed := RolledBack(faults);
      Commit();
      rows := ScanStale(now);
      PerformsNone(before);
      var k := 0;
      while k < |rows|
        invariant 0 <= k <= |rows|
        invariant savepoint == State() && Sound(State())
        invariant Performs(before, AbandonAll(rows[..k], failed, now), State())
      {
        var sid := rows[k];
        NextRow(before, State(), rows, failed, now, k);
        ghost var current := State();
        var fault := if sid in faults then faults[sid] else NoFault;
        var raised := AbandonSession(sid, sessions[sid].restaurant, now, fault);
        if raised {
          Rollback();
        }
        OneMoreRow(before, current, State(), rows, failed, now, k);
        k := k + 1;
      }
      assert rows[..k] == rows;
      SweptWhole(before, State(), rows, failed, now);
    }
  }

  lemma LineRowsGrow(menu: map<Id, MenuRow>, r: Id, order: Id, lines: seq<Line>, ids: seq<Id>, now: Time, k: nat)
    requires AllOrderable(menu, r, lines) && |ids| == |lines| && k < |lines|
    ensures lines[k].menuItem in menu
    ensures LineRows(menu, r, order, lines[..k + 1], ids[..k + 1], now)
            == LineRows(menu, r, order, lines[..k], ids[..k], now)[ids[k] := LineRow(menu, r, order, lines[k], now)]
  {
    assert lines[k] in lines;
    assert lines[..k + 1][..k] == lines[..k] && ids[..k + 1][..k] == ids[..k];
  }

  /** The new rows are the ones the lines ask for, and the old rows stay. */
  lemma RowsInserted(items: map<Id, ItemRow>, menu: map<Id, MenuRow>, r: Id, order: Id, lines: seq<Line>, ids: seq<Id>,
      now: Time)
    requires AllOrderable(menu, r, lines) && |ids| == |lines|
    ensures var all := items + LineRows(menu, r, order, lines, ids, now);
            && all.Keys == items.Keys + (set i | i in ids)
            && (forall i | i in items && i !in ids :: all[i] == items[i])
            && (Distinct(ids) ==>
                  forall k | 0 <= k < |lines| ::
                    lines[k].menuItem in menu
                    && Records(all[ids[k]], menu[lines[k].menuItem], r, order, lines[k], now))
  {
    O.LineRowKeys(menu, r, order, lines, ids, now);
    if Distinct(ids) { O.RowsRecord(menu, r, order, lines, ids, now); }
  }

  lemma DescribesMore(lines: seq<CancelledLine>, rows: map<Id, ItemRow>, i: Id, row: ItemRow)
    requires Describes(lines, rows) && i !in rows
    ensures Describes(lines + [Summary(i, row)], rows[i := row])
  {
    var more := lines + [Summary(i, row)];
    forall x | x in rows[i := row] ensures Lists(more, x) {
      if x == i {
        assert more[|lines|].id == i;
      } else {
        assert Lists(lines, x);
        var k :| 0 <= k < |lines| && lines[k].id == x;
        assert more[k].id == x;
      }
    }
  }

  /** With nothing to list there is nothing the skipped UPDATE would have changed. */
  lemma NothingToCancel(db: Db, lines: seq<CancelledLine>, sid: Id, now: Time)
    requires Describes(lines, LiveOf(db, sid)) && lines == []
    ensures CancelLive(db, sid, "table_closed", now) == db.items
  {
    forall i | i in db.items ensures CancelLive(db, sid, "table_closed", now)[i] == db.items[i] {
      assert i !in LiveOf(db, sid);
    }
  }

  /** The bulk UPDATE of the items does not depend on the session row just written. */
  lemma CancelAgain(a: Db, b: Db, sid: Id, now: Time)
    requires a.items == b.items && a.orders == b.orders
    ensures CancelLive(a, sid, "session_abandoned", now) == CancelLive(b, sid, "session_abandoned", now)
  {
  }

  /** A row the sweep has not come to is still as it was scanned. */
  lemma NextRow(before: Db, current: Db, rows: seq<Id>, failed: set<Id>, now: Time, k: nat)
    requires Sound(before) && k < |rows| && Distinct(rows) && forall s | s in rows :: Stale(before, s, now)
    requires Performs(before, AbandonAll(rows[..k], failed, now), current)
    ensures Is(current, rows[k], Open)
  {
    assert rows[k] !in rows[..k];
    assert rows[k] in rows && forall s | s in rows[..k] :: s in rows;
    SweepLaws.SweepSteps(before, rows[..k], failed, now, rows[k]);
  }

  lemma SweptWhole(db: Db, db': Db, rows: seq<Id>, failed: set<Id>, now: Time)
    requires Sound(db) && Distinct(rows) && forall s | s in rows :: Stale(db, s, now)
    requires Performs(db, AbandonAll(rows, failed, now), db')
    ensures forall s :: if s in rows && s !in failed then SweepLaws.FullyAbandoned(db, db', s, now)
                        else SweepLaws.Untouched(db, db', s)
  {
    hide SweepLaws.FullyAbandoned, SweepLaws.Untouched;
    forall s ensures if s in rows && s !in failed then SweepLaws.FullyAbandoned(db, db', s, now)
                     else SweepLaws.Untouched(db, db', s) {
      SweepLaws.SweepSteps(db, rows, failed, now, s);
    }
  }

  lemma AbandonCommits(db: Db, marked: Db, db': Db, sid: Id, now: Time)
    requires Sound(db) && Is(db, sid, Open) && marked == db.(sessions := marked.sessions)
    requires db' == db.(items := CancelLive(marked, sid, "session_abandoned", now),
                        sessions := db.sessions[sid := AbandonRow(db.sessions[sid], now)],
                        calls := DismissCalls(db.calls, sid, db.sessions[sid].restaurant, now))
    ensures Performs(db, [Abandon(sid, now)], db') && SweepLaws.FullyAbandoned(db, db', sid, now)
  {
    hide CancelLive, DismissCalls, SweepLaws.FullyAbandoned;
    CancelAgain(db, marked, sid, now);
    PerformsOne(db, Abandon(sid, now));
    SweepLaws.AbandonIsFull(db, sid, now);
  }

  lemma {:induction false} AbandonAllAppend(rows: seq<Id>, more: Id, failed: set<Id>, now: Time)
    ensures AbandonAll(rows + [more], failed, now)
            == AbandonAll(rows, failed, now) + if more in failed then [] else [Abandon(more, now)]
  {
    if rows != [] {
      AbandonAllAppend(rows[1..], more, failed, now);
      assert (rows + [more])[1..] == rows[1..] + [more];
    }
  }

  lemma OneMoreRow(before: Db, current: Db, next: Db, rows: seq<Id>, failed: set<Id>, now: Time, k: nat)
    requires Sound(current) && k < |rows| && Performs(before, AbandonAll(rows[..k], failed, now), current)
    requires rows[k] in failed ==> next == current
    requires rows[k] !in failed ==> Performs(current, [Abandon(rows[k], now)], next)
    ensures Sound(next) && Performs(before, AbandonAll(rows[..k + 1], failed, now), next)
  {
    assert rows[..k + 1] == rows[..k] + [rows[k]];
    AbandonAllAppend(rows[..k], rows[k], failed, now);
    if rows[k] in failed {
      PerformsNone(current);
      PerformsThen(before, AbandonAll(rows[..k], failed, now), current, [], next);
    } else {
      PerformsThen(before, AbandonAll(rows[..k], failed, now), current, [Abandon(rows[k], now)], next);
      EffectsKeepSound(current, [Abandon(rows[k], now)]);
    }
  }

  lemma MovePlan(db: Db, now: Time, item: Id, to: ItemStatus, actor: Option<Id>, restaurant: Id)
    requires Sound(db)
    ensures var plan := Plan(db, now, Request.SetStatus(item, to, actor, restaurant));
            if item in db.items && db.items[item].restaurant == restaurant && Move(db.items[item], to, actor, now).Some?
            then && HasSession(db, item)
                 && Performs(db, plan, db.(items := db.items[item := Move(db.items[item], to, actor, now).value],
                                          sessions := Touched(db, SessionOf(db, item), now)))
            else Performs(db, plan, db)
  {
    if item in db.items && db.items[item].restaurant == restaurant && Move(db.items[item], to, actor, now).Some? {
      ItemHasSession(db, item);
      PerformsOne(db, MoveItem(item, to, actor, now));
    }
  }

  /** The session get_or_open returns holds an item exactly when it was open before. */
  lemma ItemOfCurrent(db: Db, table: Id, newId: Id, item: Id)
    requires Sound(db) && newId !in db.sessions && item in db.items
    ensures InSession(db.orders, db.items[item], Current(db, table, newId)) <==>
              && db.items[item].order in db.orders
              && var s := db.orders[db.items[item].order].session;
                 s in db.sessions && db.sessions[s].table == table && db.sessions[s].status == Open
  {
    ItemHasSession(db, item);
    var s := db.orders[db.items[item].order].session;
    assert s in db.sessions && db.sessions[s].table == table && db.sessions[s].status == Open ==>
        IsOpenAt(db, table, s);
  }

  lemma OrderPlaced(db: Db, db': Db, table: Id, lines: seq<Line>, newId: Id, order: Id, ids: seq<Id>, now: Time)
    requires Sound(db) && Legal(db, now, now, Submit(table, lines, newId, order, ids))
    requires TakesRequests(db, table) && OnMenu(db.menu, db.tables[table].restaurant, lines)
    requires Performs(db, Plan(db, now, Submit(table, lines, newId, order, ids)), db')
    ensures O.Placed(db, db', table, order, lines, ids, now)
  {
    O.SubmitAccepted(db, now, now, Submit(table, lines, newId, order, ids));
  }

  lemma PlaceCommits(db: Db, db': Db, table: Id, lines: seq<Line>, ids: seq<Id>, e: Effect)
    requires Sound(db) && e.PlaceOrder? && table in db.tables && IsOpenAt(db, table, e.session)
    requires db.tables[table].restaurant == e.restaurant
    requires e.order !in db.orders && AllOrderable(db.menu, e.restaurant, lines) && |ids| == |lines|
    requires (forall l | l in lines :: l.quantity > 0) && forall i | i in ids :: i !in db.items
    requires e.added == LineRows(db.menu, e.restaurant, e.order, lines, ids, e.at)
    requires db' == db.(orders := db.orders[e.order := OrderRow(e.restaurant, e.session)],
                        items := db.items + e.added, sessions := Touched(db, e.session, e.at))
    ensures Performs(db, [e], db')
  {
    LineRowsAreFresh(db.menu, e.restaurant, e.order, lines, ids, e.at);
    assert e.added.Keys !! db.items.Keys;
    PerformsOne(db, e);
  }

  lemma CallCommits(db: Db, db': Db, e: Effect, table: Id)
    requires Sound(db) && e.NewCall? && e.call !in db.calls && IsOpenAt(db, table, e.session)
    requires table in db.tables
    requires db' == db.(calls := db.calls[e.call := CallRow(db.tables[table].restaurant, table, e.session, Waiting,
        e.at, None, None)],
                        sessions := Touched(db, e.session, e.at))
    ensures Performs(db, [e], db')
  {
    PerformsOne(db, e);
  }

  lemma ReopenCommits(db: Db, db': Db, sid: Id, now: Time)
    requires Guard(db, Reopen(sid, now))
    requires db' == db.(sessions := db.sessions[sid := ReopenRow(db.sessions[sid], now)])
    ensures Performs(db, [Reopen(sid, now)], db')
  {
    PerformsOne(db, Reopen(sid, now));
  }

  lemma SettledIsClose(db: Db, db': Db, sid: Id, from: SessionStatus, now: Time, r: Receipt)
    requires Sound(db) && Guard(db, Close(sid, from, now))
    requires db'.items == CancelLive(db, sid, "table_closed", now)
    requires r.total == Bill(db', sid)
    requires db'.sessions == db.sessions[sid := BillRow(CloseRow(db.sessions[sid], now), r.total)]
    requires db'.calls == DismissCalls(db.calls, sid, db.sessions[sid].restaurant, now)
    requires db' == db.(items := db'.items, sessions := db'.sessions, calls := db'.calls)
    ensures Performs(db, [Close(sid, from, now)], db') && LiveOf(db', sid) == map[]
  {
    PerformsOne(db, Close(sid, from, now));
    CancelLeavesNoneLive(db, db', sid, "table_closed", now);
  }
}
