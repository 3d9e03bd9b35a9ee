/** The report aggregations: revenue per day of closed sessions and the best-selling names,
    against what was billed and what is served. */
module Reporting {
  import opened Schema
  import opened Money
  import opened Effects
  import opened Laws
  import Runs

  const DAY: Time := 24 * HOUR

  /** closed_at::date; the division rounds down. */
  function DayOf(t: Time): int { t / DAY }

  // ----- Grouped sums -----

  function Group<K(==)>(vals: map<Id, int>, keys: map<Id, K>, k: K): map<Id, int> {
    map i | i in vals && i in keys && keys[i] == k :: vals[i]
  }

  /** The members of the groups listed. */
  function Within<K(==)>(vals: map<Id, int>, keys: map<Id, K>, ks: seq<K>): map<Id, int> {
    map i | i in vals && i in keys && keys[i] in ks :: vals[i]
  }

  ghost function GroupTotal<K>(vals: map<Id, int>, keys: map<Id, K>, ks: seq<K>): int {
    if ks == [] then 0 else Sum(Group(vals, keys, ks[0])) + GroupTotal(vals, keys, ks[1..])
  }

  predicate NoRepeats<K(==)>(ks: seq<K>) {
    forall i, j | 0 <= i < j < |ks| :: ks[i] != ks[j]
  }

  /** Summing by group is summing: every member counts once, in the one group it is in. */
  lemma {:induction false} GroupsAddUp<K>(vals: map<Id, int>, keys: map<Id, K>, ks: seq<K>)
    requires NoRepeats(ks)
    ensures GroupTotal(vals, keys, ks) == Sum(Within(vals, keys, ks))
    decreases |ks|
  {
    if ks == [] {
      assert Within(vals, keys, ks) == map[];
    } else {
      GroupsAddUp(vals, keys, ks[1..]);
      var first, rest := Group(vals, keys, ks[0]), Within(vals, keys, ks[1..]);
      SumUnion(first, rest);
      assert first + rest == Within(vals, keys, ks);
    }
  }

  // ----- Revenue per day -----

  datatype Sale = Sale(closedAt: Time, total: int)

  /** status = 'closed' AND closed_at >= since, with the columns the report reads. */
  function Sales(db: Db, r: Id, since: Time): map<Id, Sale> {
    map s | s in db.sessions && IsSale(db.sessions[s], r, since) ::
      Sale(db.sessions[s].closedAt.value, db.sessions[s].total.value)
  }

  predicate IsSale(row: SessionRow, r: Id, since: Time) {
    && row.restaurant == r && row.status == Closed
    && row.closedAt.Some? && row.closedAt.value >= since && row.total.Some?
  }

  function Totals(sales: map<Id, Sale>): map<Id, int> {
    map s | s in sales :: sales[s].total
  }

  function Days(sales: map<Id, Sale>): map<Id, int> {
    map s | s in sales :: DayOf(sales[s].closedAt)
  }

  function Ones(sales: map<Id, Sale>): map<Id, int> {
    map s | s in sales :: 1
  }

  /** ORDER BY day */
  ghost function Ascending(days: set<int>): seq<int>
    decreases |days|
  {
    if days == {} then []
    else
      var first := Earliest(days);
      [first] + Ascending(days - {first})
  }

  predicate Increasing(days: seq<int>) {
    forall i, j | 0 <= i < j < |days| :: days[i] < days[j]
  }

  lemma {:induction false} AscendingLists(days: set<int>)
    ensures forall d :: d in Ascending(days) <==> d in days
    ensures Increasing(Ascending(days))
    decreases |days|
  {
    if days != {} {
      var first := Earliest(days);
      var rest := Ascending(days - {first});
      AscendingLists(days - {first});
      forall i, j | 0 <= i < j < |[first] + rest| ensures ([first] + rest)[i] < ([first] + rest)[j] {
        assert rest[j - 1] in rest;
      }
    }
  }

  lemma Occupied(days: set<int>)
    requires days != {}
    ensures exists d :: d in days
  {
    assert (forall d :: d !in days) ==> days == {};
  }

  ghost function Earliest(days: set<int>): (d: int)
    requires days != {}
    ensures d in days && forall e | e in days :: d <= e
    decreases |days|
  {
    Occupied(days);
    var d :| d in days;
    var others := days - {d};
    assert forall e | e in days :: e == d || e in others;
    if others == {} then d
    else
      var m := Earliest(others);
      if d < m then d else m
  }

  datatype DayRow = DayRow(day: int, revenue: int, sessions: int)

  ghost function DayRows(sales: map<Id, Sale>, days: seq<int>): seq<DayRow> {
    if days == [] then []
    else [DayRow(days[0], Sum(Group(Totals(sales), Days(sales), days[0])),
        Sum(Group(Ones(sales), Days(sales), days[0])))]
         + DayRows(sales, days[1..])
  }

  /** The rows of the Revenue worksheet. */
  ghost function Report(db: Db, r: Id, since: Time): seq<DayRow> {
    var sales := Sales(db, r, since);
    DayRows(sales, Ascending(Days(sales).Values))
  }

  function Revenue(rows: seq<DayRow>): int {
    if rows == [] then 0 else rows[0].revenue + Revenue(rows[1..])
  }

  function Sessions(rows: seq<DayRow>): int {
    if rows == [] then 0 else rows[0].sessions + Sessions(rows[1..])
  }

  lemma {:induction false} DayRowsFollow(sales: map<Id, Sale>, days: seq<int>)
    ensures var rows := DayRows(sales, days);
            && |rows| == |days| && (forall j | 0 <= j < |rows| :: rows[j].day == days[j])
            && Revenue(rows) == GroupTotal(Totals(sales), Days(sales), days)
            && Sessions(rows) == GroupTotal(Ones(sales), Days(sales), days)
    decreases |days|
  {
    if days != [] {
      DayRowsFollow(sales, days[1..]);
    }
  }

  lemma {:induction false} SumOfOnes(m: map<Id, int>)
    requires forall i | i in m :: m[i] == 1
    ensures Sum(m) == |m|
    decreases |m|
  {
    if m != map[] {
      var k :| k in m;
      Split(m, k);
      assert m.Keys == (m - {k}).Keys + {k};
      SumOfOnes(m - {k});
    }
  }

  lemma DaysCovered(sales: map<Id, Sale>)
    ensures var days := Ascending(Days(sales).Values);
            && Increasing(days)
            && (forall s | s in sales :: DayOf(sales[s].closedAt) in days)
            && (forall d | d in days :: exists s :: s in sales && d == DayOf(sales[s].closedAt))
  {
    AscendingLists(Days(sales).Values);
    forall s | s in sales ensures Days(sales)[s] in Days(sales).Values {
      assert s in Days(sales);
    }
  }

  lemma ReportAddsUp(sales: map<Id, Sale>, days: seq<int>)
    requires NoRepeats(days) && forall s | s in sales :: DayOf(sales[s].closedAt) in days
    ensures Revenue(DayRows(sales, days)) == Sum(Totals(sales)) && Sessions(DayRows(sales, days)) == |sales|
  {
    hide Sum, DayRows, GroupTotal, Revenue, Sessions;
    DayRowsFollow(sales, days);
    GroupsAddUp(Totals(sales), Days(sales), days);
    GroupsAddUp(Ones(sales), Days(sales), days);
    assert Within(Totals(sales), Days(sales), days) == Totals(sales);
    assert Within(Ones(sales), Days(sales), days) == Ones(sales);
    CountOf(sales);
  }

  /** The days are strictly increasing, every sale falls on the day of exactly one row and
      every row has one. */
  ghost predicate ByDay(rows: seq<DayRow>, sales: map<Id, Sale>) {
    && (forall i, j | 0 <= i < j < |rows| :: rows[i].day < rows[j].day)
    && (forall s | s in sales :: exists j :: 0 <= j < |rows| && rows[j].day == DayOf(sales[s].closedAt))
    && (forall j | 0 <= j < |rows| :: exists s :: s in sales && rows[j].day == DayOf(sales[s].closedAt))
  }

  /** A session of the restaurant, closed in the window, on that day of 86,400 seconds. */
  predicate ClosedOn(row: SessionRow, r: Id, since: Time, day: int) {
    && row.restaurant == r && row.status == Closed && row.closedAt.Some? && row.total.Some?
    && row.closedAt.value >= since
    && day * 86_400 * SECOND <= row.closedAt.value < (day + 1) * 86_400 * SECOND
  }

  /** The row of a day: the sum of the totals, and the number, of the sessions closed on it. */
  ghost predicate RowOfDay(db: Db, r: Id, since: Time, row: DayRow) {
    row.revenue == Sum(TotalsOn(db, r, since, row.day)) && row.sessions == |TotalsOn(db, r, since, row.day)|
  }

  function TotalsOn(db: Db, r: Id, since: Time, day: int): map<Id, int> {
    map s | s in db.sessions && ClosedOn(db.sessions[s], r, since, day) :: db.sessions[s].total.value
  }

  /** Nothing is lost or counted twice: the closed sessions of the window are grouped by day,
      each row has the sum and the number of those closed on its day, the revenues add up to the
      totals and the counts to the number of those sessions. */
  lemma ReportConserves(db: Db, r: Id, since: Time)
    ensures ByDay(Report(db, r, since), Sales(db, r, since))
    ensures forall row | row in Report(db, r, since) :: RowOfDay(db, r, since, row)
    ensures forall s, day | s in db.sessions && ClosedOn(db.sessions[s], r, since, day) ::
              exists row :: row in Report(db, r, since) && row.day == day
    ensures Revenue(Report(db, r, since)) == Sum(Totals(Sales(db, r, since)))
    ensures Sessions(Report(db, r, since)) == |Sales(db, r, since)|
  {
    hide *;
    ReportDays(db, r, since);
    ReportRows(db, r, since);
    ReportSums(db, r, since);
  }

  /** The sales of a day are the sessions closed on it. */
  lemma SalesOn(db: Db, r: Id, since: Time, day: int)
    ensures var sales := Sales(db, r, since);
            && Group(Totals(sales), Days(sales), day) == TotalsOn(db, r, since, day)
            && Group(Ones(sales), Days(sales), day).Keys == TotalsOn(db, r, since, day).Keys
  {
    forall s | s in db.sessions ensures ClosedOn(db.sessions[s], r, since, day)
        <==> IsSale(db.sessions[s], r, since) && DayOf(db.sessions[s].closedAt.value) == day {
      if db.sessions[s].closedAt.Some? { DayBounds(db.sessions[s].closedAt.value, day); }
    }
  }

  lemma DayBounds(t: Time, day: int)
    ensures DayOf(t) == day <==> day * 86_400 * SECOND <= t < (day + 1) * 86_400 * SECOND
  {
  }

  lemma ReportRows(db: Db, r: Id, since: Time)
    ensures forall row | row in Report(db, r, since) :: RowOfDay(db, r, since, row)
    ensures forall s, day | s in db.sessions && ClosedOn(db.sessions[s], r, since, day) ::
              exists row :: row in Report(db, r, since) && row.day == day
  {
    hide Sum, Ascending, DayRows, ClosedOn, RowOfDay;
    var sales := Sales(db, r, since);
    var days := Ascending(Days(sales).Values);
    DayRowsFollow(sales, days);
    forall j | 0 <= j < |days| ensures RowOfDay(db, r, since, DayRows(sales, days)[j]) {
      RowFollows(db, r, since, days, j);
    }
    forall s, day | s in db.sessions && ClosedOn(db.sessions[s], r, since, day)
      ensures exists row :: row in Report(db, r, since) && row.day == day
    {
      SalesOn(db, r, since, day);
      assert s in Group(Totals(sales), Days(sales), day);
      DaysCovered(sales);
      var j :| 0 <= j < |days| && days[j] == day;
      assert DayRows(sales, days)[j] in Report(db, r, since);
    }
  }

  lemma RowFollows(db: Db, r: Id, since: Time, days: seq<int>, j: nat)
    requires j < |days| && |DayRows(Sales(db, r, since), days)| == |days|
    ensures RowOfDay(db, r, since, DayRows(Sales(db, r, since), days)[j])
  {
    hide Sum, TotalsOn, Group;
    var sales := Sales(db, r, since);
    DayRowAt(sales, days, j);
    SalesOn(db, r, since, days[j]);
    var ones := Group(Ones(sales), Days(sales), days[j]);
    GroupOfOnes(sales, days[j]);
    SumOfOnes(ones);
    assert |ones| == |ones.Keys| == |TotalsOn(db, r, since, days[j]).Keys|;
  }

  lemma GroupOfOnes(sales: map<Id, Sale>, day: int)
    ensures forall s | s in Group(Ones(sales), Days(sales), day) :: Group(Ones(sales), Days(sales), day)[s] == 1
  {
  }

  lemma {:induction false} DayRowAt(sales: map<Id, Sale>, days: seq<int>, j: nat)
    requires j < |days|
    ensures |DayRows(sales, days)| == |days|
    ensures DayRows(sales, days)[j] == DayRow(days[j], Sum(Group(Totals(sales), Days(sales), days[j])),
                                              Sum(Group(Ones(sales), Days(sales), days[j])))
    decreases |days|
  {
    DayRowsFollow(sales, days);
    if j > 0 {
      DayRowAt(sales, days[1..], j - 1);
    }
  }

  lemma ReportDays(db: Db, r: Id, since: Time)
    ensures ByDay(Report(db, r, since), Sales(db, r, since))
  {
    hide Sales, Days, DayRows, DayOf, Sum, Ascending, Totals, Revenue, Sessions;
    var sales := Sales(db, r, since);
    var days := Ascending(Days(sales).Values);
    var rows := Report(db, r, since);
    DayRowsFollow(sales, days);
    DaysCovered(sales);
    assert forall j | 0 <= j < |rows| :: rows[j].day == days[j] && days[j] in days;
    forall s | s in sales ensures exists j :: 0 <= j < |rows| && rows[j].day == DayOf(sales[s].closedAt) {
      var j :| 0 <= j < |days| && days[j] == DayOf(sales[s].closedAt);
      assert rows[j].day == days[j];
    }
  }

  lemma ReportSums(db: Db, r: Id, since: Time)
    ensures Revenue(Report(db, r, since)) == Sum(Totals(Sales(db, r, since)))
    ensures Sessions(Report(db, r, since)) == |Sales(db, r, since)|
  {
    hide Sales, Days, DayRows, DayOf, Sum, Ascending, Totals, Revenue, Sessions;
    var sales := Sales(db, r, since);
    DaysCovered(sales);
    ReportAddsUp(sales, Ascending(Days(sales).Values));
  }

  lemma CountOf(sales: map<Id, Sale>)
    ensures Sum(Ones(sales)) == |sales|
  {
    SumOfOnes(Ones(sales));
    assert Ones(sales).Keys == sales.Keys;
    assert |Ones(sales)| == |Ones(sales).Keys| == |sales.Keys| == |sales|;
  }

  lemma RevenueIsTotals(db: Db, r: Id, since: Time)
    ensures Revenue(Report(db, r, since)) == Sum(Totals(Sales(db, r, since)))
  {
    ReportConserves(db, r, since);
  }

  // ----- Revenue over a run -----

  /** What effect e adds to the takings of restaurant r since the given instant. */
  ghost function Taken(db: Db, e: Effect, r: Id, since: Time): int
    requires Guard(db, e)
  {
    if e.Close? && db.sessions[e.session].restaurant == r && e.at >= since then Bill(db, e.session) else 0
  }

  ghost function Takings(db: Db, es: seq<Effect>, r: Id, since: Time): int
    requires Valid(db, es)
    decreases |es|
  {
    if es == [] then 0 else Taken(db, es[0], r, since) + Takings(Apply(db, es[0]), es[1..], r, since)
  }

  /** A sale appears when its session is closed, and never changes afterwards. */
  lemma SaleStep(db: Db, e: Effect, r: Id, since: Time, s: Id)
    requires Guard(db, e)
    ensures var before, after := Sales(db, r, since), Sales(Apply(db, e), r, since);
            if e.Close? && e.session == s then
              && s !in before
              && (s in after <==> db.sessions[s].restaurant == r && e.at >= since)
              && (s in after ==> after[s].total == Sum(ServedLines(CancelLive(db, s, "table_closed", e.at),
                  db.orders, s)))
            else (s in after <==> s in before) && (s in after ==> after[s] == before[s])
  {
    hide CancelLive, DismissCalls, ServedLines, Sum;
  }

  lemma SalesStep(db: Db, e: Effect, r: Id, since: Time)
    requires Guard(db, e)
    ensures Sum(Totals(Sales(Apply(db, e), r, since))) == Sum(Totals(Sales(db, r, since))) + Taken(db, e, r, since)
  {
    hide Apply, Guard, Sales;
    var before, after := Sales(db, r, since), Sales(Apply(db, e), r, since);
    forall s ensures !(e.Close? && e.session == s) ==>
              (s in after <==> s in before) && (s in after ==> after[s] == before[s]) {
      SaleStep(db, e, r, since, s);
    }
    if e.Close? {
      SaleStep(db, e, r, since, e.session);
      CancelKeepsServed(db, e.session, "table_closed", e.at, e.session);
      if e.session in after {
        Add(Totals(before), e.session, Bill(db, e.session));
        assert Totals(after) == Totals(before)[e.session := Bill(db, e.session)];
      } else {
        assert Totals(after) == Totals(before);
      }
    } else {
      assert Totals(after) == Totals(before);
    }
  }

  lemma {:induction false} SalesOfRun(db: Db, es: seq<Effect>, r: Id, since: Time)
    requires Valid(db, es)
    ensures Sum(Totals(Sales(ApplyAll(db, es), r, since)))
            == Sum(Totals(Sales(db, r, since))) + Takings(db, es, r, since)
    decreases |es|
  {
    hide Apply, Guard, Sales, Totals, Sum, Taken;
    if es != [] {
      SalesStep(db, es[0], r, since);
      SalesOfRun(Apply(db, es[0]), es[1..], r, since);
    }
  }

  /** Over any run or interleaving the reported revenue grows by exactly the bills of the
      sessions closed in it, each billed once at its closing; nothing else the system does,
      undos of billed items and edits of prices included, changes it. */
  lemma RevenueOfRun(db: Db, es: seq<Effect>, r: Id, since: Time)
    requires Valid(db, es)
    ensures Revenue(Report(ApplyAll(db, es), r, since)) == Revenue(Report(db, r, since)) + Takings(db, es, r, since)
  {
    hide *;
    RevenueIsTotals(db, r, since);
    RevenueIsTotals(ApplyAll(db, es), r, since);
    SalesOfRun(db, es, r, since);
  }

  // ----- Revenue against what is served -----

  ghost function Bills(db: Db, r: Id, since: Time): map<Id, int> {
    map s | s in Sales(db, r, since) :: Bill(db, s)
  }

  lemma {:induction false} SumOrder(low: map<Id, int>, high: map<Id, int>)
    requires low.Keys == high.Keys && forall k | k in low :: low[k] <= high[k]
    ensures Sum(low) <= Sum(high)
    ensures Sum(low) == Sum(high) <==> low == high
    decreases |low|
  {
    if low == map[] {
      assert high.Keys == {} && high == map[];
    } else {
      var k :| k in low;
      Split(low, k);
      Split(high, k);
      assert (low - {k}).Keys == (high - {k}).Keys;
      SumOrder(low - {k}, high - {k});
      assert low == (low - {k})[k := low[k]] && high == (high - {k})[k := high[k]];
    }
  }

  lemma TotalCovers(db: Db, clock: Time, s: Id)
    requires Runs.Inv(db, clock) && Is(db, s, Closed)
    ensures db.sessions[s].total.Some? && Bill(db, s) <= db.sessions[s].total.value
  {
    assert Runs.CoversStanding(db, s);
    var served := ServedLines(db.items, db.orders, s);
    var standing := StandingLines(db.items, db.orders, s);
    forall i | i in standing ensures standing[i] >= 0 {
      assert ItemShape(db.items[i]);
      LineIsPriced(db.items[i]);
    }
    SumPart(served, standing);
  }

  /** In every state of every run the report never understates what is served in the sessions it
      covers, and is exact precisely when the total of each of them is. */
  lemma RevenueCovers(db: Db, clock: Time, r: Id, since: Time)
    requires Runs.Inv(db, clock)
    ensures var sales := Sales(db, r, since);
            && Revenue(Report(db, r, since)) >= Sum(Bills(db, r, since))
            && (Revenue(Report(db, r, since)) == Sum(Bills(db, r, since))
                <==> forall s | s in sales :: sales[s].total == Bill(db, s))
  {
    hide Report, Revenue, Sum, Bill, Runs.Inv;
    var sales := Sales(db, r, since);
    RevenueIsTotals(db, r, since);
    forall s | s in sales ensures Bill(db, s) <= sales[s].total {
      TotalCovers(db, clock, s);
    }
    var bills, totals := Bills(db, r, since), Totals(sales);
    SumOrder(bills, totals);
    assert bills == totals <==> forall s | s in sales :: bills[s] == totals[s];
  }

  /** The session whose item an effect moves. */
  function MovedIn(db: Db, e: Effect): Option<Id> {
    if e.MoveItem? && HasSession(db, e.item) then Some(SessionOf(db, e.item)) else None
  }

  function ServedAmount(items: map<Id, ItemRow>, i: Id): int {
    if i in items && items[i].status == Served then LineTotal(items[i]) else 0
  }

  /** How far effect e moves the report from what is served in the sessions it covers: a
      line taken back from one of them widens the gap by its amount, a line served in one
      narrows it. */
  ghost function Drift(db: Db, e: Effect, r: Id, since: Time): int
    requires Guard(db, e)
  {
    if MovedIn(db, e).Some? && MovedIn(db, e).value in Sales(db, r, since)
    then ServedAmount(db.items, e.item) - ServedAmount(Apply(db, e).items, e.item) else 0
  }

  ghost function Drifts(db: Db, es: seq<Effect>, r: Id, since: Time): int
    requires Valid(db, es)
    decreases |es|
  {
    if es == [] then 0 else Drift(db, es[0], r, since) + Drifts(Apply(db, es[0]), es[1..], r, since)
  }

  lemma ServedStatusStep(db: Db, e: Effect, i: Id, s: Id)
    requires Guard(db, e) && MovedIn(db, e) != Some(s) && i in db.items && InSession(db.orders, db.items[i], s)
    ensures i in Apply(db, e).items && LineTotal(Apply(db, e).items[i]) == LineTotal(db.items[i])
    ensures Apply(db, e).items[i].status == Served <==> db.items[i].status == Served
  {
    hide DismissCalls;
  }

  lemma NewIsUnserved(db: Db, e: Effect, i: Id)
    requires Guard(db, e) && i in Apply(db, e).items && i !in db.items
    ensures Apply(db, e).items[i].status == Pending
  {
    hide DismissCalls;
  }

  /** Only a move changes what a session has served. */
  lemma ServedStep(db: Db, e: Effect, s: Id)
    requires Sound(db) && Guard(db, e) && MovedIn(db, e) != Some(s)
    ensures Bill(Apply(db, e), s) == Bill(db, s)
  {
    hide Apply, Guard, Sound;
    var db' := Apply(db, e);
    var before, after := ServedLines(db.items, db.orders, s), ServedLines(db'.items, db'.orders, s);
    forall i ensures (i in after <==> i in before) && (i in before ==> after[i] == before[i]) {
      if i in db.items {
        StaysInItsSession(db, e, i, s);
        if InSession(db.orders, db.items[i], s) { ServedStatusStep(db, e, i, s); }
      } else if i in db'.items {
        NewIsUnserved(db, e, i);
      }
    }
    assert after == before;
  }

  lemma MovedLine(db: Db, e: Effect, s: Id)
    requires Guard(db, e) && MovedIn(db, e) == Some(s)
    ensures Bill(Apply(db, e), s)
            == Bill(db, s) - ServedAmount(db.items, e.item) + ServedAmount(Apply(db, e).items, e.item)
  {
    var db', i := Apply(db, e), e.item;
    var before, after := ServedLines(db.items, db.orders, s), ServedLines(db'.items, db'.orders, s);
    assert before - {i} == after - {i};
    if i in before { Split(before, i); } else { assert before - {i} == before; }
    if i in after { Split(after, i); } else { assert after - {i} == after; }
  }

  /** Replacing the value of one key. */
  lemma SumChanged(a: map<Id, int>, b: map<Id, int>, k: Id)
    requires k in a && k in b && b == a[k := b[k]]
    ensures Sum(b) == Sum(a) - a[k] + b[k]
  {
    Split(a, k);
    Split(b, k);
    assert a - {k} == b - {k};
  }

  /** The sessions reported stay, but for the one a closing adds. */
  lemma SalesKeys(db: Db, e: Effect, r: Id, since: Time)
    requires Guard(db, e)
    ensures forall s :: !(e.Close? && e.session == s) ==>
              (s in Sales(Apply(db, e), r, since) <==> s in Sales(db, r, since))
    ensures e.Close? ==>
              && e.session in db.sessions && e.session !in Sales(db, r, since)
              && (e.session in Sales(Apply(db, e), r, since)
                  <==> db.sessions[e.session].restaurant == r && e.at >= since)
  {
    hide Apply, Sales;
    forall s { SaleStep(db, e, r, since, s); }
  }

  lemma DriftStep(db: Db, e: Effect, r: Id, since: Time)
    requires Sound(db) && Guard(db, e)
    ensures Sum(Bills(Apply(db, e), r, since))
            == Sum(Bills(db, r, since)) + Taken(db, e, r, since) - Drift(db, e, r, since)
  {
    hide Apply, Guard, Sales, Sound, ServedAmount, Bill, Sum;
    var db' := Apply(db, e);
    var before, after := Bills(db, r, since), Bills(db', r, since);
    SalesKeys(db, e, r, since);
    forall s: Id | MovedIn(db, e) != Some(s) ensures Bill(db', s) == Bill(db, s) { ServedStep(db, e, s); }
    if e.Close? && e.session in after {
      Add(before, e.session, Bill(db, e.session));
      assert after == before[e.session := Bill(db, e.session)];
    } else if MovedIn(db, e).Some? && MovedIn(db, e).value in before {
      var s := MovedIn(db, e).value;
      MovedLine(db, e, s);
      assert after == before[s := after[s]];
      SumChanged(before, after, s);
    } else {
      assert after == before;
    }
  }

  /** The report against what is served, over every history, of runs as of interleavings: the
      gap grows by exactly the lines taken back from sessions already reported, less the lines
      served in them; so from a report that is exact it stays exact precisely when the two
      have the same sum. */
  lemma {:induction false} RevenueGap(db: Db, es: seq<Effect>, r: Id, since: Time)
    requires Sound(db) && Valid(db, es)
    ensures Revenue(Report(ApplyAll(db, es), r, since)) - Sum(Bills(ApplyAll(db, es), r, since))
            == Revenue(Report(db, r, since)) - Sum(Bills(db, r, since)) + Drifts(db, es, r, since)
    decreases |es|
  {
    hide Apply, Guard, Sales, Totals, Sum, Taken, Bills, Drift, Report, Revenue, Sound;
    if es != [] {
      var db1 := Apply(db, es[0]);
      EffectKeepsSound(db, es[0]);
      RevenueIsTotals(db, r, since);
      RevenueIsTotals(db1, r, since);
      SalesStep(db, es[0], r, since);
      DriftStep(db, es[0], r, since);
      RevenueGap(db1, es[1..], r, since);
    }
  }

  // ----- Best-selling names -----

  /** The quantities of the served items the second query joins and filters. */
  function Sold(db: Db, r: Id, since: Time): map<Id, int> {
    map i | i in db.items && IsSold(db, db.items[i], r, since) :: db.items[i].quantity
  }

  predicate IsSold(db: Db, row: ItemRow, r: Id, since: Time) {
    && row.restaurant == r && row.order in db.orders && row.status == Served
    && row.servedAt.Some? && row.servedAt.value >= since
  }

  function Names(db: Db, r: Id, since: Time): map<Id, string> {
    map i | i in Sold(db, r, since) :: db.items[i].name
  }

  ghost function SoldUnder(db: Db, r: Id, since: Time, name: string): int {
    Sum(Group(Sold(db, r, since), Names(db, r, since), name))
  }

  /** What is counted under a name: the quantities of the items of that name of the restaurant,
      placed with an order, served, and that in the window. */
  lemma SoldByName(db: Db, r: Id, since: Time, name: string)
    ensures var amounts := map i | i in db.items && db.items[i].restaurant == r && db.items[i].order in db.orders
                                   && db.items[i].status == Served && db.items[i].servedAt.Some?
                                   && db.items[i].servedAt.value >= since && db.items[i].name == name ::
                             db.items[i].quantity;
            && amounts == Group(Sold(db, r, since), Names(db, r, since), name)
            && SoldUnder(db, r, since, name) == Sum(amounts)
            && (name in Names(db, r, since).Values <==> amounts != map[])
  {
    var group := Group(Sold(db, r, since), Names(db, r, since), name);
    if i :| i in group {
      assert i in Names(db, r, since);
    }
    if name in Names(db, r, since).Values {
      var i :| i in Names(db, r, since) && Names(db, r, since)[i] == name;
      assert i in group;
    }
    assert (forall i :: i !in group) ==> group == map[];
  }

  /** GROUP BY name, ORDER BY sold DESC, LIMIT n: any order among equals. */
  ghost predicate Best(db: Db, r: Id, since: Time, n: nat, top: seq<string>) {
    var names := Names(db, r, since).Values;
    && NoRepeats(top) && (forall x | x in top :: x in names)
    && (|top| == n || (|top| <= n && forall x | x in names :: x in top))
    && (forall i, j | 0 <= i < j < |top| :: SoldUnder(db, r, since, top[i]) >= SoldUnder(db, r, since, top[j]))
    && (forall x, y | x in names && x !in top && y in top :: SoldUnder(db, r, since, x) <= SoldUnder(db, r, since, y))
  }

  /** The worksheet never counts more than was served, and counts all of it exactly when no
      more than 50 names were sold. */
  lemma TopItemsBound(db: Db, r: Id, since: Time, top: seq<string>)
    requires ItemShapes(db) && Best(db, r, since, 50, top)
    ensures var sold := Sold(db, r, since); var names := Names(db, r, since);
            && GroupTotal(sold, names, top) <= Sum(sold)
            && (GroupTotal(sold, names, top) == Sum(sold) <==> |names.Values| <= 50)
  {
    var sold, names := Sold(db, r, since), Names(db, r, since);
    var part := Within(sold, names, top);
    GroupsAddUp(sold, names, top);
    forall i | i in sold ensures sold[i] > 0 {
      assert ItemShape(db.items[i]);
    }
    SumPart(part, sold);
    ListedNames(names.Values, top);
    if forall x | x in names.Values :: x in top {
      forall i | i in sold ensures i in part {
        assert names[i] in names.Values;
      }
    } else {
      var x :| x in names.Values && x !in top;
      var i :| i in names && names[i] == x;
      assert i !in part && sold[i] != 0;
    }
  }

  /** A list without repeats has every name of a set exactly when the set is no longer than it. */
  lemma {:induction false} ListedNames(names: set<string>, top: seq<string>)
    requires NoRepeats(top) && forall x | x in top :: x in names
    ensures |top| <= |names|
    ensures |names| == |top| <==> forall x | x in names :: x in top
    decreases |top|
  {
    if top == [] {
      assert |names| == 0 <==> names == {};
      assert (forall x | x in names :: x in top) <==> names == {};
    } else {
      var rest := top[1..];
      assert top == [top[0]] + rest;
      ListedNames(names - {top[0]}, rest);
    }
  }

  lemma {:induction false} MostSold(db: Db, r: Id, since: Time, names: set<string>) returns (x: string)
    requires names != {}
    ensures x in names && forall y | y in names :: SoldUnder(db, r, since, y) <= SoldUnder(db, r, since, x)
    decreases |names|
  {
    hide SoldUnder;
    x :| x in names;
    if names != {x} {
      var y := MostSold(db, r, since, names - {x});
      if SoldUnder(db, r, since, x) < SoldUnder(db, r, since, y) {
        x := y;
      }
    }
  }

  /** The query has an answer for every limit. */
  lemma {:induction false} BestExists(db: Db, r: Id, since: Time, n: nat) returns (top: seq<string>)
    ensures Best(db, r, since, n, top)
  {
    hide SoldUnder, Names;
    if n == 0 {
      top := [];
    } else {
      var first := BestExists(db, r, since, n - 1);
      var others := Names(db, r, since).Values - set x | x in first;
      assert forall y | y in Names(db, r, since).Values && y !in first :: y in others;
      if others == {} {
        top := first;
      } else {
        var x := MostSold(db, r, since, others);
        top := first + [x];
        assert x !in first && x in top;
        assert forall y | y in top :: y in first || y == x;
        assert forall y | y in first :: y in top;
      }
    }
  }
}
