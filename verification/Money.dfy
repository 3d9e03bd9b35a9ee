/** Sums over finite maps, and the bill of a session as such a sum. */
module Money {
  import opened Schema

  /** SUM over the values of a map; the order of summation is irrelevant (see Split). */
  ghost function Sum(m: map<Id, int>): int {
    if m == map[] then 0
    else var k :| k in m; m[k] + Sum(m - {k})
  }

  /** Any key can be taken out first. */
  lemma {:induction false} Split(m: map<Id, int>, k: Id)
    requires k in m
    ensures Sum(m) == m[k] + Sum(m - {k})
  {
    var j :| j in m && Sum(m) == m[j] + Sum(m - {j});
    if j != k {
      Split(m - {j}, k);
      Split(m - {k}, j);
      assert m - {j} - {k} == m - {k} - {j};
    }
  }

  lemma Add(m: map<Id, int>, k: Id, v: int)
    requires k !in m
    ensures Sum(m[k := v]) == Sum(m) + v
  {
    Split(m[k := v], k);
    assert m[k := v] - {k} == m;
  }

  lemma {:induction false} SumNonNegative(m: map<Id, int>)
    requires forall k | k in m :: m[k] >= 0
    ensures Sum(m) >= 0
  {
    if m != map[] {
      var k :| k in m;
      Split(m, k);
      SumNonNegative(m - {k});
    }
  }

  /** A sum over two disjoint parts. */
  lemma {:induction false} SumUnion(a: map<Id, int>, b: map<Id, int>)
    requires a.Keys !! b.Keys
    ensures Sum(a + b) == Sum(a) + Sum(b)
  {
    if b == map[] {
      assert a + b == a;
    } else {
      var k :| k in b;
      Split(b, k);
      Split(a + b, k);
      assert (a + b) - {k} == a + (b - {k});
      SumUnion(a, b - {k});
    }
  }

  /** Leaving out non-negative entries lowers a sum, and keeps it exactly when all
      entries left out are zero. */
  lemma SumPart(part: map<Id, int>, whole: map<Id, int>)
    requires part.Keys <= whole.Keys && forall k | k in part :: part[k] == whole[k]
    requires forall k | k in whole :: whole[k] >= 0
    ensures Sum(part) <= Sum(whole)
    ensures Sum(part) == Sum(whole) <==> forall k | k in whole && k !in part :: whole[k] == 0
  {
    var rest := whole - part.Keys;
    assert part + rest == whole;
    SumUnion(part, rest);
    SumNonNegative(rest);
    SumZero(rest);
    assert forall k :: k in rest <==> k in whole && k !in part;
    assert forall k | k in rest :: rest[k] == whole[k];
  }

  lemma SumSplit(m: map<Id, int>, ks: set<Id>)
    ensures Sum(m) == Sum(m - (m.Keys - ks)) + Sum(m - ks)
  {
    assert (m - (m.Keys - ks)) + (m - ks) == m;
    SumUnion(m - (m.Keys - ks), m - ks);
  }

  /** Two maps that agree where both are defined differ in sum by what only one of them has. */
  lemma SumDifference(a: map<Id, int>, b: map<Id, int>)
    requires forall i | i in a && i in b :: a[i] == b[i]
    ensures Sum(b) == Sum(a) - Sum(a - b.Keys) + Sum(b - a.Keys)
  {
    SumSplit(a, b.Keys);
    SumSplit(b, a.Keys);
    assert a - (a.Keys - b.Keys) == b - (b.Keys - a.Keys);
  }

  lemma {:induction false} SumZero(m: map<Id, int>)
    requires forall k | k in m :: m[k] >= 0
    ensures Sum(m) == 0 <==> forall k | k in m :: m[k] == 0
  {
    if m != map[] {
      var k :| k in m;
      Split(m, k);
      SumNonNegative(m - {k});
      SumZero(m - {k});
      assert forall j | j in m :: j == k || j in m - {k};
    }
  }

  /** A part is not larger than the whole. */
  lemma {:induction false} FewerKeys(a: set<Id>, b: set<Id>)
    requires a <= b
    ensures |a| <= |b|
  {
    assert b == a + (b - a);
  }

  // ----- Bills -----

  function LineTotal(row: ItemRow): int {
    row.price * row.quantity
  }

  /** The lines `status = 'served'` of a session. */
  function ServedLines(items: map<Id, ItemRow>, orders: map<Id, OrderRow>, sid: Id): map<Id, int> {
    map i | i in items && InSession(orders, items[i], sid) && items[i].status == Served :: LineTotal(items[i])
  }

  /** COALESCE(SUM(price_snapshot * quantity), 0) over the served items of a session. */
  ghost function Bill(db: Db, sid: Id): int {
    Sum(ServedLines(db.items, db.orders, sid))
  }

  /** The bill in the terms of the tables. */
  lemma BillOfAmounts(db: Db, sid: Id)
    ensures var amounts := map i | i in db.items && db.items[i].order in db.orders
                                   && db.orders[db.items[i].order].session == sid && db.items[i].status == Served ::
                             db.items[i].price * db.items[i].quantity;
            amounts == ServedLines(db.items, db.orders, sid) && Bill(db, sid) == Sum(amounts)
  {
  }

  /** The lines of a session that are not cancelled. */
  function StandingLines(items: map<Id, ItemRow>, orders: map<Id, OrderRow>, sid: Id): map<Id, int> {
    map i | i in items && InSession(orders, items[i], sid) && items[i].status != Cancelled :: LineTotal(items[i])
  }

  /** Cancelling what is not served leaves the bill as it is. */
  lemma CancelKeepsServed(db: Db, sid: Id, reason: string, at: Time, any: Id)
    ensures ServedLines(CancelLive(db, sid, reason, at), db.orders, any) == ServedLines(db.items, db.orders, any)
  {
  }
}
