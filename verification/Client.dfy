/** The customer page: which pushed events it accepts, and how snapshots, events and the
    answer to its own order are merged into one list of items. */
module Client {
  import opened Schema

  // ----- The sequence filter -----

  /** `data.seq` is falsy when it is missing or zero. */
  predicate Numbered(seqNo: Option<int>) {
    seqNo.Some? && seqNo.value != 0
  }

  predicate Passes(last: int, seqNo: Option<int>) {
    Numbered(seqNo) ==> seqNo.value > last
  }

  function Advance(last: int, seqNo: Option<int>): int {
    if Numbered(seqNo) && seqNo.value > last then seqNo.value else last
  }

  /** lastSeq after a stretch of messages without a change of baseline. */
  function LastSeq(baseline: int, seen: seq<Option<int>>): int {
    if seen == [] then baseline else Advance(LastSeq(baseline, seen[..|seen| - 1]), seen[|seen| - 1])
  }

  lemma {:induction false} LastSeqIsMax(baseline: int, seen: seq<Option<int>>)
    ensures baseline <= LastSeq(baseline, seen)
    ensures forall j | 0 <= j < |seen| && Numbered(seen[j]) :: seen[j].value <= LastSeq(baseline, seen)
    ensures LastSeq(baseline, seen) == baseline
         || exists j :: 0 <= j < |seen| && Numbered(seen[j]) && seen[j].value == LastSeq(baseline, seen)
  {
    if seen != [] {
      var n := |seen| - 1;
      LastSeqIsMax(baseline, seen[..n]);
      assert forall j | 0 <= j < n :: seen[..n][j] == seen[j];
      if LastSeq(baseline, seen) == LastSeq(baseline, seen[..n]) && LastSeq(baseline, seen) != baseline {
        var j :| 0 <= j < n && Numbered(seen[..n][j]) && seen[..n][j].value == LastSeq(baseline, seen);
        assert Numbered(seen[j]);
      }
    }
  }

  /** Above the baseline and above every number seen since. */
  predicate NewMaximum(baseline: int, seen: seq<Option<int>>, n: int) {
    n > baseline && forall j | 0 <= j < |seen| && Numbered(seen[j]) :: seen[j].value < n
  }

  /** Between two baselines the numbered events that pass the filter are exactly the strict
      left-to-right maxima above the baseline, counting the discarded ones too. */
  lemma AcceptedAreMaxima(baseline: int, seen: seq<Option<int>>, k: nat)
    requires k < |seen|
    ensures Passes(LastSeq(baseline, seen[..k]), seen[k])
            <==> (Numbered(seen[k]) ==> NewMaximum(baseline, seen[..k], seen[k].value))
  {
    LastSeqIsMax(baseline, seen[..k]);
  }

  /** The same for the message that comes next. */
  lemma NextMessage(baseline: int, seen: seq<Option<int>>, seqNo: Option<int>)
    ensures Passes(LastSeq(baseline, seen), seqNo) <==> (Numbered(seqNo) ==> NewMaximum(baseline, seen, seqNo.value))
    ensures LastSeq(baseline, seen + [seqNo]) == Advance(LastSeq(baseline, seen), seqNo)
  {
    var more := seen + [seqNo];
    assert more[..|seen|] == seen;
    AcceptedAreMaxima(baseline, more, |seen|);
  }

  /** lastSeqRef, and the minSeq the hook was last rendered with; `seen` are the numbers of
      the messages since that baseline was set. */
  class EventFilter {
    var lastSeq: int
    var minSeq: int
    ghost var seen: seq<Option<int>>

    ghost predicate Valid() reads this {
      lastSeq == LastSeq(minSeq, seen)
    }

    constructor (baseline: int)
      ensures Valid() && minSeq == baseline && seen == []
    {
      lastSeq := baseline;
      minSeq := baseline;
      seen := [];
    }

    /** The effect on [minSeq] runs only when a render brings another value: a changed
        baseline forgets every message seen, an unchanged one forgets none. */
    method Rebase(baseline: int)
      requires Valid()
      modifies this
      ensures Valid() && minSeq == baseline
      ensures seen == if baseline != old(minSeq) then [] else old(seen)
    {
      if baseline != minSeq {
        minSeq := baseline;
        lastSeq := baseline;
        seen := [];
      }
    }

    /** onmessage: accepted are the messages without a number and, of the others, exactly those
        above the baseline and above every one seen since, the discarded ones included. */
    method OnMessage(seqNo: Option<int>) returns (accepted: bool)
      requires Valid()
      modifies this`lastSeq, this`seen
      ensures Valid() && seen == old(seen) + [seqNo]
      ensures accepted <==> !Numbered(seqNo) || NewMaximum(minSeq, old(seen), seqNo.value)
      ensures accepted <==>
                || seqNo.None? || seqNo.value == 0
                || (seqNo.value > minSeq
                    && forall m | Some(m) in old(seen) && m != 0 :: m < seqNo.value)
    {
      hide LastSeq;
      NextMessage(minSeq, seen, seqNo);
      seen := seen + [seqNo];
      if seqNo.Some? && seqNo.value != 0 && seqNo.value <= lastSeq {
        return false;
      }
      if seqNo.Some? && seqNo.value != 0 {
        lastSeq := seqNo.value;
      }
      accepted := true;
    }
  }

  // ----- The item list -----

  datatype Field =
    | OrderId | MenuItemId | Name | Price | PrepTime | Quantity | Note | Status
    | RequestedAt | ServedAt | CancelledAt | CancelledBy | Reason

  datatype Value = Null | Text(text: string) | Number(number: int)

  /** An entry has whichever fields its source sent. */
  datatype Entry = Entry(id: Id, fields: map<Field, Value>)

  /** `{ ...old, ...new }` for two entries of one id. */
  function Spread(a: Entry, b: Entry): Entry {
    Entry(b.id, a.fields + b.fields)
  }

  /** `sent ?? kept`: a missing or null value gives way. */
  function Or(sent: Option<Value>, kept: Option<Value>): Option<Value> {
    if sent.None? || sent.value.Null? then kept else sent
  }

  function FieldOf(e: Entry, f: Field): Option<Value> {
    if f in e.fields then Some(e.fields[f]) else None
  }

  function SetField(e: Entry, f: Field, v: Option<Value>): Entry {
    if v.Some? then e.(fields := e.fields[f := v.value]) else e.(fields := e.fields - {f})
  }

  predicate Has(list: seq<Entry>, id: Id) {
    exists k :: 0 <= k < |list| && list[k].id == id
  }

  predicate Unique(list: seq<Entry>) {
    forall i, j | 0 <= i < j < |list| :: list[i].id != list[j].id
  }

  datatype Patch = Patch(id: Id, status: Option<Value>, servedAt: Option<Value>)

  function PatchEntry(e: Entry, p: Patch): Entry {
    SetField(SetField(e, Status, Or(p.status, FieldOf(e, Status))), ServedAt, Or(p.servedAt, FieldOf(e, ServedAt)))
  }

  function Patched(e: Entry, p: Patch): Entry {
    if e.id == p.id then PatchEntry(e, p) else e
  }

  /** item.updated */
  function Updated(list: seq<Entry>, p: Patch): seq<Entry> {
    seq(|list|, k requires 0 <= k < |list| => Patched(list[k], p))
  }

  /** item.cancelled, and the answer to the customer's own cancellation */
  function CancelledAtClient(list: seq<Entry>, id: Id, now: Value): seq<Entry> {
    seq(|list|, k requires 0 <= k < |list| =>
      if list[k].id == id
      then list[k].(fields := list[k].fields[Status := Text("cancelled")][CancelledAt := now]) else list[k])
  }

  function Unknown(list: seq<Entry>, sent: seq<Entry>): seq<Entry> {
    if sent == [] then []
    else Unknown(list, sent[..|sent| - 1]) + if Has(list, sent[|sent| - 1].id) then [] else [sent[|sent| - 1]]
  }

  /** order.created: entries not known yet are appended, known ones are never overwritten. */
  function Created(list: seq<Entry>, sent: seq<Entry>): seq<Entry> {
    list + Unknown(list, sent)
  }

  /** Map.set: a known key keeps its place. */
  function Put(list: seq<Entry>, e: Entry): seq<Entry> {
    if Has(list, e.id)
    then seq(|list|, k requires 0 <= k < |list| => if list[k].id == e.id then e else list[k])
    else list + [e]
  }

  /** `set(item.id, { ...get(item.id), ...item })` */
  function Upsert(list: seq<Entry>, e: Entry): seq<Entry> {
    if Has(list, e.id)
    then seq(|list|, k requires 0 <= k < |list| => if list[k].id == e.id then Spread(list[k], e) else list[k])
    else list + [e]
  }

  /** The list after the answer to the customer's own order. */
  function Merged(list: seq<Entry>, answer: seq<Entry>): seq<Entry> {
    if answer == [] then list else Upsert(Merged(list, answer[..|answer| - 1]), answer[|answer| - 1])
  }

  // ----- The merge loop -----

  /** The values of a Map under its keys in order. */
  function InOrder(order: seq<Id>, entries: map<Id, Entry>): (r: seq<Entry>)
    requires forall id | id in order :: id in entries
    ensures |r| == |order| && forall k | 0 <= k < |r| :: r[k] == entries[order[k]]
  {
    seq(|order|, k requires 0 <= k < |order| => entries[order[k]])
  }

  /** Keys are distinct and name their entries. */
  ghost predicate Keyed(order: seq<Id>, entries: map<Id, Entry>) {
    && (forall i, j | 0 <= i < j < |order| :: order[i] != order[j])
    && (forall k :: k in entries <==> k in order)
    && forall k | k in entries :: entries[k].id == k
  }

  lemma InOrderHas(order: seq<Id>, entries: map<Id, Entry>)
    requires Keyed(order, entries)
    ensures Unique(InOrder(order, entries)) && forall id :: Has(InOrder(order, entries), id) <==> id in entries
  {
    var r := InOrder(order, entries);
    assert forall k | 0 <= k < |r| :: r[k].id == order[k];
  }

  /** Setting a key is putting its entry. */
  lemma SetIsPut(order: seq<Id>, entries: map<Id, Entry>, e: Entry)
    requires Keyed(order, entries)
    ensures var order' := if e.id in entries then order else order + [e.id];
            && Keyed(order', entries[e.id := e])
            && InOrder(order', entries[e.id := e]) == Put(InOrder(order, entries), e)
  {
    InOrderHas(order, entries);
    var r := InOrder(order, entries);
    assert forall k | 0 <= k < |r| :: r[k].id == order[k];
  }

  /** A JavaScript Map: keys in the order they were first set. */
  class IdMap {
    var order: seq<Id>
    var entries: map<Id, Entry>

    ghost predicate Valid() reads this {
      Keyed(order, entries)
    }

    /** Array.from(byId.values()) */
    function Values(): (r: seq<Entry>)
      reads this
      requires Valid()
      ensures Unique(r) && forall id :: Has(r, id) <==> id in entries
    {
      InOrderHas(order, entries);
      InOrder(order, entries)
    }

    constructor ()
      ensures Valid() && Values() == []
    {
      order := [];
      entries := map[];
    }

    method Set(e: Entry)
      requires Valid()
      modifies this
      ensures Valid() && Values() == Put(old(Values()), e)
    {
      hide Keyed, InOrder, Put;
      SetIsPut(order, entries, e);
      if e.id !in entries {
        order := order + [e.id];
      }
      entries := entries[e.id := e];
    }
  }

  /** `new Map(prev.map(i => [i.id, i]))` */
  function Mapped(list: seq<Entry>): seq<Entry> {
    if list == [] then [] else Put(Mapped(list[..|list| - 1]), list[|list| - 1])
  }

  /** A list without repeated ids survives the Map unchanged. */
  lemma {:induction false} MappedUnique(list: seq<Entry>)
    requires Unique(list)
    ensures Mapped(list) == list
    decreases |list|
  {
    if list != [] {
      var n := |list| - 1;
      MappedUnique(list[..n]);
      assert !Has(list[..n], list[n].id);
      assert list == list[..n] + [list[n]];
    }
  }

  lemma PutIsUpsert(list: seq<Entry>, e: Entry, old_: Entry)
    requires Unique(list) && old_ in list && old_.id == e.id
    ensures Put(list, Spread(old_, e)) == Upsert(list, e)
  {
    var j :| 0 <= j < |list| && list[j] == old_;
    assert forall k | 0 <= k < |list| && list[k].id == e.id :: k == j;
  }

  /** The upsert loop of handleSubmitOrder. */
  method MergeAnswer(prev: seq<Entry>, answer: seq<Entry>) returns (next: seq<Entry>)
    ensures next == Merged(Mapped(prev), answer) && Unique(next)
  {
    var byId := new IdMap();
    for i := 0 to |prev|
      invariant byId.Valid() && byId.Values() == Mapped(prev[..i])
    {
      assert prev[..i + 1][..i] == prev[..i];
      byId.Set(prev[i]);
    }
    assert prev[..|prev|] == prev;
    for i := 0 to |answer|
      invariant byId.Valid() && byId.Values() == Merged(Mapped(prev), answer[..i])
    {
      var item := answer[i];
      assert answer[..i + 1][..i] == answer[..i];
      ghost var list := byId.Values();
      if item.id in byId.entries {
        ghost var k :| 0 <= k < |list| && list[k].id == item.id;
        assert list[k] == byId.entries[item.id];
        PutIsUpsert(list, item, byId.entries[item.id]);
        item := Spread(byId.entries[item.id], item);
      }
      byId.Set(item);
    }
    assert answer[..|answer|] == answer;
    next := byId.Values();
  }

  // ----- One entry per item -----

  lemma UpsertUnique(list: seq<Entry>, e: Entry)
    requires Unique(list)
    ensures Unique(Upsert(list, e)) && forall id :: Has(Upsert(list, e), id) <==> Has(list, id) || id == e.id
  {
    var r := Upsert(list, e);
    assert forall k | 0 <= k < |list| :: r[k].id == list[k].id;
    if !Has(list, e.id) { assert r[|list|].id == e.id; }
  }

  lemma {:induction false} MergedUnique(list: seq<Entry>, answer: seq<Entry>)
    requires Unique(list)
    ensures Unique(Merged(list, answer))
    ensures forall id :: Has(Merged(list, answer), id) <==> Has(list, id) || Has(answer, id)
    decreases |answer|
  {
    if answer != [] {
      var n := |answer| - 1;
      MergedUnique(list, answer[..n]);
      UpsertUnique(Merged(list, answer[..n]), answer[n]);
      assert forall k | 0 <= k < n :: answer[..n][k] == answer[k];
    }
  }

  lemma {:induction false} UnknownEntries(list: seq<Entry>, sent: seq<Entry>)
    requires Unique(sent)
    ensures Unique(Unknown(list, sent))
    ensures forall id :: Has(Unknown(list, sent), id) <==> Has(sent, id) && !Has(list, id)
    decreases |sent|
  {
    if sent != [] {
      var n := |sent| - 1;
      UnknownEntries(list, sent[..n]);
      assert forall k | 0 <= k < n :: sent[..n][k] == sent[k];
      assert sent == sent[..n] + [sent[n]] && !Has(sent[..n], sent[n].id);
      HasAppend(sent[..n], sent[n]);
      HasAppend(Unknown(list, sent[..n]), sent[n]);
      assert Unknown(list, sent[..n]) + [] == Unknown(list, sent[..n]);
    }
  }

  lemma HasAppend(list: seq<Entry>, e: Entry)
    ensures forall id :: Has(list + [e], id) <==> Has(list, id) || id == e.id
    ensures Unique(list) && !Has(list, e.id) ==> Unique(list + [e])
  {
    var r := list + [e];
    assert r[|list|] == e && forall k | 0 <= k < |list| :: r[k] == list[k];
  }

  lemma CreatedUnique(list: seq<Entry>, sent: seq<Entry>)
    requires Unique(list) && Unique(sent)
    ensures Unique(Created(list, sent))
    ensures forall id :: Has(Created(list, sent), id) <==> Has(list, id) || Has(sent, id)
  {
    UnknownEntries(list, sent);
    var more := Unknown(list, sent);
    var r := list + more;
    assert forall k | 0 <= k < |more| :: r[|list| + k] == more[k] && Has(more, more[k].id);
    assert forall k | 0 <= k < |list| :: r[k] == list[k] && Has(list, list[k].id);
  }

  datatype Message =
    | Snapshot(items: seq<Entry>)
    | ItemUpdated(patch: Patch)
    | ItemCancelled(id: Id, now: Value)
    | OrderCreated(sent: seq<Entry>)
    | Answer(items: seq<Entry>)

  function Receive(list: seq<Entry>, m: Message): seq<Entry> {
    match m
    case Snapshot(items) => items
    case ItemUpdated(p) => Updated(list, p)
    case ItemCancelled(id, now) => CancelledAtClient(list, id, now)
    case OrderCreated(sent) => Created(list, sent)
    case Answer(items) => Merged(Mapped(list), items)
  }

  function ReceiveAll(list: seq<Entry>, ms: seq<Message>): seq<Entry>
    decreases |ms|
  {
    if ms == [] then list else ReceiveAll(Receive(list, ms[0]), ms[1..])
  }

  /** A snapshot and an order list each of their items once. */
  predicate WellFormed(m: Message) {
    match m
    case Snapshot(items) => Unique(items)
    case OrderCreated(sent) => Unique(sent)
    case _ => true
  }

  // ----- What an event does to each entry -----

  /** A cancellation marks the entry of that id, its other fields and all other entries stay. */
  lemma CancelledEntries(list: seq<Entry>, id: Id, now: Value)
    ensures var r := Receive(list, ItemCancelled(id, now));
            |r| == |list|
            && forall k | 0 <= k < |list| ::
                 && r[k].id == list[k].id && (list[k].id != id ==> r[k] == list[k])
                 && (list[k].id == id ==>
                       && r[k].fields.Keys == list[k].fields.Keys + {Status, CancelledAt}
                       && r[k].fields[Status] == Text("cancelled") && r[k].fields[CancelledAt] == now
                       && forall f | f in list[k].fields && f != Status && f != CancelledAt ::
                            r[k].fields[f] == list[k].fields[f])
  {
  }

  /** The value of a field an update sends, unless it sends none or null. */
  predicate Sends(sent: Option<Value>, v: Value) {
    sent == Some(v) && v != Null
  }

  /** An update writes the status and the service time it sends into the entry of its id; a
      missing or null value, the other fields and all other entries stay. */
  lemma UpdatedEntries(list: seq<Entry>, p: Patch)
    ensures var r := Receive(list, ItemUpdated(p));
            |r| == |list|
            && forall k | 0 <= k < |list| ::
                 && r[k].id == list[k].id && (list[k].id != p.id ==> r[k] == list[k])
                 && (list[k].id == p.id ==>
                       && (forall v | Sends(p.status, v) :: FieldOf(r[k], Status) == Some(v))
                       && (forall v | Sends(p.servedAt, v) :: FieldOf(r[k], ServedAt) == Some(v))
                       && forall f | !(f == Status && p.status.Some? && p.status.value != Null)
                                     && !(f == ServedAt && p.servedAt.Some? && p.servedAt.value != Null) ::
                            FieldOf(r[k], f) == FieldOf(list[k], f))
  {
    forall k, f | 0 <= k < |list| && list[k].id == p.id
      ensures FieldOf(PatchEntry(list[k], p), f)
              == if f == Status then Or(p.status, FieldOf(list[k], Status))
                 else if f == ServedAt then Or(p.servedAt, FieldOf(list[k], ServedAt)) else FieldOf(list[k], f)
    {
      PatchedField(list[k], p, f);
    }
  }

  lemma PatchedField(e: Entry, p: Patch, f: Field)
    ensures FieldOf(PatchEntry(e, p), f)
            == if f == Status then Or(p.status, FieldOf(e, Status))
               else if f == ServedAt then Or(p.servedAt, FieldOf(e, ServedAt)) else FieldOf(e, f)
  {
  }

  /** These are the places, in order, of the entries whose ids are not in the list. */
  predicate NewPlaces(list: seq<Entry>, sent: seq<Entry>, at: seq<nat>) {
    && (forall i, j | 0 <= i < j < |at| :: at[i] < at[j])
    && (forall j | 0 <= j < |at| :: at[j] < |sent|)
    && forall k: nat | k < |sent| :: k in at <==> forall i | 0 <= i < |list| :: list[i].id != sent[k].id
  }

  /** A new order is appended: the entries not yet in the list, in their order, and no others;
      what is in the list stays. */
  lemma CreatedEntries(list: seq<Entry>, sent: seq<Entry>) returns (at: seq<nat>)
    ensures NewPlaces(list, sent, at)
    ensures var r := Receive(list, OrderCreated(sent));
            && |r| == |list| + |at| && (forall k | 0 <= k < |list| :: r[k] == list[k])
            && forall j | 0 <= j < |at| :: r[|list| + j] == sent[at[j]]
  {
    at := UnknownPlaces(list, sent);
  }

  lemma {:induction false} UnknownPlaces(list: seq<Entry>, sent: seq<Entry>) returns (at: seq<nat>)
    ensures NewPlaces(list, sent, at)
    ensures |Unknown(list, sent)| == |at| && forall j | 0 <= j < |at| :: Unknown(list, sent)[j] == sent[at[j]]
    decreases |sent|
  {
    at := [];
    if sent != [] {
      var n := |sent| - 1;
      at := UnknownPlaces(list, sent[..n]);
      forall k: nat | k < n ensures k in at <==> forall i | 0 <= i < |list| :: list[i].id != sent[k].id {
        assert sent[..n][k] == sent[k];
      }
      if !Has(list, sent[n].id) {
        at := at + [n];
      }
    }
  }

  /** The answer to the guests' own order completes the entries it lists, its values winning,
      leaves the others as they are, and appends what was not in the list. */
  lemma AnsweredEntries(list: seq<Entry>, answer: seq<Entry>) returns (at: seq<nat>)
    requires Unique(list) && Unique(answer)
    ensures NewPlaces(list, answer, at)
    ensures var r := Receive(list, Answer(answer));
            && |r| == |list| + |at| && (forall j | 0 <= j < |at| :: r[|list| + j] == answer[at[j]])
            && (forall k | 0 <= k < |list| && (forall j | 0 <= j < |answer| :: answer[j].id != list[k].id) ::
                  r[k] == list[k])
            && forall k, j | 0 <= k < |list| && 0 <= j < |answer| && answer[j].id == list[k].id ::
                 && r[k].id == list[k].id && r[k].fields.Keys == list[k].fields.Keys + answer[j].fields.Keys
                 && forall f | f in r[k].fields ::
                      r[k].fields[f] == if f in answer[j].fields then answer[j].fields[f] else list[k].fields[f]
  {
    hide Unknown, Lookup;
    MappedUnique(list);
    MergedShape(list, answer);
    at := UnknownPlaces(list, answer);
    forall k, j | 0 <= k < |list| && 0 <= j < |answer| && answer[j].id == list[k].id
      ensures CompletedAll(list, answer)[k] == Spread(list[k], answer[j])
    {
      var e := Lookup(answer, list[k].id);
      var i :| 0 <= i < |answer| && answer[i] == e;
      assert i == j;
    }
  }

  /** Under any interleaving of snapshots, events and answers the list has one entry per item. */
  lemma {:induction false} NoDuplicates(list: seq<Entry>, ms: seq<Message>)
    requires Unique(list) && forall m | m in ms :: WellFormed(m)
    ensures Unique(ReceiveAll(list, ms))
    decreases |ms|
  {
    if ms != [] {
      assert WellFormed(ms[0]);
      match ms[0] {
        case OrderCreated(sent) => CreatedUnique(list, sent);
        case Answer(items) =>
          MappedUnique(list);
          MergedUnique(list, items);
        case _ =>
      }
      NoDuplicates(Receive(list, ms[0]), ms[1..]);
    }
  }

  // ----- An order's event and its answer -----

  /** The event and the answer list the same items in the same order, and the answer has every
      field the event has. */
  predicate SameOrder(sent: seq<Entry>, answer: seq<Entry>) {
    && |sent| == |answer|
    && forall k | 0 <= k < |sent| :: sent[k].id == answer[k].id && sent[k].fields.Keys <= answer[k].fields.Keys
  }

  /** Merging entries that are all known leaves an unrelated last entry where it is. */
  lemma {:induction false} MergeBefore(list: seq<Entry>, last: Entry, answer: seq<Entry>)
    requires !Has(answer, last.id) && forall k | 0 <= k < |answer| :: Has(list, answer[k].id)
    requires Unique(list)
    ensures Merged(list + [last], answer) == Merged(list, answer) + [last]
    decreases |answer|
  {
    if answer != [] {
      var n := |answer| - 1;
      var e, rest := answer[n], answer[..n];
      assert answer == rest + [e];
      HasAppend(rest, e);
      MergeBefore(list, last, rest);
      MergedUnique(list, rest);
      HasAppend(Merged(list, rest), last);
      UpsertBefore(Merged(list, rest), last, e);
    }
  }

  lemma UpsertBefore(list: seq<Entry>, last: Entry, e: Entry)
    requires Has(list, e.id) && e.id != last.id
    ensures Upsert(list + [last], e) == Upsert(list, e) + [last]
  {
    HasAppend(list, last);
  }

  lemma UpsertLast(list: seq<Entry>, last: Entry, e: Entry)
    requires !Has(list, e.id) && e.id == last.id && last.fields.Keys <= e.fields.Keys
    ensures Upsert(list + [last], e) == list + [e]
  {
    HasAppend(list, last);
    assert forall k | 0 <= k < |list| :: list[k].id != e.id;
    assert last.fields + e.fields == e.fields;
  }

  /** The answer makes the event's partial entries disappear without a trace. */
  lemma {:induction false} AnswerCompletes(list: seq<Entry>, sent: seq<Entry>, answer: seq<Entry>)
    requires Unique(list) && Unique(sent) && SameOrder(sent, answer)
    ensures Merged(Created(list, sent), answer) == Merged(list, answer)
    decreases |sent|
  {
    if sent == [] {
      assert Created(list, sent) == list;
    } else {
      var n := |sent| - 1;
      var s, a, sents, answers := sent[n], answer[n], sent[..n], answer[..n];
      assert sent == sents + [s] && answer == answers + [a];
      AnswerCompletes(list, sents, answers);
      var known := Created(list, sents);
      CreatedUnique(list, sents);
      MergedUnique(list, answers);
      MergedUnique(known, answers);
      SameIds(sents, answers);
      if Has(list, s.id) {
        assert Created(list, sent) == known;
      } else {
        assert Created(list, sent) == known + [s];
        assert !Has(sents, s.id);
        assert forall k | 0 <= k < n :: Has(answers, answers[k].id);
        MergeBefore(known, s, answers);
        UpsertLast(Merged(list, answers), s, a);
      }
    }
  }

  lemma SameIds(sent: seq<Entry>, answer: seq<Entry>)
    requires SameOrder(sent, answer)
    ensures forall id :: Has(sent, id) <==> Has(answer, id)
  {
    forall id ensures Has(sent, id) <==> Has(answer, id) {
      if Has(sent, id) {
        var k :| 0 <= k < |sent| && sent[k].id == id;
        assert answer[k].id == id;
      }
      if Has(answer, id) {
        var k :| 0 <= k < |answer| && answer[k].id == id;
        assert sent[k].id == id;
      }
    }
  }

  lemma {:induction false} NothingUnknown(list: seq<Entry>, sent: seq<Entry>)
    requires forall k | 0 <= k < |sent| :: Has(list, sent[k].id)
    ensures Unknown(list, sent) == []
    decreases |sent|
  {
    if sent != [] {
      NothingUnknown(list, sent[..|sent| - 1]);
    }
  }

  lemma NothingNew(list: seq<Entry>, sent: seq<Entry>, answer: seq<Entry>)
    requires Unique(list) && SameOrder(sent, answer)
    ensures Created(Merged(list, answer), sent) == Merged(list, answer)
  {
    MergedUnique(list, answer);
    SameIds(sent, answer);
    forall k | 0 <= k < |sent| ensures Has(Merged(list, answer), sent[k].id) {
      assert Has(sent, sent[k].id);
    }
    NothingUnknown(Merged(list, answer), sent);
  }

  lemma InTurn(list: seq<Entry>, a: Message, b: Message)
    ensures ReceiveAll(list, [a, b]) == Receive(Receive(list, a), b)
  {
    var ms := [a, b];
    assert ms[1..] == [b] && ms[1..][1..] == [];
    assert ReceiveAll(Receive(list, a), ms[1..]) == ReceiveAll(Receive(Receive(list, a), b), ms[1..][1..]);
  }

  /** The pushed event of the customer's own order and the HTTP answer may arrive in either
      adjacent order: the list ends up the same, entry by entry and in the same places. */
  lemma EventAndAnswerCommute(list: seq<Entry>, sent: seq<Entry>, answer: seq<Entry>)
    requires Unique(list) && Unique(sent) && SameOrder(sent, answer)
    ensures ReceiveAll(list, [OrderCreated(sent), Answer(answer)])
            == ReceiveAll(list, [Answer(answer), OrderCreated(sent)])
  {
    hide Created, Merged, Mapped, SameOrder, Unique, Has;
    var known, merged := Created(list, sent), Merged(list, answer);
    CreatedUnique(list, sent);
    MappedUnique(list);
    MappedUnique(known);
    AnswerCompletes(list, sent, answer);
    NothingNew(list, sent, answer);
    InTurn(list, OrderCreated(sent), Answer(answer));
    InTurn(list, Answer(answer), OrderCreated(sent));
  }

  // ----- An update that overtakes the answer -----

  /** The entry the answer has for an id. */
  function Lookup(answer: seq<Entry>, id: Id): (e: Entry)
    requires Has(answer, id)
    ensures e in answer && e.id == id
  {
    if answer[|answer| - 1].id == id then answer[|answer| - 1] else Lookup(answer[..|answer| - 1], id)
  }

  /** What the answer makes of an entry. */
  function Completed(e: Entry, answer: seq<Entry>): Entry {
    if Has(answer, e.id) then Spread(e, Lookup(answer, e.id)) else e
  }

  function CompletedAll(list: seq<Entry>, answer: seq<Entry>): seq<Entry> {
    seq(|list|, k requires 0 <= k < |list| => Completed(list[k], answer))
  }

  /** What the merge loop amounts to: every entry is completed in its place, and what was
      unknown follows in the order of the answer. */
  lemma {:induction false} MergedShape(list: seq<Entry>, answer: seq<Entry>)
    requires Unique(list) && Unique(answer)
    ensures Merged(list, answer)
            == CompletedAll(list, answer) + Unknown(list, answer)
    decreases |answer|
  {
    if answer == [] {
      assert Merged(list, answer) == list == CompletedAll(list, answer);
    } else {
      var n := |answer| - 1;
      var e, rest := answer[n], answer[..n];
      assert answer == rest + [e];
      HasAppend(rest, e);
      MergedShape(list, rest);
      UnknownEntries(list, rest);
      assert !Has(rest, e.id);
      OneMoreAnswer(list, rest, e);
    }
  }

  lemma OneMoreAnswer(list: seq<Entry>, rest: seq<Entry>, e: Entry)
    requires Unique(list) && Unique(rest) && !Has(rest, e.id)
    ensures Upsert(CompletedAll(list, rest) + Unknown(list, rest), e)
            == CompletedAll(list, rest + [e]) + (Unknown(list, rest) + if Has(list, e.id) then [] else [e])
  {
    hide Unknown, Upsert, CompletedAll;
    var first, more := CompletedAll(list, rest), Unknown(list, rest);
    UnknownEntries(list, rest);
    assert !Has(more, e.id);
    CompletedOneMore(list, rest, e);
    hide Has;
    if Has(list, e.id) {
      UpsertInFirst(first, more, e);
      assert more + [] == more;
    } else {
      UpsertNew(first, more, e);
      assert first + more + [e] == first + (more + [e]);
    }
  }

  lemma UpsertInFirst(first: seq<Entry>, more: seq<Entry>, e: Entry)
    requires Has(first, e.id) && !Has(more, e.id)
    ensures Upsert(first + more, e) == Upsert(first, e) + more
  {
    var k := IndexOf(first, e.id);
    assert (first + more)[k] == first[k];
    NowhereIn(more, e.id);
    assert forall k | 0 <= k < |more| :: (first + more)[|first| + k] == more[k];
  }

  lemma UpsertNew(first: seq<Entry>, more: seq<Entry>, e: Entry)
    requires !Has(first, e.id) && !Has(more, e.id)
    ensures Upsert(first + more, e) == first + more + [e]
  {
    NowhereIn(first, e.id);
    NowhereIn(more, e.id);
    assert forall k | 0 <= k < |first + more| ::
        (first + more)[k] == if k < |first| then first[k] else more[k - |first|];
    assert !Has(first + more, e.id);
  }

  lemma CompletedOneMore(list: seq<Entry>, rest: seq<Entry>, e: Entry)
    requires !Has(rest, e.id)
    ensures Has(CompletedAll(list, rest), e.id) <==> Has(list, e.id)
    ensures CompletedAll(list, rest + [e])
            == if Has(list, e.id) then Upsert(CompletedAll(list, rest), e) else CompletedAll(list, rest)
  {
    hide Spread, Completed;
    var first := CompletedAll(list, rest);
    forall k | 0 <= k < |list|
      ensures first[k].id == list[k].id
      ensures CompletedAll(list, rest + [e])[k] == if first[k].id == e.id then Spread(first[k], e) else first[k]
    {
      OneMoreCompletion(list[k], rest, e);
    }
    if Has(list, e.id) {
      var k := IndexOf(list, e.id);
      assert first[k].id == e.id;
    } else {
      NowhereIn(list, e.id);
    }
  }

  lemma OneMoreCompletion(x: Entry, rest: seq<Entry>, e: Entry)
    requires !Has(rest, e.id)
    ensures Completed(x, rest).id == x.id
    ensures Completed(x, rest + [e]) == if x.id == e.id then Spread(Completed(x, rest), e) else Completed(x, rest)
  {
    HasAppend(rest, e);
    assert (rest + [e])[..|rest|] == rest;
  }

  lemma IndexOf(list: seq<Entry>, id: Id) returns (k: nat)
    requires Has(list, id)
    ensures k < |list| && list[k].id == id
  {
    k :| 0 <= k < |list| && list[k].id == id;
  }

  lemma KnownSurvive(list: seq<Entry>, answer: seq<Entry>, p: Patch)
    requires forall e | e in answer :: Status in e.fields && ServedAt in e.fields
    ensures CompletedAll(Updated(list, p), answer) == Updated(CompletedAll(list, answer), p)
            <==> !Has(answer, p.id) || !Has(list, p.id) || Agrees(Lookup(answer, p.id), p)
  {
    hide Spread, PatchEntry, Agrees, Has;
    var late, early := CompletedAll(Updated(list, p), answer), Updated(CompletedAll(list, answer), p);
    forall k | 0 <= k < |list|
      ensures late[k] == early[k] <==> list[k].id != p.id || !Has(answer, p.id) || Agrees(Lookup(answer, p.id), p)
    {
      KnownSurvives(list[k], answer, p);
    }
    if Has(list, p.id) {
      var k := IndexOf(list, p.id);
      assert late == early ==> late[k] == early[k];
    } else {
      NowhereIn(list, p.id);
    }
  }

  lemma NowhereIn(list: seq<Entry>, id: Id)
    requires !Has(list, id)
    ensures forall k | 0 <= k < |list| :: list[k].id != id
  {
  }

  lemma KnownSurvives(e: Entry, answer: seq<Entry>, p: Patch)
    requires forall e | e in answer :: Status in e.fields && ServedAt in e.fields
    ensures Patched(e, p).id == e.id && Completed(e, answer).id == e.id
    ensures Completed(Patched(e, p), answer) == Patched(Completed(e, answer), p)
            <==> e.id != p.id || !Has(answer, p.id) || Agrees(Lookup(answer, p.id), p)
  {
    if e.id == p.id && Has(answer, p.id) {
      EntrySurvives(e, Lookup(answer, p.id), p);
    }
  }

  lemma NewSurvive(list: seq<Entry>, answer: seq<Entry>, p: Patch)
    requires Unique(answer) && forall e | e in answer :: Status in e.fields && ServedAt in e.fields
    ensures var more := Unknown(list, answer);
            Updated(more, p) == more <==> !Has(answer, p.id) || Has(list, p.id) || Agrees(Lookup(answer, p.id), p)
  {
    hide PatchEntry, Agrees, Has, Unknown;
    var more := Unknown(list, answer);
    UnknownEntries(list, answer);
    UnknownFromAnswer(list, answer);
    forall k | 0 <= k < |more| ensures Updated(more, p)[k] == more[k] <==> more[k].id != p.id || Agrees(more[k], p) {
      assert more[k] in more;
      PatchAgrees(more[k], p);
    }
    if Has(more, p.id) {
      var k := IndexOf(more, p.id);
      assert more[k] in more;
      assert Updated(more, p) == more ==> Updated(more, p)[k] == more[k];
    } else {
      NowhereIn(more, p.id);
    }
  }

  /** The answer puts back the fields it carries, so an update that arrives between the order
      and its answer survives exactly when the answer does not contradict it. */
  lemma UpdateSurvivesAnswer(list: seq<Entry>, answer: seq<Entry>, p: Patch)
    requires Unique(list) && Unique(answer)
    requires forall e | e in answer :: Status in e.fields && ServedAt in e.fields
    ensures Merged(Updated(list, p), answer) == Updated(Merged(list, answer), p)
            <==> !Has(answer, p.id) || Agrees(Lookup(answer, p.id), p)
  {
    hide PatchEntry, Agrees, Unknown, Merged;
    var patched, more := Updated(list, p), Unknown(list, answer);
    PatchKeepsIds(list, p);
    hide Has;
    MergedShape(list, answer);
    MergedShape(patched, answer);
    SameUnknown(list, patched, answer);
    KnownSurvive(list, answer, p);
    NewSurvive(list, answer, p);
    assert Merged(list, answer) == CompletedAll(list, answer) + more;
    assert Merged(patched, answer) == CompletedAll(patched, answer) + more;
    assert Updated(CompletedAll(list, answer) + more, p) == Updated(CompletedAll(list, answer), p) + Updated(more, p);
    SplitEqual(CompletedAll(patched, answer), more, Updated(CompletedAll(list, answer), p), Updated(more, p));
  }

  lemma PatchKeepsIds(list: seq<Entry>, p: Patch)
    ensures Unique(list) ==> Unique(Updated(list, p))
    ensures forall k | 0 <= k < |list| :: Updated(list, p)[k].id == list[k].id
    ensures forall id :: Has(Updated(list, p), id) <==> Has(list, id)
  {
    assert forall k | 0 <= k < |list| :: Updated(list, p)[k].id == list[k].id;
  }

  lemma SplitEqual(a: seq<Entry>, b: seq<Entry>, c: seq<Entry>, d: seq<Entry>)
    requires |a| == |c|
    ensures a + b == c + d <==> a == c && b == d
  {
    if a + b == c + d {
      assert a == (a + b)[..|a|] && c == (c + d)[..|a|];
      assert b == (a + b)[|a|..] && d == (c + d)[|a|..];
    }
  }

  predicate Agrees(e: Entry, p: Patch) {
    Or(p.status, FieldOf(e, Status)) == FieldOf(e, Status) &&
        Or(p.servedAt, FieldOf(e, ServedAt)) == FieldOf(e, ServedAt)
  }

  lemma PatchAgrees(e: Entry, p: Patch)
    requires Status in e.fields && ServedAt in e.fields
    ensures PatchEntry(e, p) == e <==> Agrees(e, p)
  {
    var r := PatchEntry(e, p);
    assert FieldOf(r, Status) == Or(p.status, FieldOf(e, Status));
    assert FieldOf(r, ServedAt) == Or(p.servedAt, FieldOf(e, ServedAt));
    if Agrees(e, p) {
      assert r.fields == e.fields;
    }
  }

  lemma EntrySurvives(e: Entry, answer: Entry, p: Patch)
    requires e.id == answer.id == p.id && Status in answer.fields && ServedAt in answer.fields
    ensures Spread(PatchEntry(e, p), answer) == PatchEntry(Spread(e, answer), p) <==> Agrees(answer, p)
  {
    var merged := Spread(e, answer);
    assert Spread(PatchEntry(e, p), answer).fields == merged.fields;
    assert FieldOf(merged, Status) == FieldOf(answer, Status) && FieldOf(merged, ServedAt) == FieldOf(answer, ServedAt);
    PatchAgrees(merged, p);
  }

  lemma {:induction false} SameUnknown(a: seq<Entry>, b: seq<Entry>, sent: seq<Entry>)
    requires forall id :: Has(a, id) <==> Has(b, id)
    ensures Unknown(a, sent) == Unknown(b, sent)
    decreases |sent|
  {
    if sent != [] {
      SameUnknown(a, b, sent[..|sent| - 1]);
    }
  }

  lemma {:induction false} UnknownFromAnswer(list: seq<Entry>, answer: seq<Entry>)
    requires Unique(answer)
    ensures forall e | e in Unknown(list, answer) :: e in answer && !Has(list, e.id) && Lookup(answer, e.id) == e
    decreases |answer|
  {
    if answer != [] {
      var n := |answer| - 1;
      assert answer == answer[..n] + [answer[n]];
      HasAppend(answer[..n], answer[n]);
      UnknownFromAnswer(list, answer[..n]);
    }
  }
}
