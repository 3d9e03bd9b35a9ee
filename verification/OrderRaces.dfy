/** create_order among edits of the menu and all other transactions: whatever is committed
    between its reads of the menu and its insert, the order is in the database whole or not
    at all, and each of its rows is a snapshot of a menu row that was on sale at some instant
    while the request was reading the menu. */
module OrderRaces {
  import opened Schema
  import opened Effects
  import opened Laws
  import opened Requests
  import opened Columns
  import opened Interleaving
  import opened Statements
  import opened Isolation
  import opened Races
  import O = Ordering

  // ----- What the order has read -----

  predicate OnSaleAs(menu: Menu, r: Id, m: Id, dish: MenuRow) {
    m in menu && menu[m] == dish && dish.restaurant == r && dish.active && dish.available
  }

  /** In this state t is reading the menu, and the menu item can be ordered as this row. */
  predicate ReadsOnSale(w: World, t: Id, r: Id, m: Id, dish: MenuRow) {
    t in w.txns && w.txns[t].pc.OrderRead? && OnSaleAs(w.db.menu, r, m, dish)
  }

  /** So it is in some state of the schedule. */
  ghost predicate WasOnSale(w: World, acts: seq<Action>, t: Id, r: Id, m: Id, dish: MenuRow) {
    exists n: nat :: n <= |acts| && Schedule(w, acts[..n]) && ReadsOnSale(Outcome(w, acts[..n]), t, r, m, dish)
  }

  ghost predicate AllSeen(w: World, acts: seq<Action>, t: Id, r: Id, dishes: Menu) {
    forall m | m in dishes :: WasOnSale(w, acts, t, r, m, dishes[m])
  }

  lemma StillSeen(w: World, acts: seq<Action>, a: Action, t: Id, r: Id, m: Id, dish: MenuRow)
    requires WasOnSale(w, acts, t, r, m, dish)
    ensures WasOnSale(w, acts + [a], t, r, m, dish)
  {
    var n: nat :| n <= |acts| && Schedule(w, acts[..n]) && ReadsOnSale(Outcome(w, acts[..n]), t, r, m, dish);
    assert (acts + [a])[..n] == acts[..n];
  }

  lemma JustSeen(w: World, acts: seq<Action>, a: Action, t: Id, r: Id, m: Id, dish: MenuRow)
    requires Schedule(w, acts) && ReadsOnSale(Outcome(w, acts), t, r, m, dish)
    ensures WasOnSale(w, acts + [a], t, r, m, dish)
  {
    assert (acts + [a])[..|acts|] == acts;
  }

  /** The order of the basket for session sid of restaurant r, not committed yet. */
  predicate IsOrder(pc: Pc, sid: Id, r: Id, basket: Basket) {
    Ordering(pc) && pc.sid == sid && pc.restaurant == r && pc.basket == basket
  }

  predicate OrderEnded(pc: Pc) {
    pc.OrderDone? || pc.OrderRefused? || pc.Aborted?
  }

  /** A statement keeps what has been read, or reads one more row that is on sale; the order is
      done with its commit and not before. */
  predicate GoesOn(menu: Menu, pc: Pc, st: Statement, sid: Id, r: Id, basket: Basket)
    requires Ordering(pc)
  {
    match st
    case Blocked => true
    case Goto(next) =>
      next.pc.OrderRefused? || (IsOrder(next.pc, sid, r, basket) && ReadMore(menu, r, pc, next.pc.dishes))
    case Write(_, next) => IsOrder(next.pc, sid, r, basket) && next.pc.dishes == pc.dishes
    case Commit(next) => pc.OrderCommit? && next.pc.OrderDone?
    case Rollback(_) => false
  }

  predicate ReadMore(menu: Menu, r: Id, pc: Pc, after: Menu)
    requires Ordering(pc)
  {
    forall m | m in after ::
      (m in pc.dishes && after[m] == pc.dishes[m]) || (pc.OrderRead? && OnSaleAs(menu, r, m, after[m]))
  }

  lemma OrderGoesOn(w: World, t: Id, x: Txn, sid: Id, r: Id, basket: Basket)
    requires IsOrder(x.pc, sid, r, basket) && OnSale(x.pc.dishes, r)
    ensures GoesOn(w.db.menu, x.pc, NextOrder(w, t, x), sid, r, basket)
  {
    hide Free, RowsOf;
  }

  lemma OrderIsNext(w: World, t: Id, pick: Id)
    requires t in w.txns && Ordering(w.txns[t].pc)
    ensures Next(w, t, pick) == NextOrder(w, t, Awake(w, w.txns[t]))
  {
    hide NextOrder;
  }

  /** From the answer of get_or_open on: t carries the basket with what it has read, or is over. */
  ghost predicate OnItsWay(w: World, acts: seq<Action>, t: Id, sid: Id, r: Id, basket: Basket)
    requires Schedule(w, acts)
  {
    && t in Outcome(w, acts).txns
    && var pc := Outcome(w, acts).txns[t].pc;
       OrderEnded(pc) || (IsOrder(pc, sid, r, basket) && AllSeen(w, acts, t, r, pc.dishes))
  }

  lemma OnItsWayRun(w: World, acts: seq<Action>, t: Id, pick: Id, sid: Id, r: Id, basket: Basket)
    requires Schedule(w, acts) && Coherent(Outcome(w, acts)) && Enabled(Outcome(w, acts), Run(t, pick))
    requires OnItsWay(w, acts, t, sid, r, basket)
    ensures t in Step(Outcome(w, acts), Run(t, pick)).txns
    ensures var pc := Step(Outcome(w, acts), Run(t, pick)).txns[t].pc;
            OrderEnded(pc) || (IsOrder(pc, sid, r, basket) && AllSeen(w, acts + [Run(t, pick)], t, r, pc.dishes))
  {
    hide Coherent, Next, NextOrder, WasOnSale, OkOrder;
    var u, a := Outcome(w, acts), Run(t, pick);
    var x := Awake(u, u.txns[t]);
    EndedIsOver(u, t, pick);
    InvPoised(u, t);
    OrderIsNext(u, t, pick);
    OrderReads(u.db, x);
    OrderGoesOn(u, t, x, sid, r, basket);
    var pc := Step(u, a).txns[t].pc;
    if IsOrder(pc, sid, r, basket) {
      forall m | m in pc.dishes ensures WasOnSale(w, acts + [a], t, r, m, pc.dishes[m]) {
        if m in x.pc.dishes && pc.dishes[m] == x.pc.dishes[m] {
          StillSeen(w, acts, a, t, r, m, pc.dishes[m]);
        } else {
          JustSeen(w, acts, a, t, r, m, pc.dishes[m]);
        }
      }
    }
  }

  lemma EndedIsOver(w: World, t: Id, pick: Id)
    requires t in w.txns
    ensures OrderEnded(w.txns[t].pc) ==> Next(w, t, pick) == Blocked
  {
  }

  lemma OrderReads(db: Db, x: Txn)
    requires Ok(db, x) && Ordering(x.pc)
    ensures OnSale(x.pc.dishes, x.pc.restaurant)
  {
    hide ReadSoFar, RowsOf;
  }

  lemma OnItsWayStep(w: World, acts: seq<Action>, a: Action, t: Id, sid: Id, r: Id, basket: Basket)
    requires Schedule(w, acts) && Schedule(w, acts + [a]) && Enabled(Outcome(w, acts), a)
    requires Outcome(w, acts + [a]) == Step(Outcome(w, acts), a) && Coherent(Outcome(w, acts))
    requires OnItsWay(w, acts, t, sid, r, basket)
    ensures OnItsWay(w, acts + [a], t, sid, r, basket)
  {
    hide Coherent, Next, WasOnSale, Schedule, Outcome;
    var u := Outcome(w, acts);
    if a.Run? && a.t == t {
      OnItsWayRun(w, acts, t, a.pick, sid, r, basket);
    } else {
      OtherSteps(u, a, t);
      var pc := Step(u, a).txns[t].pc;
      if pc == u.txns[t].pc && IsOrder(pc, sid, r, basket) {
        forall m | m in pc.dishes ensures WasOnSale(w, acts + [a], t, r, m, pc.dishes[m]) {
          StillSeen(w, acts, a, t, r, m, pc.dishes[m]);
        }
      }
    }
  }

  /** A step not taken by t leaves t where it is, or aborts it. */
  lemma OtherSteps(w: World, a: Action, t: Id)
    requires Enabled(w, a) && t in w.txns && !(a.Run? && a.t == t) && !SweepAborts(w, a, t)
    ensures t in Step(w, a).txns
    ensures Step(w, a).txns[t].pc == w.txns[t].pc || Step(w, a).txns[t].pc == Aborted
  {
    hide Next, With;
    if a.Run? { OthersPc(w, a.t, a.pick, t); }
  }

  predicate SweepAborts(w: World, a: Action, t: Id) {
    a.Abort? && a.t == t && t in w.txns && (Abandoning(w.txns[t].pc) || w.txns[t].pc.SweepNext?)
  }

  lemma {:induction false} OnItsWayAll(w: World, acts: seq<Action>, t: Id, sid: Id, r: Id, basket: Basket)
    requires Coherent(w) && Schedule(w, acts) && OnItsWay(w, [], t, sid, r, basket)
    ensures OnItsWay(w, acts, t, sid, r, basket)
    decreases |acts|
  {
    hide Coherent, Enabled, Step, OnItsWay, OrderEnded;
    if acts != [] {
      var n := |acts| - 1;
      assert acts == acts[..n] + [acts[n]];
      ScheduleLast(w, acts[..n], acts[n]);
      OnItsWayAll(w, acts[..n], t, sid, r, basket);
      ScheduleRefines(w, acts[..n]);
      OnItsWayStep(w, acts[..n], acts[n], t, sid, r, basket);
    }
  }

  /** The step by which get_or_open answers an order of the basket with session sid. */
  ghost predicate AnswersOrder(w: World, t: Id, a: Action, sid: Id, basket: Basket)
    requires Enabled(w, a)
  {
    && a.Run? && a.t == t && Opening(w.txns[t].pc) && w.txns[t].pc.goal == ToOrder(basket)
    && Answer(Step(w, a).txns[t].pc) == Some(sid)
  }

  lemma AnswerIsOnItsWay(w: World, t: Id, a: Action, sid: Id, basket: Basket)
    requires Enabled(w, a) && AnswersOrder(w, t, a, sid, basket)
    ensures OnItsWay(Step(w, a), [], t, sid, w.txns[t].pc.restaurant, basket)
  {
    hide NextOrder, NextItem, NextCall, NextAck, NextRestore, NextClose, NextSweep, FindOpen, IndexBusy, Free;
  }

  // ----- What it commits -----

  /** Exactly one row per line, each with the menu item, quantity and note of the line and the
      name, price and preparation time that the dishes show for its menu item. */
  ghost predicate Snapshots(added: map<Id, ItemRow>, basket: Basket, r: Id, dishes: Menu, at: Time) {
    && |basket.ids| == |basket.lines| && (forall i :: i in added <==> i in basket.ids)
    && forall k | 0 <= k < |basket.lines| ::
         && basket.lines[k].menuItem in dishes && basket.ids[k] in added
         && Records(added[basket.ids[k]], dishes[basket.lines[k].menuItem], r, basket.order, basket.lines[k], at)
  }

  lemma RowsAreSnapshots(basket: Basket, r: Id, dishes: Menu, at: Time)
    requires Fits(ToOrder(basket)) && AllRead(basket, r, dishes)
    ensures Snapshots(RowsOf(basket, r, dishes, at), basket, r, dishes, at)
  {
    hide LineRows, Records;
    O.RowsRecord(dishes, r, basket.order, basket.lines, basket.ids, at);
  }

  /** The effect of an order: one row per line in order, snapshots of these dishes. */
  ghost predicate Places(es: seq<Effect>, sid: Id, r: Id, basket: Basket, dishes: Menu) {
    && |es| == 1 && es[0].PlaceOrder? && es[0].order == basket.order && es[0].session == sid && es[0].restaurant == r
    && Snapshots(es[0].added, basket, r, dishes, es[0].at)
  }

  /** What an order commits: one row per line in order, each a snapshot of a menu row that was
      on sale at some instant while t was reading the menu; lines of one menu item share it. */
  lemma OrderIsSnapshot(w: World, t: Id, answer: Action, acts: seq<Action>, q: Id, sid: Id, basket: Basket)
      returns (dishes: Menu)
    requires Coherent(w) && Enabled(w, answer) && AnswersOrder(w, t, answer, sid, basket)
    requires Schedule(Step(w, answer), acts) && Enabled(Outcome(Step(w, answer), acts), Run(t, q))
    requires Outcome(Step(w, answer), acts).txns[t].pc.OrderCommit?
    ensures var r := w.txns[t].pc.restaurant;
            && Places(EffectsOf(Outcome(Step(w, answer), acts), Run(t, q)), sid, r, basket, dishes)
            && AllSeen(Step(w, answer), acts, t, r, dishes)
  {
    var r := w.txns[t].pc.restaurant;
    hide Coherent, Step, AnswersOrder, Places, AllSeen, Next, EffectsOf, Enabled;
    AnswerIsOnItsWay(w, t, answer, sid, basket);
    StepRefines(w, answer);
    dishes := SnapshotAlong(Step(w, answer), acts, t, q, sid, r, basket);
  }

  lemma SnapshotAlong(w: World, acts: seq<Action>, t: Id, q: Id, sid: Id, r: Id, basket: Basket) returns (dishes: Menu)
    requires Coherent(w) && Schedule(w, acts) && OnItsWay(w, [], t, sid, r, basket)
    requires t in Outcome(w, acts).txns && Outcome(w, acts).txns[t].pc.OrderCommit?
    ensures Places(EffectsOf(Outcome(w, acts), Run(t, q)), sid, r, basket, dishes) && AllSeen(w, acts, t, r, dishes)
  {
    hide Coherent, Places, AllSeen, EffectsOf;
    OnItsWayAll(w, acts, t, sid, r, basket);
    ScheduleRefines(w, acts);
    dishes := Outcome(w, acts).txns[t].pc.dishes;
    CommitPlaces(Outcome(w, acts), t, q);
  }

  lemma CommitPlaces(w: World, t: Id, q: Id)
    requires Coherent(w) && t in w.txns && w.txns[t].pc.OrderCommit?
    ensures var pc := w.txns[t].pc; Places(EffectsOf(w, Run(t, q)), pc.sid, pc.restaurant, pc.basket, pc.dishes)
  {
    hide Coherent, Snapshots, RowsOf;
    CommitsSnapshots(w, t);
  }

  lemma CommitsSnapshots(w: World, t: Id)
    requires Coherent(w) && t in w.txns && w.txns[t].pc.OrderCommit?
    ensures var pc := w.txns[t].pc; var added := RowsOf(pc.basket, pc.restaurant, pc.dishes, pc.at);
            && EffectAt(w.txns[t]) == [PlaceOrder(pc.basket.order, pc.sid, pc.restaurant, added, pc.at)]
            && Snapshots(added, pc.basket, pc.restaurant, pc.dishes, pc.at)
  {
    hide Sound, IndexOk, Disjoint, Snapshots, RowsOf, Ok;
    var pc := w.txns[t].pc;
    assert Ok(w.db, w.txns[t]);
    ReadAtCommit(w.db, w.txns[t]);
    RowsAreSnapshots(pc.basket, pc.restaurant, pc.dishes, pc.at);
  }

  lemma ReadAtCommit(db: Db, x: Txn)
    requires Ok(db, x) && x.pc.OrderCommit?
    ensures Fits(ToOrder(x.pc.basket)) && AllRead(x.pc.basket, x.pc.restaurant, x.pc.dishes)
    ensures EffectAt(x) == [PlaceOrder(x.pc.basket.order, x.pc.sid, x.pc.restaurant,
                                       RowsOf(x.pc.basket, x.pc.restaurant, x.pc.dishes, x.pc.at), x.pc.at)]
  {
    hide RowsOf, AllRead, Fits;
  }

  // ----- All or nothing -----

  /** The transaction will, or may, insert an order under this identifier. */
  predicate Carries(pc: Pc, order: Id) {
    || (Opening(pc) && pc.goal.ToOrder? && pc.goal.basket.order == order)
    || ((pc.OrderRead? || pc.OrderInsert? || pc.OrderLines? || pc.OrderTouch? || pc.OrderCommit?)
        && pc.basket.order == order)
  }

  /** The identifier is t's own: no other transaction carries it, now or later. */
  ghost predicate OwnOrder(w: World, acts: seq<Action>, t: Id, order: Id) {
    && (forall u | u in w.txns && u != t :: !Carries(w.txns[u].pc, order))
    && forall a | a in acts && a.Spawn? :: !Carries(a.pc, order)
  }

  lemma CarriesNext(w: World, t: Id, pick: Id, order: Id)
    requires t in w.txns && Next(w, t, pick) != Blocked && !Carries(w.txns[t].pc, order)
    ensures !Carries(Next(w, t, pick).next.pc, order)
  {
    hide NextOpen, NextOrder, NextItem, NextCall, NextAck, NextRestore, NextClose, NextSweep;
    var x := Awake(w, w.txns[t]);
    OpenCarries(w, t, x, pick, order);
    OrderCarries(w, t, x, order);
    NoneCarries(w, t, x, pick, order);
    EndingCarriesNone(w, t, x, pick, order);
  }

  lemma OpenCarries(w: World, t: Id, x: Txn, pick: Id, order: Id)
    requires !Carries(x.pc, order)
    ensures var st := NextOpen(w, t, x, pick); st.Blocked? || !Carries(st.next.pc, order)
  {
    hide FindOpen, IndexBusy, Free;
  }

  lemma OrderCarries(w: World, t: Id, x: Txn, order: Id)
    requires !Carries(x.pc, order)
    ensures var st := NextOrder(w, t, x); st.Blocked? || !Carries(st.next.pc, order)
  {
    hide Free, RowsOf;
  }

  lemma NoneCarries(w: World, t: Id, x: Txn, pick: Id, order: Id)
    ensures var st := NextItem(w, t, x); st.Blocked? || !Carries(st.next.pc, order)
    ensures var st := NextCall(w, t, x, pick); st.Blocked? || !Carries(st.next.pc, order)
    ensures var st := NextAck(w, t, x); st.Blocked? || !Carries(st.next.pc, order)
  {
    hide Free, OpResult, HasSession, InSession, CalledRecently;
  }

  lemma EndingCarriesNone(w: World, t: Id, x: Txn, pick: Id, order: Id)
    ensures var st := NextRestore(w, t, x); st.Blocked? || !Carries(st.next.pc, order)
    ensures var st := NextClose(w, t, x, pick); st.Blocked? || !Carries(st.next.pc, order)
    ensures var st := NextSweep(w, t, x, pick); st.Blocked? || !Carries(st.next.pc, order)
  {
    hide FindOpen, IndexBusy, SessionFree, Free, LiveOf, Stale, IsPendingOf, PendingOf;
  }

  /** Nobody but t comes to carry the order. */
  lemma OthersCarry(w: World, a: Action, t: Id, order: Id)
    requires Enabled(w, a) && OwnOrder(w, [a], t, order)
    ensures forall u | u in Step(w, a).txns && u != t :: !Carries(Step(w, a).txns[u].pc, order)
  {
    hide Next, With, Carries;
    forall u | u in Step(w, a).txns && u != t ensures !Carries(Step(w, a).txns[u].pc, order) {
      match a
      case Run(v, pick) =>
        if v == u { CarriesNext(w, u, pick, order); } else if u in w.txns { OthersPc(w, v, pick, u); }
      case Abort(v, pick) => AbortCarries(w.txns[v].pc, pick, order);
      case Spawn(_, pc) => assert a in [a];
      case _ =>
    }
  }

  lemma AbortCarries(pc: Pc, pick: Id, order: Id)
    ensures !Carries(AfterAbort(pc, pick), order)
  {
  }

  /** The items of one order. */
  function LinesOf(db: Db, order: Id): set<Id> {
    set i | i in db.items && db.items[i].order == order
  }

  /** The order is there with exactly these rows, as they were placed but for their progress. */
  ghost predicate PlacedWhole(db: Db, order: Id, owner: OrderRow, added: map<Id, ItemRow>) {
    && order in db.orders && db.orders[order] == owner && LinesOf(db, order) == added.Keys
    && forall i | i in added :: i in db.items && SameSnapshot(added[i], db.items[i])
  }

  lemma NothingOf(db: Db, order: Id)
    requires Sound(db) && order !in db.orders
    ensures LinesOf(db, order) == {}
  {
  }

  lemma PlacedNow(db: Db, e: Effect)
    requires Sound(db) && Guard(db, e) && e.PlaceOrder?
    ensures PlacedWhole(Apply(db, e), e.order, OrderRow(e.restaurant, e.session), e.added)
  {
    NothingOf(db, e.order);
    assert forall i | i in db.items :: db.items[i].order != e.order;
  }

  lemma PlacedStays(db: Db, e: Effect, order: Id, owner: OrderRow, added: map<Id, ItemRow>)
    requires Guard(db, e) && PlacedWhole(db, order, owner, added)
    ensures PlacedWhole(Apply(db, e), order, owner, added)
  {
    var db' := Apply(db, e);
    OrderStep(db, e, order);
    forall i | i in added ensures i in db'.items && SameSnapshot(added[i], db'.items[i]) {
      ItemStep(db, e, i);
    }
    forall i ensures i in LinesOf(db', order) <==> i in LinesOf(db, order) {
      if i in db.items { ItemStep(db, e, i); } else if i in db'.items { NewLine(db, e, i); }
    }
  }

  lemma NewLine(db: Db, e: Effect, i: Id)
    requires Guard(db, e) && i in Apply(db, e).items && i !in db.items
    ensures Apply(db, e).items[i].order !in db.orders
  {
    hide DismissCalls;
  }

  /** An effect brings in no order but the one it places. */
  lemma OrderArrives(db: Db, e: Effect, order: Id)
    requires Guard(db, e) && order !in db.orders && !(e.PlaceOrder? && e.order == order)
    ensures order !in Apply(db, e).orders
  {
  }

  /** Nobody but t carries the order, in any state. */
  lemma {:induction false} OwnAlong(w: World, acts: seq<Action>, t: Id, order: Id)
    requires Schedule(w, acts) && OwnOrder(w, acts, t, order)
    ensures forall u | u in Outcome(w, acts).txns && u != t :: !Carries(Outcome(w, acts).txns[u].pc, order)
    decreases |acts|
  {
    hide Enabled, Step, Carries;
    if acts != [] {
      assert acts[0] in acts;
      OthersCarry(w, acts[0], t, order);
      OwnAlong(Step(w, acts[0]), acts[1..], t, order);
    }
  }

  /** Who places the order is t, at its commit. */
  lemma PlacedByT(w: World, a: Action, t: Id, order: Id)
    requires forall u | u in w.txns && u != t :: !Carries(w.txns[u].pc, order)
    requires !(a.Run? && a.t == t && t in w.txns && w.txns[t].pc.OrderCommit?) && Enabled(w, a)
    ensures forall e | e in EffectsOf(w, a) :: !(e.PlaceOrder? && e.order == order)
  {
    hide RowsOf, Next;
  }

  /** A step that does not commit the order brings none of it in, and leaves one that is there
      whole. */
  lemma OrderUntouched(w: World, a: Action, t: Id, order: Id)
    requires Coherent(w) && Enabled(w, a)
    requires forall u | u in w.txns && u != t :: !Carries(w.txns[u].pc, order)
    requires !(a.Run? && a.t == t && t in w.txns && w.txns[t].pc.OrderCommit?)
    ensures order !in w.db.orders ==> order !in Step(w, a).db.orders
    ensures forall owner, added ::
              PlacedWhole(w.db, order, owner, added) ==> PlacedWhole(Step(w, a).db, order, owner, added)
  {
    hide Coherent, Step, Apply, Guard, PlacedWhole, Carries, Next;
    PlacedByT(w, a, t, order);
    StepRefines(w, a);
    if EffectsOf(w, a) != [] {
      var e := EffectsOf(w, a)[0];
      assert EffectsOf(w, a) == [e] && e in EffectsOf(w, a);
      OneEffect(w.db, e);
      if order !in w.db.orders { OrderArrives(w.db, e, order); }
      forall owner, added | PlacedWhole(w.db, order, owner, added) {
        PlacedStays(w.db, e, order, owner, added);
      }
    }
  }

  lemma OneEffect(db: Db, e: Effect)
    requires Valid(db, [e])
    ensures Guard(db, e) && ApplyAll(db, [e]) == Apply(db, e)
  {
    assert [e][0] == e && [e][1..] == [];
    assert ApplyAll(Apply(db, e), []) == Apply(db, e);
  }

  /** The step that commits the order. */
  lemma CommitStep(w: World, t: Id, q: Id)
    requires Coherent(w) && Enabled(w, Run(t, q)) && w.txns[t].pc.OrderCommit?
    ensures var pc := w.txns[t].pc;
            PlacedWhole(Step(w, Run(t, q)).db, pc.basket.order, OrderRow(pc.restaurant, pc.sid),
                        RowsOf(pc.basket, pc.restaurant, pc.dishes, pc.at))
  {
    hide Step, Apply, Guard, PlacedWhole, Next, RowsOf, Sound, IndexOk, Disjoint, AllOk;
    StepRefines(w, Run(t, q));
    var e := EffectAt(w.txns[t])[0];
    OneEffect(w.db, e);
    PlacedNow(w.db, e);
  }

  /** Done with the commit, and only then. */
  lemma DoneStep(w: World, a: Action, t: Id, sid: Id, r: Id, basket: Basket)
    requires Coherent(w) && Enabled(w, a) && t in w.txns && t in Step(w, a).txns
    requires OrderEnded(w.txns[t].pc) || IsOrder(w.txns[t].pc, sid, r, basket)
    ensures Step(w, a).txns[t].pc.OrderDone?
            <==> w.txns[t].pc.OrderDone? || (a.Run? && a.t == t && w.txns[t].pc.OrderCommit?)
  {
    hide Coherent, Next, NextOrder, With, OkOrder;
    if a.Run? && a.t == t {
      EndedIsOver(w, t, a.pick);
      InvPoised(w, t);
      var x := Awake(w, w.txns[t]);
      OrderIsNext(w, t, a.pick);
      OrderReads(w.db, x);
      OrderGoesOn(w, t, x, sid, r, basket);
      OnlyCommits(w, t, a.pick);
    } else {
      OtherSteps(w, a, t);
    }
  }

  /** What the database holds of an order, at any time after get_or_open has answered it. */
  ghost predicate Whole(w: World, acts: seq<Action>, t: Id, sid: Id, r: Id, basket: Basket, added: map<Id, ItemRow>,
      dishes: Menu, at: Time)
    requires Schedule(w, acts)
  {
    var now := Outcome(w, acts);
    t in now.txns
    && if now.txns[t].pc.OrderDone? then
         && PlacedWhole(now.db, basket.order, OrderRow(r, sid), added)
         && Snapshots(added, basket, r, dishes, at) && AllSeen(w, acts, t, r, dishes)
       else basket.order !in now.db.orders && LinesOf(now.db, basket.order) == {}
  }

  /** All or nothing, in every interleaving with edits of the menu and all other requests: once
      t has committed, the database holds exactly one row per line of the basket, each a
      snapshot of a menu row that was on sale at some instant while t was reading the menu;
      before, and if t ends in any other way, it holds nothing of the order. */
  lemma OrderAllOrNothing(w: World, t: Id, answer: Action, acts: seq<Action>, sid: Id, basket: Basket)
      returns (added: map<Id, ItemRow>, dishes: Menu, at: Time)
    requires Coherent(w) && Enabled(w, answer) && AnswersOrder(w, t, answer, sid, basket)
    requires Schedule(Step(w, answer), acts) && basket.order !in w.db.orders
    requires OwnOrder(Step(w, answer), acts, t, basket.order)
    ensures Whole(Step(w, answer), acts, t, sid, w.txns[t].pc.restaurant, basket, added, dishes, at)
  {
    var r := w.txns[t].pc.restaurant;
    AnswerAddsNone(w, t, answer, sid, basket);
    hide Coherent, Step, AnswersOrder, Whole, OwnOrder;
    AnswerIsOnItsWay(w, t, answer, sid, basket);
    StepRefines(w, answer);
    added, dishes, at := WholeAlong(Step(w, answer), acts, t, sid, r, basket);
  }

  /** Neither finding a session nor opening one brings in an order. */
  lemma AnswerAddsNone(w: World, t: Id, answer: Action, sid: Id, basket: Basket)
    requires Coherent(w) && Enabled(w, answer) && AnswersOrder(w, t, answer, sid, basket)
    ensures Step(w, answer).db.orders == w.db.orders
  {
    hide Coherent, Next, Poised;
    var pc := w.txns[t].pc;
    InvPoised(w, t);
    AnswerNext(w, t, answer.pick);
    if Next(w, t, answer.pick).Commit? {
      AfterCommit(w, t, answer.pick);
      OpensOnly(w.db, w.txns[t]);
    }
  }

  lemma OpensOnly(db: Db, x: Txn)
    requires Ok(db, x) && x.pc.OpenCommit?
    ensures With(db, x.held).orders == db.orders
  {
    NoRow(db.orders);
  }

  lemma {:induction false} WholeAlong(w: World, acts: seq<Action>, t: Id, sid: Id, r: Id, basket: Basket)
      returns (added: map<Id, ItemRow>, dishes: Menu, at: Time)
    requires Coherent(w) && Schedule(w, acts) && OnItsWay(w, [], t, sid, r, basket) && !w.txns[t].pc.OrderDone?
    requires basket.order !in w.db.orders && OwnOrder(w, acts, t, basket.order)
    ensures Whole(w, acts, t, sid, r, basket, added, dishes, at)
    decreases |acts|
  {
    assert t in w.txns;
    hide Coherent, Enabled, Step, OnItsWay, OrderEnded, OwnOrder, PlacedWhole, Snapshots, AllSeen, Whole;
    if acts == [] {
      added, dishes, at := map[], map[], 0;
      NothingYet(w, t, sid, r, basket);
    } else {
      var n := |acts| - 1;
      assert acts == acts[..n] + [acts[n]];
      ScheduleLast(w, acts[..n], acts[n]);
      OwnPrefix(w, acts[..n], acts[n], t, basket.order);
      added, dishes, at := WholeAlong(w, acts[..n], t, sid, r, basket);
      added, dishes, at := WholeStep(w, acts[..n], acts[n], t, sid, r, basket, added, dishes, at);
    }
  }

  lemma NothingYet(w: World, t: Id, sid: Id, r: Id, basket: Basket)
    requires Coherent(w) && t in w.txns && !w.txns[t].pc.OrderDone? && basket.order !in w.db.orders
    ensures Whole(w, [], t, sid, r, basket, map[], map[], 0)
  {
    hide IndexOk, AllOk, Disjoint, Sound;
    NothingOf(w.db, basket.order);
  }

  lemma OwnPrefix(w: World, p: seq<Action>, a: Action, t: Id, order: Id)
    requires OwnOrder(w, p + [a], t, order)
    ensures OwnOrder(w, p, t, order)
  {
    assert forall b | b in p :: b in p + [a];
  }

  lemma WholeStep(w: World, p: seq<Action>, a: Action, t: Id, sid: Id, r: Id, basket: Basket, added: map<Id, ItemRow>,
      dishes: Menu, at: Time) returns (added': map<Id, ItemRow>, dishes': Menu, at': Time)
    requires Coherent(w) && Schedule(w, p) && Schedule(w, p + [a]) && Enabled(Outcome(w, p), a)
    requires Outcome(w, p + [a]) == Step(Outcome(w, p), a)
    requires OnItsWay(w, [], t, sid, r, basket) && OwnOrder(w, p, t, basket.order)
    requires Whole(w, p, t, sid, r, basket, added, dishes, at)
    ensures Whole(w, p + [a], t, sid, r, basket, added', dishes', at')
  {
    hide Coherent, Step, Enabled, OwnOrder, Schedule, Outcome, Whole, RowsOf, AllSeen;
    var u := Outcome(w, p);
    OnItsWayAll(w, p, t, sid, r, basket);
    ScheduleRefines(w, p);
    OwnAlong(w, p, t, basket.order);
    OnItsWayStep(w, p, a, t, sid, r, basket);
    if a.Run? && a.t == t && u.txns[t].pc.OrderCommit? {
      var pc := u.txns[t].pc;
      added', dishes', at' := RowsOf(basket, r, pc.dishes, pc.at), pc.dishes, pc.at;
      WholeNow(w, p, a.pick, t, sid, r, basket);
    } else {
      added', dishes', at' := added, dishes, at;
      WholeStill(w, p, a, t, sid, r, basket, added, dishes, at);
    }
  }

  lemma WholeNow(w: World, p: seq<Action>, q: Id, t: Id, sid: Id, r: Id, basket: Basket)
    requires Schedule(w, p) && Schedule(w, p + [Run(t, q)]) && Enabled(Outcome(w, p), Run(t, q))
    requires Outcome(w, p + [Run(t, q)]) == Step(Outcome(w, p), Run(t, q)) && Coherent(Outcome(w, p))
    requires Outcome(w, p).txns[t].pc.OrderCommit? && OnItsWay(w, p, t, sid, r, basket)
    requires OnItsWay(w, p + [Run(t, q)], t, sid, r, basket)
    ensures var pc := Outcome(w, p).txns[t].pc;
            Whole(w, p + [Run(t, q)], t, sid, r, basket, RowsOf(basket, r, pc.dishes, pc.at), pc.dishes, pc.at)
  {
    hide Coherent, Step, Enabled, PlacedWhole, Snapshots, Schedule, Outcome, LinesOf, AllSeen, RowsOf;
    var u := Outcome(w, p);
    CommitStep(u, t, q);
    CommitsSnapshots(u, t);
    SeenOn(w, p, Run(t, q), t, r, u.txns[t].pc.dishes);
    DoneStep(u, Run(t, q), t, sid, r, basket);
  }

  lemma WholeStill(w: World, p: seq<Action>, a: Action, t: Id, sid: Id, r: Id, basket: Basket, added: map<Id, ItemRow>,
      dishes: Menu, at: Time)
    requires Schedule(w, p) && Schedule(w, p + [a]) && Enabled(Outcome(w, p), a) && Coherent(Outcome(w, p))
    requires Outcome(w, p + [a]) == Step(Outcome(w, p), a)
    requires t in Outcome(w, p).txns && !(a.Run? && a.t == t && Outcome(w, p).txns[t].pc.OrderCommit?)
    requires forall u | u in Outcome(w, p).txns && u != t :: !Carries(Outcome(w, p).txns[u].pc, basket.order)
    requires OnItsWay(w, p, t, sid, r, basket) && OnItsWay(w, p + [a], t, sid, r, basket)
    requires Whole(w, p, t, sid, r, basket, added, dishes, at)
    ensures Whole(w, p + [a], t, sid, r, basket, added, dishes, at)
  {
    hide Coherent, Step, Enabled, PlacedWhole, Snapshots, Schedule, Outcome, LinesOf, AllSeen, Carries;
    var u := Outcome(w, p);
    DoneStep(u, a, t, sid, r, basket);
    OrderUntouched(u, a, t, basket.order);
    if u.txns[t].pc.OrderDone? {
      SeenOn(w, p, a, t, r, dishes);
    } else {
      StepRefines(u, a);
      SoundIn(Step(u, a));
      NothingOf(Step(u, a).db, basket.order);
    }
  }

  lemma SeenOn(w: World, acts: seq<Action>, a: Action, t: Id, r: Id, dishes: Menu)
    requires AllSeen(w, acts, t, r, dishes)
    ensures AllSeen(w, acts + [a], t, r, dishes)
  {
    hide WasOnSale;
    forall m | m in dishes ensures WasOnSale(w, acts + [a], t, r, m, dishes[m]) {
      StillSeen(w, acts, a, t, r, m, dishes[m]);
    }
  }
}
