/** Tenant isolation in every interleaving: whatever a request commits, and however late,
    belongs to the restaurant it was made for, and leaves every other restaurant alone. */
module TenantRaces {
  import opened Schema
  import opened Money
  import opened Effects
  import opened Laws
  import opened Interleaving
  import opened Statements
  import opened Isolation
  import opened Races
  import Requests
  import T = Tenancy

  predicate SessionOfTenant(db: Db, s: Id, r: Id) {
    s in db.sessions && db.sessions[s].restaurant == r
  }

  /** Where the transaction stands, it acts for restaurant r: it still carries it, or it has
      found the row to work on in it.  A sweep acts for no restaurant. */
  predicate ActsFor(db: Db, pc: Pc, r: Id) {
    if Opening(pc) || Ordering(pc) || Calling(pc) then pc.restaurant == r
    else if pc.ItemScope? || pc.ItemCas? || pc.AckRead? then pc.restaurant == r
    else if pc.RestoreRead? || pc.RestoreFind? || pc.ReopenCas? || pc.CloseCas? then pc.restaurant == r
    else if pc.ItemTouch? || pc.ItemCommit? then pc.item in db.items && db.items[pc.item].restaurant == r
    else if pc.AckWrite? || pc.AckCommit? then pc.call in db.calls && db.calls[pc.call].restaurant == r
    else if pc.ReopenCommit? || Closing(pc) then SessionOfTenant(db, pc.sid, r)
    else Finished(pc)
  }

  predicate KeepsTenant(db: Db, st: Statement, r: Id) {
    st.Blocked? || ActsFor(db, st.next.pc, r)
  }

  lemma OpenTenant(w: World, t: Id, x: Txn, pick: Id, r: Id)
    requires ActsFor(w.db, x.pc, r) && Opening(x.pc)
    ensures KeepsTenant(w.db, NextOpen(w, t, x, pick), r)
  {
    hide FindOpen, IndexBusy, Free;
  }

  lemma OrderTenant(w: World, t: Id, x: Txn, r: Id)
    requires ActsFor(w.db, x.pc, r) && Ordering(x.pc)
    ensures KeepsTenant(w.db, NextOrder(w, t, x), r)
  {
    hide RowsOf, Free;
  }

  lemma ItemTenant(w: World, t: Id, x: Txn, r: Id)
    requires ActsFor(w.db, x.pc, r)
    ensures KeepsTenant(w.db, NextItem(w, t, x), r)
  {
    hide OpResult, HasSession, InSession, Free;
  }

  lemma CallTenant(w: World, t: Id, x: Txn, pick: Id, r: Id)
    requires ActsFor(w.db, x.pc, r)
    ensures KeepsTenant(w.db, NextCall(w, t, x, pick), r) && KeepsTenant(w.db, NextAck(w, t, x), r)
  {
    hide Free, Requests.CalledRecently, Requests.CooldownSeconds;
  }

  lemma RestoreTenant(w: World, t: Id, x: Txn, r: Id)
    requires ActsFor(w.db, x.pc, r)
    ensures KeepsTenant(w.db, NextRestore(w, t, x), r)
  {
    hide FindOpen, IndexBusy, SessionFree, Free;
  }

  lemma CloseTenant(w: World, t: Id, x: Txn, pick: Id, r: Id)
    requires ActsFor(w.db, x.pc, r)
    ensures KeepsTenant(w.db, NextClose(w, t, x, pick), r)
  {
    hide LiveOf, Free, IsPendingOf, PendingOf, ServedLines;
  }

  lemma NoSweep(db: Db, pc: Pc, r: Id)
    requires ActsFor(db, pc, r)
    ensures !pc.SweepScan? && !pc.SweepNext? && !Abandoning(pc)
  {
  }

  lemma TenantNext(w: World, t: Id, pick: Id, r: Id)
    requires t in w.txns && Next(w, t, pick) != Blocked && ActsFor(w.db, w.txns[t].pc, r)
    ensures ActsFor(w.db, Next(w, t, pick).next.pc, r)
  {
    hide NextOpen, NextOrder, NextItem, NextCall, NextAck, NextRestore, NextClose, NextSweep, ActsFor;
    var x := Awake(w, w.txns[t]);
    NoSweep(w.db, x.pc, r);
    if Opening(x.pc) { OpenTenant(w, t, x, pick, r); }
    if Ordering(x.pc) { OrderTenant(w, t, x, r); }
    ItemTenant(w, t, x, r);
    CallTenant(w, t, x, pick, r);
    RestoreTenant(w, t, x, r);
    CloseTenant(w, t, x, pick, r);
  }

  /** No row ever changes hands. */
  lemma StillActs(db: Db, db': Db, pc: Pc, r: Id)
    requires Future(db, db') && ActsFor(db, pc, r)
    ensures ActsFor(db', pc, r)
  {
    hide Future, SessionOfTenant;
    if pc.ItemTouch? || pc.ItemCommit? { SameOwners(db, db', pc.item, 0, 0); }
    else if pc.AckWrite? || pc.AckCommit? { SameOwners(db, db', 0, pc.call, 0); }
    else if pc.ReopenCommit? || Closing(pc) { SameOwners(db, db', 0, 0, pc.sid); }
  }

  lemma SameOwners(db: Db, db': Db, i: Id, c: Id, s: Id)
    requires Future(db, db')
    ensures i in db.items ==> i in db'.items && db'.items[i].restaurant == db.items[i].restaurant
    ensures c in db.calls ==> c in db'.calls && db'.calls[c].restaurant == db.calls[c].restaurant
    ensures forall r :: SessionOfTenant(db, s, r) ==> SessionOfTenant(db', s, r)
  {
    assert i in db.items ==> ItemAfter(db.items[i], db'.items[i]);
    assert c in db.calls ==> CallAfter(db.calls[c], db'.calls[c]);
    assert s in db.sessions ==> SessionAfter(db.sessions[s], db'.sessions[s]);
  }

  lemma ActsStep(w: World, a: Action, t: Id, r: Id)
    requires Coherent(w) && Enabled(w, a) && t in w.txns && ActsFor(w.db, w.txns[t].pc, r)
    ensures t in Step(w, a).txns && ActsFor(Step(w, a).db, Step(w, a).txns[t].pc, r)
  {
    hide Coherent, Next, With, ActsFor, Apply, Future;
    StepRefines(w, a);
    FutureAll(w.db, EffectsOf(w, a));
    StillActs(w.db, Step(w, a).db, w.txns[t].pc, r);
    match a
    case Run(u, pick) =>
      if u == t {
        TenantNext(w, t, pick, r);
        StillActs(w.db, Step(w, a).db, Next(w, t, pick).next.pc, r);
      } else {
        OthersPc(w, u, pick, t);
      }
    case Abort(u, pick) =>
      if u == t { NoSweep(w.db, w.txns[t].pc, r); AbortActs(Step(w, a).db, r); }
    case _ =>
  }

  lemma AbortActs(db: Db, r: Id)
    ensures ActsFor(db, Aborted, r)
  {
  }

  lemma {:induction false} ActsAlong(w: World, acts: seq<Action>, t: Id, r: Id)
    requires Coherent(w) && Schedule(w, acts) && t in w.txns && ActsFor(w.db, w.txns[t].pc, r)
    ensures t in Outcome(w, acts).txns && ActsFor(Outcome(w, acts).db, Outcome(w, acts).txns[t].pc, r)
    decreases |acts|
  {
    hide Coherent, Enabled, Step, ActsFor;
    if acts != [] {
      StepRefines(w, acts[0]);
      ActsStep(w, acts[0], t, r);
      ActsAlong(Step(w, acts[0]), acts[1..], t, r);
    }
  }

  lemma CommitsAtHome(db: Db, x: Txn, r: Id)
    requires Ok(db, x) && ActsFor(db, x.pc, r) && Committing(x)
    ensures |EffectAt(x)| == 1 && T.Tenant(db, EffectAt(x)[0]) == Some(r)
  {
    hide LiveOf, Bill, CancelledRows, DismissedRows, RowsOf, ReadSoFar, OpResult;
  }

  /** Whatever a request commits is of the restaurant it acts for, whatever has been committed
      since it began, and the rows of every other restaurant are what they were. */
  lemma CommitsForTenant(w: World, acts: seq<Action>, t: Id, q: Id, r: Id)
    requires Coherent(w) && Schedule(w, acts) && t in w.txns && ActsFor(w.db, w.txns[t].pc, r)
    requires Enabled(Outcome(w, acts), Run(t, q))
    ensures var now := Outcome(w, acts);
            && (forall e | e in EffectsOf(now, Run(t, q)) :: T.Tenant(now.db, e) == Some(r))
            && T.Other(Step(now, Run(t, q)).db, r) == T.Other(now.db, r)
  {
    hide Coherent, Next, Step, ActsFor, T.Tenant, T.Other, Apply, Guard, Sound;
    ActsAlong(w, acts, t, r);
    ScheduleRefines(w, acts);
    StayHome(Outcome(w, acts), t, q, r);
  }

  lemma StayHome(w: World, t: Id, q: Id, r: Id)
    requires Coherent(w) && Enabled(w, Run(t, q)) && ActsFor(w.db, w.txns[t].pc, r)
    ensures forall e | e in EffectsOf(w, Run(t, q)) :: T.Tenant(w.db, e) == Some(r)
    ensures T.Other(Step(w, Run(t, q)).db, r) == T.Other(w.db, r)
  {
    hide Coherent, Next, Step, ActsFor, T.Tenant, T.Other, Apply, Guard, Sound;
    InvPoised(w, t);
    SoundIn(w);
    StepRefines(w, Run(t, q));
    if EffectAt(w.txns[t]) != [] {
      CommitsAtHome(w.db, w.txns[t], r);
      var e := EffectAt(w.txns[t])[0];
      assert EffectsOf(w, Run(t, q)) == [e] && [e][1..] == [];
      HomeEffect(w.db, e, r);
    }
  }

  lemma HomeEffect(db: Db, e: Effect, r: Id)
    requires Sound(db) && Valid(db, [e]) && T.Tenant(db, e) == Some(r)
    ensures T.Other(ApplyAll(db, [e]), r) == T.Other(db, r)
  {
    hide T.Tenant, T.Other, Apply, Guard, Sound;
    assert [e][0] == e && [e][1..] == [];
    assert ApplyAll(Apply(db, e), []) == Apply(db, e);
    T.EffectStaysHome(db, e, r);
  }

  /** Every request starts out for the restaurant it names. */
  lemma StartsForTenant(db: Db, pc: Pc)
    requires Startable(db, pc) && !pc.SweepScan?
    ensures ActsFor(db, pc, pc.restaurant)
  {
  }
}
