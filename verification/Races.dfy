/** What the races of the system come to: a checkout reports exactly what it did, opening a
    table never yields two sessions, and the laws of effects hold in every interleaving. */
module Races {
  import opened Schema
  import opened Money
  import opened Effects
  import opened Laws
  import opened Interleaving
  import opened Statements
  import opened Isolation
  import opened Columns

  // ----- Laws of effects are laws of interleavings -----

  /** In every interleaving, with any number of sweeps at once: abandonments are matched by
      restores and direct checkouts, a session is closed at most once and for good, and a
      table never has two open sessions. */
  lemma InterleavedEpochs(w: World, acts: seq<Action>, sid: Id)
    requires Coherent(w) && Schedule(w, acts)
    ensures var es := Commits(w, acts); var db' := Outcome(w, acts).db;
            && Abandonments(es, sid) + One(Is(w.db, sid, Abandoned))
               == Reopenings(es, sid) + DirectClosings(es, sid) + One(Is(db', sid, Abandoned))
            && Closings(es, sid) + One(Is(w.db, sid, Closed)) == One(Is(db', sid, Closed))
    ensures OneOpenPerTable(Outcome(w, acts).db) && Future(w.db, Outcome(w, acts).db)
  {
    ScheduleRefines(w, acts);
    EpochConservation(w.db, Commits(w, acts), sid);
    FutureAll(w.db, Commits(w, acts));
  }

  /** With u committed undos an item changes status at most 3 + 4u times. */
  lemma InterleavedTransitionBound(w: World, acts: seq<Action>, i: Id)
    requires Coherent(w) && Schedule(w, acts)
    ensures Valid(w.db, Commits(w, acts))
    ensures Changes(w.db, Commits(w, acts), i) <= 3 + 4 * Undos(Commits(w, acts), i)
  {
    ScheduleRefines(w, acts);
    TransitionBound(w.db, Commits(w, acts), i);
  }

  // ----- Checkout -----

  /** A committing checkout (or direct checkout) reports exactly what it did: the list it
      read before cancelling is the set of items it cancels, whatever happened between the
      two statements, its total is the sum over what is served in the state it commits, and
      its count is the number of pending calls it dismisses. */
  lemma CheckoutReport(w: World, t: Id, pick: Id)
    requires Coherent(w) && Enabled(w, Run(t, pick)) && w.txns[t].pc.CloseCommit?
    ensures var pc := w.txns[t].pc; var w' := Step(w, Run(t, pick));
            && w'.txns[t].pc == CloseDone(pc.sid, pc.list, pc.total, pc.count)
            && Is(w.db, pc.sid, pc.from) && Is(w'.db, pc.sid, Closed)
            && pc.total == Bill(w'.db, pc.sid)
            && ClosedOut(w.db, w'.db, pc.sid, w.db.sessions[pc.sid].restaurant, w.txns[t].began, pc.total)
            && LiveOf(w'.db, pc.sid) == map[]
            && pc.count == |PendingOf(w.db, pc.sid)| && PendingOf(w'.db, pc.sid) == {}
    ensures var pc := w.txns[t].pc; var db := w.db;
            pc.total == Sum(map i | i in db.items && db.items[i].order in db.orders
                                    && db.orders[db.items[i].order].session == pc.sid && db.items[i].status == Served ::
                              db.items[i].price * db.items[i].quantity)
    ensures var pc := w.txns[t].pc;
            && (forall i :: i in pc.list <==> CancelledBySystem(w.db, pc.sid, i))
            && (forall i | i in pc.list :: pc.list[i] == w.db.items[i])
            && pc.count == |set c | c in w.db.calls && w.db.calls[c].session == pc.sid
                                    && w.db.calls[c].status == Waiting|
  {
    hide Coherent, Next, Poised, Guard, Apply, Bill, LiveOf, PendingOf, OkClose, ServedLines, ClosedOut;
    InvPoised(w, t);
    CloseCommitsNow(w, t, pick);
    CommitKeeps(w, t, pick);
    CloseReport(w.db, w.txns[t]);
    BillOfAmounts(w.db, w.txns[t].pc.sid);
    ClosesOut(w.db, w.txns[t].pc.sid, w.txns[t].pc.from, w.txns[t].began);
    SoundIn(w);
    WaitingCalls(w.db, w.txns[t].pc.sid);
  }

  /** The calls dismissed with a session are its waiting calls. */
  lemma WaitingCalls(db: Db, sid: Id)
    requires Sound(db) && sid in db.sessions
    ensures PendingOf(db, sid) == set c | c in db.calls && db.calls[c].session == sid && db.calls[c].status == Waiting
  {
    forall c | c in db.calls && db.calls[c].session == sid
      ensures db.calls[c].restaurant == db.sessions[sid].restaurant
    {
      assert CallLinked(db, db.calls[c]);
    }
  }

  /** A closing about to commit ends as its report says. */
  lemma CloseCommitsNow(w: World, t: Id, pick: Id)
    requires t in w.txns && w.txns[t].pc.CloseCommit? && Ok(w.db, w.txns[t])
    ensures Next(w, t, pick).Commit? && Closing(w.txns[t].pc) && OkClose(w.db, w.txns[t])
    ensures var pc := w.txns[t].pc; Next(w, t, pick).next.pc == CloseDone(pc.sid, pc.list, pc.total, pc.count)
  {
    hide OkClose;
    HoldersHold(w.db, w.txns[t]);
  }

  lemma CloseReport(db: Db, x: Txn)
    requires x.pc.CloseCommit? && OkClose(db, x) && Guard(db, Close(x.pc.sid, x.pc.from, x.began))
    ensures var pc := x.pc; var db' := Apply(db, Close(pc.sid, pc.from, x.began));
            && Is(db, pc.sid, pc.from) && Is(db', pc.sid, Closed)
            && db'.sessions[pc.sid].total == Some(pc.total) && pc.total == Bill(db', pc.sid) == Bill(db, pc.sid)
            && LiveOf(db', pc.sid) == map[]
            && pc.count == |PendingOf(db, pc.sid)| && PendingOf(db', pc.sid) == {}
    ensures (forall i :: i in x.pc.list <==> CancelledBySystem(db, x.pc.sid, i))
            && forall i | i in x.pc.list :: x.pc.list[i] == db.items[i]
  {
    hide PendingOf, DismissedRows, CancelledRows, DismissCalls, ServedLines;
    CloseSettles(db, x.pc.sid, x.pc.from, x.began);
    CountDismissed(db, x.pc.sid, x.began);
    NonePending(db, x.pc.sid, x.pc.from, x.began);
  }

  lemma CountDismissed(db: Db, sid: Id, at: Time)
    ensures |DismissedRows(db, sid, at, {})| == |PendingOf(db, sid)|
  {
    assert DismissedRows(db, sid, at, {}).Keys == PendingOf(db, sid);
    assert |DismissedRows(db, sid, at, {})| == |DismissedRows(db, sid, at, {}).Keys|;
  }

  lemma NonePending(db: Db, sid: Id, from: SessionStatus, at: Time)
    requires Guard(db, Close(sid, from, at))
    ensures PendingOf(Apply(db, Close(sid, from, at)), sid) == {}
  {
    hide CancelLive, ServedLines;
  }

  /** From the moment of closing, in every interleaving in which no order reaches the closed
      session: the total stays what was served then, whatever is served is part of it, and
      it is exact precisely when every billed line taken back since is free of charge. */
  lemma InterleavedBill(w: World, acts: seq<Action>, sid: Id)
    requires Coherent(w) && Schedule(w, acts) && NoOrderFor(Commits(w, acts), sid)
    requires Is(w.db, sid, Closed) && LiveOf(w.db, sid) == map[] && w.db.sessions[sid].total == Some(Bill(w.db, sid))
    ensures var db' := Outcome(w, acts).db;
            var billed := ServedLines(w.db.items, w.db.orders, sid);
            var served := ServedLines(db'.items, db'.orders, sid);
            && Is(db', sid, Closed) && db'.sessions[sid].total == Some(Sum(billed))
            && served.Keys <= billed.Keys && (forall i | i in served :: served[i] == billed[i])
            && Bill(db', sid) <= Sum(billed)
            && (Bill(db', sid) == Sum(billed) <==>
                  forall i | i in TakenBack(billed, Commits(w, acts)) :: billed[i] == 0)
  {
    hide Sound, IndexOk, AllOk, TakenBack;
    ScheduleRefines(w, acts);
    BilledSetLaw(w.db, Commits(w, acts), sid);
  }

  /** The same whatever orders reach the closed session: the total is exact precisely when the
      billed lines the commits since have taken back and the lines they have placed and
      served add up to the same. */
  lemma InterleavedBalance(w: World, acts: seq<Action>, sid: Id)
    requires Coherent(w) && Schedule(w, acts)
    requires Is(w.db, sid, Closed) && LiveOf(w.db, sid) == map[] && w.db.sessions[sid].total == Some(Bill(w.db, sid))
    ensures var db' := Outcome(w, acts).db;
            var es := Commits(w, acts);
            var billed := ServedLines(w.db.items, w.db.orders, sid);
            && Is(db', sid, Closed) && db'.sessions[sid].total == Some(Sum(billed))
            && Bill(db', sid) == Sum(billed) - Sum(TakenBack(billed, es)) + Sum(LateLines(es, sid))
            && (db'.sessions[sid].total == Some(Bill(db', sid))
                <==> Sum(TakenBack(billed, es)) == Sum(LateLines(es, sid)))
  {
    hide Sound, IndexOk, AllOk, ServedLines, LiveOf, TakenBack, LateLines;
    ScheduleRefines(w, acts);
    BillBalance(w.db, Commits(w, acts), sid);
  }

  /** What is live in a closed session, in every interleaving: exactly the items whose last
      placement, move or single cancellation committed since the closing leaves them live. */
  lemma InterleavedLive(w: World, acts: seq<Action>, sid: Id)
    requires Coherent(w) && Schedule(w, acts) && Is(w.db, sid, Closed) && LiveOf(w.db, sid) == map[]
    ensures var db' := Outcome(w, acts).db;
            forall i :: i in LiveOf(db', sid) <==> i in ItemsOf(db', sid) && LastLive(Commits(w, acts), i)
  {
    hide LiveOf, ItemsOf, LastLive;
    SoundIn(w);
    ScheduleRefines(w, acts);
    LiveSince(w.db, Commits(w, acts), sid);
  }

  // ----- get_or_open -----

  /** The session get_or_open has come back with. */
  function Answer(pc: Pc): Option<Id> {
    if pc.OpenReturned? || pc.OrderRead? || pc.CallRead? || pc.ItemScope? then Some(pc.sid) else None
  }

  /** The step by which a get_or_open for the table comes back with session sid. */
  ghost predicate Answers(w: World, t: Id, pick: Id, table: Id, sid: Id)
    requires Enabled(w, Run(t, pick))
  {
    var pc' := Step(w, Run(t, pick)).txns[t].pc;
    && Opening(w.txns[t].pc) && w.txns[t].pc.table == table
    && Answer(pc') == Some(sid)
  }

  /** Whatever get_or_open returns is open at the table at the instant it is found or made. */
  lemma AnswerIsOpen(w: World, t: Id, pick: Id, table: Id, sid: Id)
    requires Coherent(w) && Enabled(w, Run(t, pick)) && Answers(w, t, pick, table, sid)
    ensures IsOpenAt(Step(w, Run(t, pick)).db, table, sid)
    ensures forall e | e in EffectsOf(w, Run(t, pick)) :: e.OpenSession? && e.session == sid
  {
    hide Coherent, Next, Poised, IsOpenAt;
    InvPoised(w, t);
    var x := Awake(w, w.txns[t]);
    AnswerNext(w, t, pick);
    if x.pc.OpenCommit? {
      CommitKinds(w, t, pick);
      OpenedRow(w, t, x);
    }
  }

  /** get_or_open answers what it finds, or what it has just inserted. */
  lemma AnswerNext(w: World, t: Id, pick: Id)
    requires Enabled(w, Run(t, pick)) && Opening(w.txns[t].pc)
    ensures var st := Next(w, t, pick); var pc := w.txns[t].pc;
            && (st.Goto? && Answer(st.next.pc).Some? ==>
                      IsOpenAt(w.db, pc.table, Answer(st.next.pc).value) && !pc.OpenCommit?)
            && (st.Commit? ==> pc.OpenCommit? && Answer(st.next.pc) == Some(pc.sid))
            && (st.Rollback? || st.Write? ==> Answer(st.next.pc).None?)
            && (st.Goto? || st.Commit? || st.Rollback? || st.Write?)
  {
    hide NextOrder, NextItem, NextCall, NextAck, NextRestore, NextClose, NextSweep, IndexBusy;
  }

  lemma OpenedRow(w: World, t: Id, x: Txn)
    requires Poised(w, t, x) && x.pc.OpenCommit?
    ensures IsOpenAt(With(w.db, x.held), x.pc.table, x.pc.sid)
  {
    hide Sound, IndexOk;
    assert x.pc.sid in x.held.sessions;
  }

  lemma {:induction false} StaysOpen(db: Db, es: seq<Effect>, table: Id, sid: Id)
    requires Valid(db, es) && IsOpenAt(db, table, sid) && forall e | e in es :: !Leaves(e, sid)
    ensures IsOpenAt(ApplyAll(db, es), table, sid)
    decreases |es|
  {
    if es != [] {
      StaysOpenStep(db, es[0], table, sid);
      StaysOpen(Apply(db, es[0]), es[1..], table, sid);
    }
  }

  lemma StaysOpenStep(db: Db, e: Effect, table: Id, sid: Id)
    requires Guard(db, e) && IsOpenAt(db, table, sid) && !Leaves(e, sid)
    ensures IsOpenAt(Apply(db, e), table, sid)
  {
  }

  /** Two calls for one table come back with the same session unless it was closed or
      abandoned in between, whichever of them opened it and however they interleave. */
  lemma SameAnswer(w: World, t1: Id, p1: Id, acts: seq<Action>, t2: Id, p2: Id, table: Id, s1: Id, s2: Id)
    requires Coherent(w) && Enabled(w, Run(t1, p1)) && Answers(w, t1, p1, table, s1)
    requires Schedule(Step(w, Run(t1, p1)), acts)
    requires Enabled(Outcome(Step(w, Run(t1, p1)), acts), Run(t2, p2))
    requires Answers(Outcome(Step(w, Run(t1, p1)), acts), t2, p2, table, s2)
    requires forall e | e in Commits(Step(w, Run(t1, p1)), acts) :: !Leaves(e, s1)
    ensures s1 == s2
  {
    hide Coherent, Enabled, Step, Answers, EffectsOf;
    var w1 := Step(w, Run(t1, p1));
    AnswerIsOpen(w, t1, p1, table, s1);
    StepRefines(w, Run(t1, p1));
    ScheduleRefines(w1, acts);
    StaysOpen(w1.db, Commits(w1, acts), table, s1);
    var w2 := Outcome(w1, acts);
    AnswerIsOpen(w2, t2, p2, table, s2);
    StepRefines(w2, Run(t2, p2));
    StaysOpen(w2.db, EffectsOf(w2, Run(t2, p2)), table, s1);
    OneAtATable(Step(w2, Run(t2, p2)), table, s1, s2);
  }

  lemma OneAtATable(w: World, table: Id, a: Id, b: Id)
    requires Coherent(w) && IsOpenAt(w.db, table, a) && IsOpenAt(w.db, table, b)
    ensures a == b
  {
    hide AllOk, IndexOk;
  }

  /** Past the point where get_or_open could still fail. */
  predicate PastRace(pc: Pc) {
    || pc.OpenReturned? || Ordering(pc) || pc.OrderDone? || pc.OrderRefused?
    || Calling(pc) || pc.CallDone? || pc.CallCooling?
    || pc.ItemScope? || pc.ItemCas? || pc.ItemTouch? || pc.ItemCommit? || pc.ItemDone? || pc.ItemConflict?
    || pc.Aborted?
  }

  /** The insert rolls back only before a session that is open at the table right then. */
  lemma ConflictIsOpen(w: World, t: Id, pick: Id)
    requires Enabled(w, Run(t, pick)) && w.txns[t].pc.OpenInsert? && Step(w, Run(t, pick)).txns[t].pc.OpenRetry?
    ensures var pc' := Step(w, Run(t, pick)).txns[t].pc;
            IsOpenAt(Step(w, Run(t, pick)).db, w.txns[t].pc.table, pc'.conflict) && pc'.table == w.txns[t].pc.table
  {
    hide NextOrder, NextItem, NextCall, NextAck, NextRestore, NextClose, NextSweep;
  }

  lemma RetryStep(w: World, t: Id, a: Action)
    requires Enabled(w, a) && t in w.txns && w.txns[t].pc.OpenRetry?
    requires IsOpenAt(w.db, w.txns[t].pc.table, w.txns[t].pc.conflict)
    ensures var w' := Step(w, a); t in w'.txns && (w'.txns[t].pc == w.txns[t].pc || PastRace(w'.txns[t].pc))
  {
    hide NextOrder, NextItem, NextCall, NextAck, NextRestore, NextClose, NextSweep, IndexBusy, With;
    if a.Run? && a.t != t {
      OthersPc(w, a.t, a.pick, t);
    }
  }

  lemma PastRaceStep(w: World, t: Id, a: Action)
    requires Enabled(w, a) && t in w.txns && PastRace(w.txns[t].pc)
    ensures t in Step(w, a).txns && PastRace(Step(w, a).txns[t].pc)
  {
    hide Next, With, PastRace;
    match a
    case Run(u, pick) =>
      if u == t { PastRaceNext(w, t, pick); } else { OthersPc(w, u, pick, t); }
    case Abort(_, pick) => PastRaceAborts(w.txns[t].pc, pick);
    case _ =>
  }

  lemma PastRaceAborts(pc: Pc, pick: Id)
    requires PastRace(pc)
    ensures PastRace(AfterAbort(pc, pick))
  {
  }

  lemma PastRaceNext(w: World, t: Id, pick: Id)
    requires Enabled(w, Run(t, pick)) && PastRace(w.txns[t].pc)
    ensures PastRace(Next(w, t, pick).next.pc)
  {
    hide NextOpen, NextAck, NextRestore, NextClose, NextSweep, OpResult, HasSession, InSession, Free;
  }

  /** A statement moves its own transaction only. */
  lemma OthersPc(w: World, t: Id, pick: Id, other: Id)
    requires Enabled(w, Run(t, pick)) && other in w.txns && other != t
    ensures other in Step(w, Run(t, pick)).txns && Step(w, Run(t, pick)).txns[other] == w.txns[other]
  {
    hide Next;
  }

  /** get_or_open fails after a lost race only if the session that won it was closed or
      abandoned before the second look. */
  lemma {:induction false} RaceRecovery(w: World, acts: seq<Action>, t: Id)
    requires Coherent(w) && Schedule(w, acts) && t in w.txns
    requires (w.txns[t].pc.OpenRetry? &&
        IsOpenAt(w.db, w.txns[t].pc.table, w.txns[t].pc.conflict)) || PastRace(w.txns[t].pc)
    requires t in Outcome(w, acts).txns && Outcome(w, acts).txns[t].pc.OpenFailed?
    ensures w.txns[t].pc.OpenRetry? && exists e :: e in Commits(w, acts) && Leaves(e, w.txns[t].pc.conflict)
    decreases |acts|
  {
    hide Coherent, Enabled, Step, EffectsOf, IsOpenAt;
    if acts != [] {
      var w1 := Step(w, acts[0]);
      StepRefines(w, acts[0]);
      if PastRace(w.txns[t].pc) {
        PastRaceStep(w, t, acts[0]);
        RaceRecovery(w1, acts[1..], t);
      } else {
        var pc := w.txns[t].pc;
        RetryStep(w, t, acts[0]);
        if forall e | e in EffectsOf(w, acts[0]) :: !Leaves(e, pc.conflict) {
          StaysOpen(w.db, EffectsOf(w, acts[0]), pc.table, pc.conflict);
          RaceRecovery(w1, acts[1..], t);
          var e :| e in Commits(w1, acts[1..]) && Leaves(e, pc.conflict);
          assert e in Commits(w, acts);
        } else {
          var e :| e in EffectsOf(w, acts[0]) && Leaves(e, pc.conflict);
          assert e in Commits(w, acts);
        }
      }
    }
  }
}
