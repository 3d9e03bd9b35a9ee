/** Restoring an abandoned session under concurrency.  The compare-and-swap of restore looks
    at the status only, so between the 24-hour test and the swap the session may have been
    reopened and abandoned again.  The stamp in force at the swap is the one tested, or that
    of the last abandonment committed since.  With one sweep transaction at a time it is never
    older than the one tested, so every restore comes in time; with two it can be older by any
    amount. */
module RestoreRaces {
  import opened Schema
  import opened Money
  import opened Effects
  import opened Laws
  import opened Interleaving
  import opened Statements
  import opened Isolation
  import opened Races
  import RunLaws

  /** Row shapes rule out an abandoned session without a stamp. */
  lemma StampNeverMissing(w: World, t: Id, pick: Id)
    requires Coherent(w) && Enabled(w, Run(t, pick)) && w.txns[t].pc.RestoreRead?
    ensures Step(w, Run(t, pick)).txns[t].pc != RestoreRefused(MissingStamp)
  {
    hide IndexOk, AllOk, Disjoint, NextOpen, NextOrder, NextItem, NextCall, NextAck, NextClose, NextSweep, FindOpen,
        IndexBusy;
    hide OneOpenPerTable, Linked, ItemShapes, Catalogued, Free, SessionFree;
    assert SessionShapes(w.db);
  }

  // ----- The invariant behind the stamp -----

  /** A transaction whose now() may still become a stamp. */
  predicate Sweeping(x: Txn) {
    !x.idle && (x.pc.SweepScan? || x.pc.SweepNext? || Abandoning(x.pc))
  }

  /** The stamp a restore has tested and not yet acted on. */
  function Tested(pc: Pc): Option<(Id, Time)> {
    match pc
    case RestoreFind(sid, _, seen) => Some((sid, seen))
    case ReopenCas(sid, _, seen) => Some((sid, seen))
    case CloseCas(sid, _, _, Some(seen)) => Some((sid, seen))
    case _ => None
  }

  ghost predicate OneSweep(w: World) {
    forall a, b | a in w.txns && b in w.txns && Sweeping(w.txns[a]) && Sweeping(w.txns[b]) :: a == b
  }

  predicate StampBy(row: SessionRow, bound: Time) {
    row.abandonedAt.Some? ==> row.abandonedAt.value <= bound
  }

  /** What was tested is not younger than the stamp in force. */
  predicate TestHolds(db: Db, tested: (Id, Time)) {
    && tested.0 in db.sessions
    && (db.sessions[tested.0].status == Abandoned ==>
          db.sessions[tested.0].abandonedAt.Some? && tested.1 <= db.sessions[tested.0].abandonedAt.value)
  }

  ghost predicate StampsBy(db: Db, bound: Time) {
    forall s | s in db.sessions :: StampBy(db.sessions[s], bound)
  }

  /** Everything a stamp of transaction t could be compared with is not later than its now(). */
  ghost predicate SweepLate(w: World, t: Id)
    requires t in w.txns
  {
    && StampsBy(w.db, w.txns[t].began)
    && forall r | r in w.txns && Tested(w.txns[r].pc).Some? :: Tested(w.txns[r].pc).value.1 <= w.txns[t].began
  }

  /** No transaction has begun in the future. */
  ghost predicate Begun(w: World) {
    forall t | t in w.txns :: w.txns[t].began <= w.clock
  }

  ghost predicate StampsOk(w: World) {
    && StampsBy(w.db, w.clock)
    && Begun(w)
    && (forall t | t in w.txns && Sweeping(w.txns[t]) :: SweepLate(w, t))
    && (forall r | r in w.txns && Tested(w.txns[r].pc).Some? ::
          TestHolds(w.db, Tested(w.txns[r].pc).value) && Tested(w.txns[r].pc).value.1 <= w.clock)
  }

  /** Every way a statement can move its transaction, as far as stamps are concerned. */
  predicate Moves(w: World, x: Txn, next: Txn) {
    && (next.began == x.began || next.began == w.clock)
    && (Sweeping(next) ==> next.began == w.clock || (next.began == x.began && Sweeping(x)))
    && (Tested(next.pc).Some? ==>
          Tested(next.pc) == Tested(x.pc)
          || (var s := Tested(next.pc).value.0;
              Is(w.db, s, Abandoned) && w.db.sessions[s].abandonedAt == Some(Tested(next.pc).value.1)))
  }

  lemma RestoreMoves(w: World, t: Id, x: Txn)
    requires !x.idle
    ensures NextRestore(w, t, x).Blocked? || Moves(w, x, NextRestore(w, t, x).next)
  {
    hide FindOpen, IndexBusy, Free, SessionFree;
  }

  lemma CloseMoves(w: World, t: Id, x: Txn, pick: Id)
    requires !x.idle
    ensures NextClose(w, t, x, pick).Blocked? || Moves(w, x, NextClose(w, t, x, pick).next)
  {
    hide LiveOf, Free, IsPendingOf, PendingOf;
  }

  lemma SweepMoves(w: World, t: Id, x: Txn, pick: Id)
    requires !x.idle
    ensures NextSweep(w, t, x, pick).Blocked? || Moves(w, x, NextSweep(w, t, x, pick).next)
  {
    hide LiveOf, Free, Stale, IsPendingOf, PendingOf;
  }

  lemma OtherMoves(w: World, t: Id, x: Txn, pick: Id)
    requires !x.idle
    ensures NextOpen(w, t, x, pick).Blocked? || Moves(w, x, NextOpen(w, t, x, pick).next)
    ensures NextOrder(w, t, x).Blocked? || Moves(w, x, NextOrder(w, t, x).next)
    ensures NextItem(w, t, x).Blocked? || Moves(w, x, NextItem(w, t, x).next)
    ensures NextCall(w, t, x, pick).Blocked? || Moves(w, x, NextCall(w, t, x, pick).next)
    ensures NextAck(w, t, x).Blocked? || Moves(w, x, NextAck(w, t, x).next)
  {
    hide FindOpen, IndexBusy, OpResult, HasSession, Free, InSession;
  }

  lemma StatementMoves(w: World, t: Id, pick: Id)
    requires t in w.txns && Next(w, t, pick) != Blocked
    ensures Moves(w, Awake(w, w.txns[t]), Next(w, t, pick).next)
  {
    hide NextOpen, NextOrder, NextItem, NextCall, NextAck, NextRestore, NextClose, NextSweep, Moves;
    var x := Awake(w, w.txns[t]);
    RestoreMoves(w, t, x);
    CloseMoves(w, t, x, pick);
    SweepMoves(w, t, x, pick);
    OtherMoves(w, t, x, pick);
  }

  /** In every state of every schedule. */
  lemma {:induction false} BegunAlong(w: World, acts: seq<Action>)
    requires Begun(w) && Schedule(w, acts)
    ensures Begun(Outcome(w, acts))
    decreases |acts|
  {
    hide Enabled, Step;
    if acts != [] {
      BegunStep(w, acts[0]);
      BegunAlong(Step(w, acts[0]), acts[1..]);
    }
  }

  lemma BegunStep(w: World, a: Action)
    requires Begun(w) && Enabled(w, a)
    ensures Begun(Step(w, a))
  {
    hide Next, With, Sweeping, Tested;
    if a.Run? {
      StatementMoves(w, a.t, a.pick);
    }
  }

  /** Beginning a transaction moves nothing. */
  lemma WakeMoves(w: World, x: Txn, next: Txn)
    requires Moves(w, Awake(w, x), next)
    ensures Moves(w, x, next)
  {
  }

  /** A statement, an abort or a new transaction leaves the committed stamps alone. */
  lemma MoveKeeps(w: World, w': World, t: Id, x: Txn, next: Txn)
    requires StampsOk(w) && Moves(w, x, next) && x.began <= w.clock && (t in w.txns ==> x == w.txns[t])
    requires t !in w.txns ==> !Sweeping(x) && Tested(x.pc).None?
    requires w'.db == w.db && w'.clock == w.clock && w'.txns == w.txns[t := next]
    ensures StampsOk(w')
  {
    forall u | u in w'.txns && Sweeping(w'.txns[u]) ensures SweepLate(w', u) {
      if u == t {
        MovedSweep(w, t, x, next);
      } else {
        assert SweepLate(w, u);
      }
      forall r | r in w'.txns && Tested(w'.txns[r].pc).Some? ensures Tested(w'.txns[r].pc).value.1 <= w'.txns[u].began {
        if r == t {
          MovedTest(w, x, next);
        }
      }
    }
    if Tested(next.pc).Some? {
      MovedTest(w, x, next);
    }
  }

  lemma MovedSweep(w: World, t: Id, x: Txn, next: Txn)
    requires StampsOk(w) && Moves(w, x, next) && Sweeping(next) && x.began <= w.clock
    requires t in w.txns ==> x == w.txns[t]
    requires t !in w.txns ==> !Sweeping(x)
    ensures StampsBy(w.db, next.began)
    ensures forall r | r in w.txns && Tested(w.txns[r].pc).Some? :: Tested(w.txns[r].pc).value.1 <= next.began
  {
    if next.began != w.clock {
      assert SweepLate(w, t);
    }
  }

  /** A stamp just tested is one of the committed ones. */
  lemma MovedTest(w: World, x: Txn, next: Txn)
    requires StampsOk(w) && Moves(w, x, next) && Tested(next.pc).Some?
    ensures Tested(next.pc) == Tested(x.pc)
         || (TestHolds(w.db, Tested(next.pc).value)
             && forall bound :: StampsBy(w.db, bound) ==> Tested(next.pc).value.1 <= bound)
  {
    if Tested(next.pc) != Tested(x.pc) {
      var s := Tested(next.pc).value.0;
      forall bound | StampsBy(w.db, bound) ensures Tested(next.pc).value.1 <= bound {
        assert StampBy(w.db.sessions[s], bound);
      }
    }
  }

  // ----- Commits -----

  /** An effect leaves a session's stamp as it is, clears it, or is the session's abandonment. */
  lemma StampStep(db: Db, e: Effect, s: Id)
    requires Guard(db, e) && s in Apply(db, e).sessions
    ensures var row := Apply(db, e).sessions[s];
            || row.abandonedAt == None
            || (e == Abandon(s, row.abandonedAt.value) && row.status == Abandoned)
            || (s in db.sessions && row.abandonedAt == db.sessions[s].abandonedAt
                && (row.status == Abandoned <==> db.sessions[s].status == Abandoned) && !(e.Abandon? && e.session == s))
            || (s in db.sessions && row.abandonedAt == db.sessions[s].abandonedAt && row.status == Closed)
  {
  }

  lemma StampsAfter(db: Db, e: Effect, bound: Time)
    requires Guard(db, e) && StampsBy(db, bound) && (e.Abandon? ==> e.at <= bound)
    ensures StampsBy(Apply(db, e), bound)
  {
    hide Apply, Guard;
    var db' := Apply(db, e);
    forall s | s in db'.sessions ensures StampBy(db'.sessions[s], bound) {
      StampStep(db, e, s);
      assert s in db.sessions ==> StampBy(db.sessions[s], bound);
    }
  }

  lemma TestAfter(db: Db, e: Effect, tested: (Id, Time))
    requires Guard(db, e) && Sound(db) && TestHolds(db, tested) && (e.Abandon? ==> tested.1 <= e.at)
    ensures TestHolds(Apply(db, e), tested)
  {
    hide Apply, Guard, Sound;
    SessionStep(db, e, tested.0);
    StampStep(db, e, tested.0);
    EffectKeepsSound(db, e);
    if Is(Apply(db, e), tested.0, Abandoned) { AbandonedHasStamp(Apply(db, e), tested.0); }
  }

  lemma AbandonedHasStamp(db: Db, s: Id)
    requires Sound(db) && Is(db, s, Abandoned)
    ensures db.sessions[s].abandonedAt.Some?
  {
    assert SessionShape(db.sessions[s]);
  }

  lemma CommitStamps(w: World, t: Id, pick: Id)
    requires Coherent(w) && StampsOk(w) && OneSweep(w) && Enabled(w, Run(t, pick)) && Next(w, t, pick).Commit?
    ensures StampsOk(Step(w, Run(t, pick)))
  {
    hide Next, Guard, Apply, Coherent, Poised, Sound, Ok, StampsBy, TestHolds, With;
    SoundIn(w);
    CommitKeeps(w, t, pick);
    CommitKinds(w, t, pick);
    InvPoised(w, t);
    CommitsAwake(w, t);
    var e := EffectAt(w.txns[t])[0];
    var w' := Step(w, Run(t, pick));
    assert e.Abandon? ==> Sweeping(w.txns[t]) && e.at == w.txns[t].began && SweepLate(w, t);
    assert StampsBy(w'.db, w'.clock) by { StampsAfter(w.db, e, w.clock); }
    forall u | u in w'.txns && Sweeping(w'.txns[u]) ensures SweepLate(w', u) {
      assert u != t && SweepLate(w, u);
      StampsAfter(w.db, e, w.txns[u].began);
    }
    forall r | r in w'.txns && Tested(w'.txns[r].pc).Some?
      ensures TestHolds(w'.db, Tested(w'.txns[r].pc).value)
    {
      assert r != t;
      TestAfter(w.db, e, Tested(w.txns[r].pc).value);
    }
  }

  lemma StampsKept(w: World, a: Action)
    requires Coherent(w) && StampsOk(w) && OneSweep(w) && Enabled(w, a)
    ensures StampsOk(Step(w, a))
  {
    hide Coherent, StampsOk, OneSweep, Next, Moves, Sweeping, Tested;
    match a
    case Tick(now) => TickStamps(w, now);
    case Spawn(t, pc) =>
      SpawnMoves(w, pc);
      MoveKeeps(w, Step(w, a), t, Txn(w.clock, true, Aborted, NOTHING), Txn(w.clock, true, pc, NOTHING));
    case Issue(t) =>
      IssueMoves(w, w.txns[t]);
      BeganBy(w, t);
      MoveKeeps(w, Step(w, a), t, w.txns[t], Awake(w, w.txns[t]));
    case Edit(e) => EditStamps(w, e);
    case Abort(t, pick) =>
      var next := w.txns[t].(pc := AfterAbort(w.txns[t].pc, pick), idle := true, held := NOTHING);
      AbortMoves(w, w.txns[t], pick);
      BeganBy(w, t);
      MoveKeeps(w, Step(w, a), t, w.txns[t], next);
    case Run(t, pick) =>
      if Next(w, t, pick).Commit? {
        CommitStamps(w, t, pick);
      } else {
        var next := Next(w, t, pick).next;
        StatementMoves(w, t, pick);
        WakeMoves(w, w.txns[t], next);
        HeldMoves(w, w.txns[t], next, Step(w, a).txns[t]);
        BeganBy(w, t);
        MoveKeeps(w, Step(w, a), t, w.txns[t], Step(w, a).txns[t]);
      }
  }

  /** What a transaction holds, and that it may rest, does not matter here. */
  lemma HeldMoves(w: World, x: Txn, next: Txn, after: Txn)
    requires Moves(w, x, next) && after.pc == next.pc && after.began == next.began && (next.idle ==> after.idle)
    ensures Moves(w, x, after)
  {
  }

  lemma BeganBy(w: World, t: Id)
    requires StampsOk(w) && t in w.txns
    ensures w.txns[t].began <= w.clock
  {
  }

  lemma TickStamps(w: World, now: Time)
    requires StampsOk(w) && w.clock <= now
    ensures StampsOk(w.(clock := now))
  {
    var w' := w.(clock := now);
    assert forall t | t in w.txns && Sweeping(w.txns[t]) :: SweepLate(w, t) && SweepLate(w', t);
    forall s | s in w.db.sessions ensures StampBy(w.db.sessions[s], now) {
      assert StampBy(w.db.sessions[s], w.clock);
    }
  }

  lemma SpawnMoves(w: World, pc: Pc)
    requires Startable(w.db, pc)
    ensures Moves(w, Txn(w.clock, true, Aborted, NOTHING), Txn(w.clock, true, pc, NOTHING))
    ensures !Sweeping(Txn(w.clock, true, Aborted, NOTHING)) && Tested(Aborted).None?
  {
  }

  lemma IssueMoves(w: World, x: Txn)
    requires x.idle
    ensures Moves(w, x, Awake(w, x))
  {
  }

  lemma EditStamps(w: World, e: Effect)
    requires StampsOk(w) && Enabled(w, Edit(e))
    ensures StampsOk(Step(w, Edit(e)))
  {
    hide Sweeping, Tested;
    var w' := Step(w, Edit(e));
    assert w'.db.sessions == w.db.sessions;
    assert forall bound :: StampsBy(w.db, bound) ==> StampsBy(w'.db, bound);
    forall t | t in w'.txns && Sweeping(w'.txns[t]) ensures SweepLate(w', t) {
      assert SweepLate(w, t);
    }
  }

  lemma AbortMoves(w: World, x: Txn, pick: Id)
    ensures Moves(w, x, x.(pc := AfterAbort(x.pc, pick), idle := true, held := NOTHING))
  {
  }

  // ----- One sweep at a time -----

  /** No two sweep transactions overlap in any state of the schedule. */
  ghost predicate SweepsAlone(w: World, acts: seq<Action>)
    requires Schedule(w, acts)
    decreases |acts|
  {
    OneSweep(w) && (acts == [] || SweepsAlone(Step(w, acts[0]), acts[1..]))
  }

  lemma {:induction false} StampsKeptAlong(w: World, acts: seq<Action>)
    requires Coherent(w) && StampsOk(w) && Schedule(w, acts) && SweepsAlone(w, acts)
    ensures Coherent(Outcome(w, acts)) && StampsOk(Outcome(w, acts))
    decreases |acts|
  {
    hide Coherent, StampsOk, Enabled, Step, OneSweep;
    if acts != [] {
      StepRefines(w, acts[0]);
      StampsKept(w, acts[0]);
      StampsKeptAlong(Step(w, acts[0]), acts[1..]);
    }
  }

  predicate AboutToRestore(pc: Pc) {
    pc.ReopenCas? || (pc.CloseCas? && pc.stamp.Some?)
  }

  // ----- The stamp a restore acts on, exactly -----

  /** The instant of the last abandonment of s in a history. */
  function LastAbandon(es: seq<Effect>, s: Id): Option<Time> {
    if es == [] then None
    else if LastAbandon(es[1..], s).Some? then LastAbandon(es[1..], s)
    else if es[0].Abandon? && es[0].session == s then Some(es[0].at)
    else None
  }

  lemma AbandonedBy(db: Db, e: Effect, s: Id)
    requires Guard(db, e) && Is(Apply(db, e), s, Abandoned)
    ensures if e.Abandon? && e.session == s then Apply(db, e).sessions[s].abandonedAt == Some(e.at)
            else Is(db, s, Abandoned) && Apply(db, e).sessions[s].abandonedAt == db.sessions[s].abandonedAt
  {
    hide CancelLive, DismissCalls;
  }

  /** The stamp of an abandoned session is that of its last abandonment in the history, or
      still the one before the history. */
  lemma {:induction false} StampSince(db: Db, es: seq<Effect>, s: Id)
    requires Valid(db, es) && Is(ApplyAll(db, es), s, Abandoned)
    ensures var stamp := ApplyAll(db, es).sessions[s].abandonedAt;
            if LastAbandon(es, s).Some? then stamp == LastAbandon(es, s)
            else Is(db, s, Abandoned) && stamp == db.sessions[s].abandonedAt
    decreases |es|
  {
    if es != [] {
      StampSince(Apply(db, es[0]), es[1..], s);
      if LastAbandon(es[1..], s).None? { AbandonedBy(db, es[0], s); }
    }
  }

  /** Past the compare-and-swap of a restore, on either path. */
  predicate TakingUp(pc: Pc) {
    pc.ReopenCommit? || (Closing(pc) && pc.from == Abandoned)
  }

  /** A restore of s past its test, within the transaction that tested, or over. */
  predicate Restoring(x: Txn, s: Id, seen: Time, began: Time) {
    || (!x.idle && x.began == began && (Tested(x.pc) == Some((s, seen)) || (TakingUp(x.pc) && x.pc.sid == s)))
    || RestoreEnded(x.pc)
  }

  predicate RestoreEnded(pc: Pc) {
    pc.RestoreRefused? || pc.Reopened? || pc.CloseDone? || pc.CloseLost? || pc.Aborted?
  }

  /** What a statement has to keep of it. */
  predicate KeepsRestoring(st: Statement, s: Id, seen: Time, began: Time) {
    match st
    case Blocked => true
    case Goto(next) => Restoring(next, s, seen, began)
    case Write(_, next) => Restoring(next, s, seen, began)
    case Commit(next) => RestoreEnded(next.pc)
    case Rollback(next) => RestoreEnded(next.pc)
  }

  lemma RestoreGoesOn(w: World, t: Id, x: Txn, s: Id, seen: Time, began: Time)
    requires Restoring(x, s, seen, began) && !x.pc.RestoreRead?
    ensures KeepsRestoring(NextRestore(w, t, x), s, seen, began)
  {
    hide FindOpen, IndexBusy, Free, SessionFree;
  }

  lemma CloseGoesOn(w: World, t: Id, x: Txn, pick: Id, s: Id, seen: Time, began: Time)
    requires Restoring(x, s, seen, began) && (x.pc.CloseCas? ==> (x.pc.from == Abandoned <==> x.pc.stamp.Some?))
    ensures KeepsRestoring(NextClose(w, t, x, pick), s, seen, began)
  {
    hide LiveOf, Free, IsPendingOf, PendingOf, ServedLines;
  }

  lemma RestoringIsNext(w: World, t: Id, pick: Id, s: Id, seen: Time, began: Time)
    requires t in w.txns && Restoring(w.txns[t], s, seen, began) && Next(w, t, pick) != Blocked
    ensures Awake(w, w.txns[t]) == w.txns[t] && !w.txns[t].pc.RestoreRead?
    ensures Next(w, t, pick) == NextRestore(w, t, w.txns[t]) || Next(w, t, pick) == NextClose(w, t, w.txns[t], pick)
  {
    hide NextOpen, NextOrder, NextItem, NextCall, NextAck, NextSweep, NextRestore, NextClose;
  }

  lemma RestoringNext(w: World, t: Id, pick: Id, s: Id, seen: Time, began: Time)
    requires t in w.txns && Ok(w.db, w.txns[t]) && Restoring(w.txns[t], s, seen, began) && Next(w, t, pick) != Blocked
    ensures KeepsRestoring(Next(w, t, pick), s, seen, began)
  {
    hide Next, NextRestore, NextClose, KeepsRestoring, Restoring, Awake;
    hide OkOpen, OkOrder, OkItem, OkCall, OkAck, OkReopen, OkClose, OkSweep;
    RestoringIsNext(w, t, pick, s, seen, began);
    RestoreGoesOn(w, t, w.txns[t], s, seen, began);
    CloseGoesOn(w, t, w.txns[t], pick, s, seen, began);
  }

  lemma RestoringStep(w: World, t: Id, a: Action, s: Id, seen: Time, began: Time)
    requires Coherent(w) && Enabled(w, a) && t in w.txns && Restoring(w.txns[t], s, seen, began)
    ensures t in Step(w, a).txns && Restoring(Step(w, a).txns[t], s, seen, began)
  {
    hide Coherent, Next, With, Tested, TakingUp, Ok;
    match a
    case Run(u, pick) =>
      if u == t {
        InvPoised(w, t);
        RestoringNext(w, t, pick, s, seen, began);
      } else {
        OthersPc(w, u, pick, t);
      }
    case Abort(u, pick) =>
      if u == t && !RestoreEnded(w.txns[t].pc) { AbortedRestore(w.txns[t].pc, s, seen, pick); }
    case _ =>
  }

  lemma AbortedRestore(pc: Pc, s: Id, seen: Time, pick: Id)
    requires Tested(pc) == Some((s, seen)) || TakingUp(pc)
    ensures AfterAbort(pc, pick) == Aborted
  {
  }

  lemma {:induction false} RestoringAll(w: World, t: Id, acts: seq<Action>, s: Id, seen: Time, began: Time)
    requires Coherent(w) && Schedule(w, acts) && t in w.txns && Restoring(w.txns[t], s, seen, began)
    ensures t in Outcome(w, acts).txns && Restoring(Outcome(w, acts).txns[t], s, seen, began)
    decreases |acts|
  {
    hide Coherent, Enabled, Step, Restoring;
    if acts != [] {
      StepRefines(w, acts[0]);
      RestoringStep(w, t, acts[0], s, seen, began);
      RestoringAll(Step(w, acts[0]), t, acts[1..], s, seen, began);
    }
  }

  /** The step by which the restore of s passes its 24-hour test on the stamp `seen`. */
  ghost predicate Tests(w: World, t: Id, a: Action, s: Id, seen: Time)
    requires Enabled(w, a)
  {
    && a.Run? && a.t == t && w.txns[t].pc.RestoreRead? && Step(w, a).txns[t].pc.RestoreFind?
    && w.txns[t].pc.sid == s && Step(w, a).txns[t].pc.seen == seen
  }

  lemma TestPasses(w: World, t: Id, a: Action, s: Id, seen: Time)
    requires Enabled(w, a) && Tests(w, t, a, s, seen)
    ensures Is(w.db, s, Abandoned) && w.db.sessions[s].abandonedAt == Some(seen) && w.clock - seen <= RESTORE_LIMIT
    ensures Step(w, a).db == w.db && t in Step(w, a).txns
    ensures Restoring(Step(w, a).txns[t], s, seen, Awake(w, w.txns[t]).began)
  {
    hide NextOpen, NextOrder, NextItem, NextCall, NextAck, NextClose, NextSweep, FindOpen, IndexBusy;
  }

  /** The stamp a restore's compare-and-swap finds is the tested one or that of the last
      abandonment committed since the test; so it is at least as recent as the tested one
      exactly when that abandonment, if there is one, is. */
  lemma RestoreStamp(w: World, t: Id, test: Action, acts: seq<Action>, q: Id, s: Id, seen: Time)
    requires Coherent(w) && Enabled(w, test) && Tests(w, t, test, s, seen) && Schedule(Step(w, test), acts)
    requires Enabled(Outcome(Step(w, test), acts), Run(t, q))
    requires AboutToRestore(Outcome(Step(w, test), acts).txns[t].pc) && Next(Outcome(Step(w, test), acts), t, q).Write?
    ensures var now := Outcome(Step(w, test), acts);
            var since := LastAbandon(Commits(Step(w, test), acts), s);
            && Tested(now.txns[t].pc) == Some((s, seen)) && Is(now.db, s, Abandoned)
            && now.db.sessions[s].abandonedAt == Some(if since.Some? then since.value else seen)
            && (seen <= now.db.sessions[s].abandonedAt.value <==> (since.Some? ==> seen <= since.value))
  {
    var w1, began := Step(w, test), Awake(w, w.txns[t]).began;
    hide Coherent, Next, Step, Tests, Restoring, Tested, AboutToRestore;
    TestPasses(w, t, test, s, seen);
    StepRefines(w, test);
    RestoringAll(w1, t, acts, s, seen, began);
    ScheduleRefines(w1, acts);
    var now := Outcome(w1, acts);
    InvPoised(now, t);
    AboutToRestoreTested(now.txns[t], s, seen, began);
    CasFindsAbandoned(now, t, q);
    StampSince(w1.db, Commits(w1, acts), s);
  }

  lemma AboutToRestoreTested(x: Txn, s: Id, seen: Time, began: Time)
    requires Restoring(x, s, seen, began) && AboutToRestore(x.pc)
    ensures Tested(x.pc) == Some((s, seen))
  {
  }

  /** The 24-hour promise, exactly: what takes an abandoned session up again commits within
      24 hours of the stamp in force exactly when the last abandonment committed since the
      test, if there is one, is that recent. */
  lemma TakenUpInTime(w: World, t: Id, test: Action, acts: seq<Action>, q: Id, s: Id, seen: Time)
    requires Coherent(w) && Enabled(w, test) && Tests(w, t, test, s, seen) && Schedule(Step(w, test), acts)
    requires Begun(w)
    requires Enabled(Outcome(Step(w, test), acts), Run(t, q))
    requires EffectsOf(Outcome(Step(w, test), acts), Run(t, q)) != []
    ensures var now := Outcome(Step(w, test), acts);
            var since := LastAbandon(Commits(Step(w, test), acts), s);
            var e := EffectsOf(now, Run(t, q))[0];
            && RunLaws.TakesUp(e) && e.session == s && Is(now.db, s, Abandoned)
            && now.db.sessions[s].abandonedAt == Some(if since.Some? then since.value else seen)
            && (RunLaws.InTime(now.db, e) <==> (since.Some? ==> e.at - since.value <= RESTORE_LIMIT))
  {
    var w1, began := Step(w, test), Awake(w, w.txns[t]).began;
    hide Coherent, Next, Step, Tests, Restoring, Sound, Ok;
    TestPasses(w, t, test, s, seen);
    StepRefines(w, test);
    RestoringAll(w1, t, acts, s, seen, began);
    ScheduleRefines(w1, acts);
    var now := Outcome(w1, acts);
    InvPoised(now, t);
    CommitsTaking(now.db, now.txns[t], s, seen, began);
    StampSince(w1.db, Commits(w1, acts), s);
  }

  lemma CommitsTaking(db: Db, x: Txn, s: Id, seen: Time, began: Time)
    requires Ok(db, x) && Restoring(x, s, seen, began) && EffectAt(x) != []
    ensures RunLaws.TakesUp(EffectAt(x)[0]) && EffectAt(x)[0].session == s && EffectAt(x)[0].at == began
    ensures Is(db, s, Abandoned)
  {
    hide LiveOf, Bill, CancelledRows, DismissedRows;
  }

  // ----- Restoring with one sweep at a time -----

  /** While sweep transactions do not overlap, the stamp a restore's compare-and-swap finds,
      on either path, is at least as recent as the stamp the 24-hour test accepted. */
  lemma NoOlderStamp(w: World, acts: seq<Action>, t: Id, pick: Id)
    requires Coherent(w) && StampsOk(w) && Schedule(w, acts) && SweepsAlone(w, acts)
    requires Enabled(Outcome(w, acts), Run(t, pick)) && AboutToRestore(Outcome(w, acts).txns[t].pc)
    requires Next(Outcome(w, acts), t, pick).Write?
    ensures var now := Outcome(w, acts);
            var tested := Tested(now.txns[t].pc).value;
            && Is(now.db, tested.0, Abandoned) && now.db.sessions[tested.0].abandonedAt.Some?
            && tested.1 <= now.db.sessions[tested.0].abandonedAt.value
  {
    hide Coherent, Sound, IndexOk, AllOk, Schedule, Outcome, SweepsAlone, Next;
    StampsKeptAlong(w, acts);
    var now := Outcome(w, acts);
    assert TestHolds(now.db, Tested(now.txns[t].pc).value);
    InvPoised(now, t);
    CasFindsAbandoned(now, t, pick);
  }

  lemma CasFindsAbandoned(w: World, t: Id, pick: Id)
    requires t in w.txns && Poised(w, t, Awake(w, w.txns[t])) && AboutToRestore(w.txns[t].pc) && Next(w, t, pick).Write?
    ensures Is(w.db, Tested(w.txns[t].pc).value.0, Abandoned)
  {
    hide Sound, IndexOk;
  }

  /** Restores past their test. */
  predicate Underway(pc: Pc) {
    Tested(pc).Some? || TakingUp(pc)
  }

  /** A restore past its test is within the limit, of the tested stamp before the swap and of
      the stamp in force after it. */
  predicate OnTime(db: Db, x: Txn) {
    && (Underway(x.pc) ==> !x.idle)
    && (Tested(x.pc).Some? ==> x.began - Tested(x.pc).value.1 <= RESTORE_LIMIT)
    && (TakingUp(x.pc) ==> StampWithin(db, x.pc.sid, x.began))
  }

  predicate StampWithin(db: Db, s: Id, began: Time) {
    s in db.sessions && db.sessions[s].abandonedAt.Some? && began - db.sessions[s].abandonedAt.value <= RESTORE_LIMIT
  }

  ghost predicate AllOnTime(w: World) {
    forall t | t in w.txns :: OnTime(w.db, w.txns[t])
  }

  /** What a statement has to keep of it; a transaction that ends is not underway. */
  predicate KeepsTime(db: Db, st: Statement) {
    match st
    case Blocked => true
    case Goto(next) => OnTime(db, next)
    case Write(_, next) => OnTime(db, next)
    case Commit(next) => !Underway(next.pc)
    case Rollback(next) => !Underway(next.pc)
  }

  /** The test bounds the tested stamp, and the swap finds none that is older. */
  lemma RestoreOnTime(w: World, t: Id, x: Txn)
    requires !x.idle && OnTime(w.db, x) && x.began <= w.clock
    requires Tested(x.pc).Some? ==> TestHolds(w.db, Tested(x.pc).value)
    ensures KeepsTime(w.db, NextRestore(w, t, x))
  {
    hide FindOpen, IndexBusy, Free, SessionFree;
  }

  lemma CloseOnTime(w: World, t: Id, x: Txn, pick: Id)
    requires !x.idle && OnTime(w.db, x) && (x.pc.CloseCas? ==> (x.pc.from == Abandoned <==> x.pc.stamp.Some?))
    requires Tested(x.pc).Some? ==> TestHolds(w.db, Tested(x.pc).value)
    ensures KeepsTime(w.db, NextClose(w, t, x, pick))
  {
    hide LiveOf, Free, IsPendingOf, PendingOf, ServedLines;
  }

  lemma SweepOnTime(w: World, t: Id, x: Txn, pick: Id)
    requires !x.idle
    ensures KeepsTime(w.db, NextSweep(w, t, x, pick))
  {
    hide LiveOf, Free, Stale, IsPendingOf, PendingOf;
  }

  lemma OrderOnTime(w: World, t: Id, x: Txn, pick: Id)
    requires !x.idle
    ensures KeepsTime(w.db, NextOpen(w, t, x, pick)) && KeepsTime(w.db, NextOrder(w, t, x))
  {
    hide FindOpen, IndexBusy, Free;
  }

  lemma ItemOnTime(w: World, t: Id, x: Txn, pick: Id)
    requires !x.idle
    ensures KeepsTime(w.db, NextItem(w, t, x)) && KeepsTime(w.db, NextCall(w, t, x, pick))
    ensures KeepsTime(w.db, NextAck(w, t, x))
  {
    hide OpResult, HasSession, Free, InSession;
  }

  lemma StatementOnTime(w: World, t: Id, pick: Id)
    requires t in w.txns && Ok(w.db, w.txns[t]) && OnTime(w.db, w.txns[t]) && w.txns[t].began <= w.clock
    requires Tested(w.txns[t].pc).Some? ==> TestHolds(w.db, Tested(w.txns[t].pc).value)
    ensures KeepsTime(w.db, Next(w, t, pick))
  {
    hide NextOpen, NextOrder, NextItem, NextCall, NextAck, NextRestore, NextClose, NextSweep, OnTime, Tested,
        TestHolds;
    hide OkOpen, OkOrder, OkItem, OkCall, OkAck, OkReopen, OkClose, OkSweep;
    var x := Awake(w, w.txns[t]);
    WokenOnTime(w, w.txns[t]);
    RestoreOnTime(w, t, x);
    CloseOnTime(w, t, x, pick);
    SweepOnTime(w, t, x, pick);
    OrderOnTime(w, t, x, pick);
    ItemOnTime(w, t, x, pick);
  }

  /** Waking moves no one underway. */
  lemma WokenOnTime(w: World, x: Txn)
    requires OnTime(w.db, x)
    ensures OnTime(w.db, Awake(w, x))
  {
  }

  lemma HeldOnTime(db: Db, x: Txn, next: Txn)
    requires OnTime(db, next) && x == next.(held := x.held)
    ensures OnTime(db, x)
  {
  }

  lemma EndedOnTime(db: Db, x: Txn)
    requires !Underway(x.pc)
    ensures OnTime(db, x)
  {
  }

  /** A commit by another transaction leaves the stamp alone: its row is locked. */
  lemma OthersOnTime(w: World, t: Id, u: Id)
    requires Coherent(w) && t in w.txns && u in w.txns && u != t && Committing(w.txns[t]) && OnTime(w.db, w.txns[u])
    ensures OnTime(With(w.db, w.txns[t].held), w.txns[u])
  {
    hide Ok, Sound, IndexOk, With, Tested, LiveOf, Bill, Apart;
    InvPoised(w, t);
    CommitsAwake(w, t);
    assert Apart(w.txns[t].held, w.txns[u].held);
    CommitUnmoved(w, t, w.txns[u].held);
    if TakingUp(w.txns[u].pc) {
      TakerHolds(w.db, w.txns[u]);
      assert SameSession(w.db, With(w.db, w.txns[t].held), w.txns[u].pc.sid);
    }
  }

  lemma TakerHolds(db: Db, x: Txn)
    requires Ok(db, x) && TakingUp(x.pc)
    ensures x.pc.sid in x.held.sessions
  {
    hide LiveOf, Bill, CancelledRows, DismissedRows;
  }

  lemma RunOnTime(w: World, t: Id, pick: Id)
    requires Coherent(w) && StampsOk(w) && AllOnTime(w) && Enabled(w, Run(t, pick))
    ensures AllOnTime(Step(w, Run(t, pick)))
  {
    hide Coherent, StampsOk, Next, OnTime, Underway, With, Ok, Poised;
    var w', st := Step(w, Run(t, pick)), Next(w, t, pick);
    InvPoised(w, t);
    BeganBy(w, t);
    TestHeld(w, t);
    StatementOnTime(w, t, pick);
    assert OnTime(w'.db, w'.txns[t]) by {
      if st.Commit? || st.Rollback? {
        EndedOnTime(w'.db, w'.txns[t]);
      } else {
        HeldOnTime(w.db, w'.txns[t], st.next);
      }
    }
    forall u | u in w'.txns && u != t ensures OnTime(w'.db, w'.txns[u]) {
      if st.Commit? {
        CommitKeeps(w, t, pick);
        CommitKinds(w, t, pick);
        CommitsAwake(w, t);
        OthersOnTime(w, t, u);
      }
    }
  }

  lemma TestHeld(w: World, t: Id)
    requires StampsOk(w) && t in w.txns
    ensures Tested(w.txns[t].pc).Some? ==> TestHolds(w.db, Tested(w.txns[t].pc).value)
  {
  }

  lemma OnTimeKept(w: World, a: Action)
    requires Coherent(w) && StampsOk(w) && AllOnTime(w) && Enabled(w, a)
    ensures AllOnTime(Step(w, a))
  {
    hide Coherent, StampsOk, Next, OnTime, Tested, TakingUp;
    match a
    case Tick(_) =>
    case Run(t, pick) => RunOnTime(w, t, pick);
    case Issue(t) => WokenOnTime(w, w.txns[t]);
    case Edit(e) => EditOnTime(w, e);
    case Spawn(t, pc) =>
      NotUnderway(w, pc);
      EndedOnTime(w.db, Txn(w.clock, true, pc, NOTHING));
    case Abort(t, pick) =>
      AbortedPc(w.txns[t].pc, pick);
      EndedOnTime(w.db, Step(w, a).txns[t]);
  }

  lemma EditOnTime(w: World, e: Effect)
    requires AllOnTime(w) && Enabled(w, Edit(e))
    ensures AllOnTime(Step(w, Edit(e)))
  {
    hide Tested, TakingUp;
    assert Step(w, Edit(e)).db.sessions == w.db.sessions;
  }

  lemma NotUnderway(w: World, pc: Pc)
    requires Startable(w.db, pc)
    ensures !Underway(pc)
  {
  }

  lemma AbortedPc(pc: Pc, pick: Id)
    ensures !Underway(AfterAbort(pc, pick))
  {
  }

  /** A step commits no late restore. */
  lemma StepInTime(w: World, a: Action)
    requires Coherent(w) && AllOnTime(w) && Enabled(w, a)
    ensures Valid(w.db, EffectsOf(w, a)) && RunLaws.AllInTime(w.db, EffectsOf(w, a))
  {
    hide Coherent, Next, OnTime, Apply, Guard;
    StepRefines(w, a);
    if EffectsOf(w, a) != [] {
      var e := EffectsOf(w, a)[0];
      assert EffectsOf(w, a) == [e] && [e][1..] == [];
      if a.Run? { CommitInTime(w.db, w.txns[a.t]); }
    }
  }

  lemma CommitInTime(db: Db, x: Txn)
    requires OnTime(db, x) && EffectAt(x) != []
    ensures |EffectAt(x)| == 1 && RunLaws.InTime(db, EffectAt(x)[0])
  {
  }

  /** The 24-hour promise under concurrency: while sweep transactions do not overlap, whatever
      takes an abandoned session up again does so within 24 hours of the stamp in force. */
  lemma {:induction false} InTimeAlong(w: World, acts: seq<Action>)
    requires Coherent(w) && StampsOk(w) && AllOnTime(w) && Schedule(w, acts) && SweepsAlone(w, acts)
    ensures Valid(w.db, Commits(w, acts)) && RunLaws.AllInTime(w.db, Commits(w, acts))
    decreases |acts|
  {
    hide Coherent, StampsOk, AllOnTime, Enabled, Step, OneSweep;
    ScheduleRefines(w, acts);
    if acts != [] {
      var next := Step(w, acts[0]);
      StepRefines(w, acts[0]);
      StampsKept(w, acts[0]);
      OnTimeKept(w, acts[0]);
      StepInTime(w, acts[0]);
      InTimeAlong(next, acts[1..]);
      RunLaws.InTimeConcat(w.db, EffectsOf(w, acts[0]), Commits(next, acts[1..]));
    }
  }
}
