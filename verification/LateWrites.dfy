/** Requests that decide on what they have read and write later: an order or a staff call for
    a session that has been left meanwhile, a call created although another one has just
    been, an acknowledgement of a call that is no longer waiting.  Each is stated with the
    exact condition, in terms of what is committed between the read and the write. */
module LateWrites {
  import opened Schema
  import opened Money
  import opened Effects
  import opened Laws
  import opened Interleaving
  import opened Statements
  import opened Isolation
  import opened Races
  import opened CallRate
  import Requests

  // ----- Orders and calls for a session that has been left -----

  /** The status an effect that opens or leaves session sid gives it. */
  function Turn(e: Effect, sid: Id): Option<SessionStatus> {
    match e
    case Close(s, _, _) => if s == sid then Some(Closed) else None
    case Abandon(s, _) => if s == sid then Some(Abandoned) else None
    case Reopen(s, _) => if s == sid then Some(Open) else None
    case _ => None
  }

  /** The last of them. */
  function LastTurn(es: seq<Effect>, sid: Id): Option<SessionStatus> {
    if es == [] then None
    else if LastTurn(es[1..], sid).Some? then LastTurn(es[1..], sid)
    else Turn(es[0], sid)
  }

  lemma TurnStep(db: Db, e: Effect, sid: Id)
    requires Guard(db, e) && sid in db.sessions
    ensures sid in Apply(db, e).sessions
    ensures Apply(db, e).sessions[sid].status
            == if Turn(e, sid).Some? then Turn(e, sid).value else db.sessions[sid].status
  {
    hide CancelLive, DismissCalls;
  }

  lemma {:induction false} TurnsAll(db: Db, es: seq<Effect>, sid: Id)
    requires Valid(db, es) && sid in db.sessions
    ensures sid in ApplyAll(db, es).sessions
    ensures ApplyAll(db, es).sessions[sid].status
            == if LastTurn(es, sid).Some? then LastTurn(es, sid).value else db.sessions[sid].status
    decreases |es|
  {
    if es != [] {
      TurnStep(db, es[0], sid);
      TurnsAll(Apply(db, es[0]), es[1..], sid);
    }
  }

  /** A request that is serving the session get_or_open answered with, or is over. */
  predicate Serving(pc: Pc, sid: Id) {
    || ((pc.OpenReturned? || pc.ItemScope? || Ordering(pc) || Calling(pc)) && pc.sid == sid)
    || pc.ItemCas? || pc.ItemTouch? || pc.ItemCommit? || pc.ItemDone? || pc.ItemConflict?
    || pc.OrderDone? || pc.OrderRefused? || pc.CallDone? || pc.CallCooling? || pc.Aborted?
  }

  lemma ServingStep(w: World, t: Id, a: Action, sid: Id)
    requires Enabled(w, a) && t in w.txns && Serving(w.txns[t].pc, sid)
    ensures t in Step(w, a).txns && Serving(Step(w, a).txns[t].pc, sid)
  {
    hide Next, With;
    match a
    case Run(u, pick) =>
      if u == t { ServingNext(w, t, pick, sid); } else { OthersPc(w, u, pick, t); }
    case _ =>
  }

  lemma ServingNext(w: World, t: Id, pick: Id, sid: Id)
    requires Enabled(w, Run(t, pick)) && Serving(w.txns[t].pc, sid)
    ensures Serving(Next(w, t, pick).next.pc, sid)
  {
    hide NextOpen, NextAck, NextRestore, NextClose, NextSweep, OpResult, HasSession, InSession, Free;
  }

  lemma {:induction false} ServingAll(w: World, t: Id, acts: seq<Action>, sid: Id)
    requires Schedule(w, acts) && t in w.txns && Serving(w.txns[t].pc, sid)
    ensures t in Outcome(w, acts).txns && Serving(Outcome(w, acts).txns[t].pc, sid)
    decreases |acts|
  {
    hide Enabled, Step, Serving;
    if acts != [] {
      ServingStep(w, t, acts[0], sid);
      ServingAll(Step(w, acts[0]), t, acts[1..], sid);
    }
  }

  lemma AnswerIsServed(w: World, t: Id, pick: Id, table: Id, sid: Id)
    requires Enabled(w, Run(t, pick)) && Answers(w, t, pick, table, sid)
    ensures t in Step(w, Run(t, pick)).txns && Serving(Step(w, Run(t, pick)).txns[t].pc, sid)
  {
    hide Next, With;
  }

  predicate Adding(pc: Pc) {
    pc.OrderCommit? || pc.CallCommit?
  }

  predicate Adds(e: Effect, sid: Id) {
    (e.PlaceOrder? && e.session == sid) || (e.NewCall? && e.session == sid)
  }

  lemma AddingTurnsNothing(db: Db, e: Effect, sid: Id)
    requires Guard(db, e) && Adds(e, sid)
    ensures sid in db.sessions && sid in Apply(db, e).sessions
    ensures Apply(db, e).sessions[sid].status == db.sessions[sid].status
    ensures Valid(db, [e]) && ApplyAll(db, [e]) == Apply(db, e)
  {
  }

  /** create_order and a staff call write into whatever their session has become: the row
      lands in a session that is not open exactly when the last checkout, abandonment or
      restore of it committed since get_or_open answered is a checkout or an abandonment. */
  lemma LandsLate(w: World, t: Id, p: Id, acts: seq<Action>, q: Id, table: Id, sid: Id)
    requires Coherent(w) && Enabled(w, Run(t, p)) && Answers(w, t, p, table, sid)
    requires Schedule(Step(w, Run(t, p)), acts)
    requires Enabled(Outcome(Step(w, Run(t, p)), acts), Run(t, q))
    requires Adding(Outcome(Step(w, Run(t, p)), acts).txns[t].pc)
    ensures var w1 := Step(w, Run(t, p));
            var w2 := Outcome(w1, acts);
            var db' := Step(w2, Run(t, q)).db;
            var last := LastTurn(Commits(w1, acts), sid);
            && EffectsOf(w2, Run(t, q)) != [] && Adds(EffectsOf(w2, Run(t, q))[0], sid) && sid in db'.sessions
            && (db'.sessions[sid].status != Open <==> last == Some(Closed) || last == Some(Abandoned))
            && (Is(db', sid, Closed) <==> last == Some(Closed))
  {
    hide Coherent, Next, Step, Answers, Apply, Guard, Serving;
    var w1 := Step(w, Run(t, p));
    AnswerIsOpen(w, t, p, table, sid);
    AnswerIsServed(w, t, p, table, sid);
    ServingAll(w1, t, acts, sid);
    StepRefines(w, Run(t, p));
    ScheduleRefines(w1, acts);
    TurnsAll(w1.db, Commits(w1, acts), sid);
    var w2 := Outcome(w1, acts);
    StepRefines(w2, Run(t, q));
    AddsToServed(w2.txns[t], sid);
    AddingTurnsNothing(w2.db, EffectAt(w2.txns[t])[0], sid);
  }

  lemma AddsToServed(x: Txn, sid: Id)
    requires Adding(x.pc) && Serving(x.pc, sid)
    ensures |EffectAt(x)| == 1 && Adds(EffectAt(x)[0], sid)
  {
  }

  // ----- Acknowledgements -----

  /** An acknowledgement that has read its call as waiting, or is over. */
  predicate Acking(pc: Pc, call: Id, staff: Id) {
    || ((pc.AckWrite? || pc.AckCommit?) && pc.call == call && pc.staff == staff)
    || pc.AckDone? || pc.Aborted?
  }

  lemma AckingStep(w: World, t: Id, a: Action, call: Id, staff: Id)
    requires Enabled(w, a) && t in w.txns && Acking(w.txns[t].pc, call, staff)
    ensures t in Step(w, a).txns && Acking(Step(w, a).txns[t].pc, call, staff)
  {
    hide NextOpen, NextOrder, NextItem, NextCall, NextRestore, NextClose, NextSweep, With, Free;
    if a.Run? && a.t != t {
      OthersPc(w, a.t, a.pick, t);
    }
  }

  lemma {:induction false} AckingAll(w: World, t: Id, acts: seq<Action>, call: Id, staff: Id)
    requires Schedule(w, acts) && t in w.txns && Acking(w.txns[t].pc, call, staff)
    ensures t in Outcome(w, acts).txns && Acking(Outcome(w, acts).txns[t].pc, call, staff)
    decreases |acts|
  {
    hide Enabled, Step, Acking;
    if acts != [] {
      AckingStep(w, t, acts[0], call, staff);
      AckingAll(Step(w, acts[0]), t, acts[1..], call, staff);
    }
  }

  /** What makes call c of session s no longer wait: an acknowledgement of it, or its session
      being closed or abandoned. */
  predicate Settles(e: Effect, c: Id, s: Id) {
    (e.AckCall? && e.call == c) || Leaves(e, s)
  }

  lemma SettlesStep(db: Db, e: Effect, c: Id)
    requires Guard(db, e) && c in db.calls && CallLinked(db, db.calls[c]) && db.calls[c].status == Waiting
    ensures c in Apply(db, e).calls
    ensures Apply(db, e).calls[c].status == Acknowledged <==> Settles(e, c, db.calls[c].session)
  {
    hide CancelLive, ServedLines;
  }

  /** A waiting call is settled by a history exactly when the history has such an effect. */
  lemma {:induction false} SettledIff(db: Db, es: seq<Effect>, c: Id)
    requires Sound(db) && Valid(db, es) && c in db.calls && db.calls[c].status == Waiting
    ensures c in ApplyAll(db, es).calls
    ensures ApplyAll(db, es).calls[c].status == Acknowledged
            <==> exists e :: e in es && Settles(e, c, db.calls[c].session)
    decreases |es|
  {
    if es != [] {
      assert CallLinked(db, db.calls[c]);
      SettlesStep(db, es[0], c);
      CallStep(db, es[0], c);
      EffectKeepsSound(db, es[0]);
      if Settles(es[0], c, db.calls[c].session) {
        FutureAll(Apply(db, es[0]), es[1..]);
        assert es[0] in es;
      } else {
        SettledIff(Apply(db, es[0]), es[1..], c);
        forall e | e in es && Settles(e, c, db.calls[c].session) ensures e in es[1..] {}
      }
    }
  }

  lemma AckReads(w: World, t: Id, p: Id)
    requires Enabled(w, Run(t, p)) && w.txns[t].pc.AckRead? && Step(w, Run(t, p)).txns[t].pc.AckWrite?
    ensures var pc := w.txns[t].pc; var w1 := Step(w, Run(t, p));
            && pc.call in w.db.calls && w.db.calls[pc.call].status == Waiting && w1.db == w.db
            && t in w1.txns && Acking(w1.txns[t].pc, pc.call, pc.staff)
  {
    hide NextOpen, NextOrder, NextItem, NextCall, NextRestore, NextClose, NextSweep;
  }

  lemma AckWritesName(db: Db, e: Effect)
    requires Guard(db, e) && e.AckCall?
    ensures Apply(db, e).calls == db.calls[e.call := DismissRow(db.calls[e.call], e.at).(ackedBy := Some(e.staff))]
    ensures Valid(db, [e]) && ApplyAll(db, [e]) == Apply(db, e)
  {
  }

  /** An acknowledgement writes its own name whatever it finds; what it overwrites is a call
      no longer waiting exactly when, since its read, another acknowledgement of the call or a
      checkout or abandonment of the call's session has been committed. */
  lemma AckRace(w: World, t: Id, p: Id, acts: seq<Action>, q: Id)
    requires Coherent(w) && Enabled(w, Run(t, p)) && w.txns[t].pc.AckRead? && Step(w, Run(t, p)).txns[t].pc.AckWrite?
    requires Schedule(Step(w, Run(t, p)), acts)
    requires Enabled(Outcome(Step(w, Run(t, p)), acts), Run(t, q))
    requires Outcome(Step(w, Run(t, p)), acts).txns[t].pc.AckCommit?
    ensures var c := w.txns[t].pc.call;
            var w1 := Step(w, Run(t, p));
            var w2 := Outcome(w1, acts);
            var db' := Step(w2, Run(t, q)).db;
            && c in w.db.calls && c in w2.db.calls
            && (w2.db.calls[c].status == Acknowledged
                <==> exists e :: e in Commits(w1, acts) && Settles(e, c, w.db.calls[c].session))
            && db'.calls == w2.db.calls[c := DismissRow(w2.db.calls[c], w2.txns[t].pc.at)
                                             .(ackedBy := Some(w.txns[t].pc.staff))]
  {
    hide Coherent, Next, Step, Apply, Guard, Acking, Sound;
    var pc := w.txns[t].pc;
    var w1 := Step(w, Run(t, p));
    AckReads(w, t, p);
    SoundIn(w);
    StepRefines(w, Run(t, p));
    ScheduleRefines(w1, acts);
    SettledIff(w1.db, Commits(w1, acts), pc.call);
    AckingAll(w1, t, acts, pc.call, pc.staff);
    var w2 := Outcome(w1, acts);
    AckingCommits(w2.txns[t], pc.call, pc.staff);
    StepRefines(w2, Run(t, q));
    AckWritesName(w2.db, EffectAt(w2.txns[t])[0]);
  }

  lemma AckingCommits(x: Txn, call: Id, staff: Id)
    requires x.pc.AckCommit? && Acking(x.pc, call, staff)
    ensures EffectAt(x) == [AckCall(call, staff, x.pc.at)]
  {
  }

  // ----- The cooldown -----

  /** A staff call past its cooldown check, within the transaction that checked, or over. */
  predicate CallUnder(x: Txn, table: Id, began: Time) {
    || ((x.pc.CallTouch? || x.pc.CallInsert? || x.pc.CallCommit?) && x.pc.table == table && x.began == began && !x.idle)
    || x.pc.CallDone? || x.pc.Aborted?
  }

  lemma CallUnderStep(w: World, t: Id, a: Action, table: Id, began: Time)
    requires Enabled(w, a) && t in w.txns && CallUnder(w.txns[t], table, began)
    ensures t in Step(w, a).txns && CallUnder(Step(w, a).txns[t], table, began)
  {
    hide Next, With;
    match a
    case Run(u, pick) =>
      if u == t { CallUnderNext(w, t, pick, table, began); } else { OthersPc(w, u, pick, t); }
    case _ =>
  }

  lemma CallUnderNext(w: World, t: Id, pick: Id, table: Id, began: Time)
    requires Enabled(w, Run(t, pick)) && CallUnder(w.txns[t], table, began)
    ensures CallUnder(Step(w, Run(t, pick)).txns[t], table, began)
  {
    hide NextOpen, NextOrder, NextItem, NextAck, NextRestore, NextClose, NextSweep, With, Free, Requests.CalledRecently;
  }

  lemma {:induction false} CallUnderAll(w: World, t: Id, acts: seq<Action>, table: Id, began: Time)
    requires Schedule(w, acts) && t in w.txns && CallUnder(w.txns[t], table, began)
    ensures t in Outcome(w, acts).txns && CallUnder(Outcome(w, acts).txns[t], table, began)
    decreases |acts|
  {
    hide Enabled, Step, CallUnder;
    if acts != [] {
      CallUnderStep(w, t, acts[0], table, began);
      CallUnderAll(Step(w, acts[0]), t, acts[1..], table, began);
    }
  }

  /** The step by which a staff call of t passes the cooldown check. */
  ghost predicate Checks(w: World, t: Id, a: Action)
    requires Enabled(w, a)
  {
    a.Run? && a.t == t && w.txns[t].pc.CallCheck? && Step(w, a).txns[t].pc.CallTouch?
  }

  lemma CheckPasses(w: World, t: Id, a: Action)
    requires Enabled(w, a) && Checks(w, t, a)
    ensures t in w.txns && Step(w, a).db == w.db && t in Step(w, a).txns
    ensures var pc, began := w.txns[t].pc, Awake(w, w.txns[t]).began;
            && CallUnder(Step(w, a).txns[t], pc.table, began)
            && !Requests.CalledRecently(w.db, pc.table, pc.cooldown, began)
  {
    hide NextOpen, NextOrder, NextItem, NextAck, NextRestore, NextClose, NextSweep, Requests.CalledRecently;
  }

  /** An effect that creates a call for the table. */
  predicate CallsAt(db: Db, e: Effect, table: Id) {
    e.NewCall? && e.session in db.sessions && db.sessions[e.session].table == table
  }

  lemma NewCallStep(db: Db, e: Effect)
    requires Guard(db, e) && e.NewCall?
    ensures e.call !in db.calls && e.call in Apply(db, e).calls && e.session in Apply(db, e).sessions
    ensures var row := Apply(db, e).calls[e.call];
            row.createdAt == e.at && row.session == e.session && row.table == Apply(db, e).sessions[e.session].table
  {
  }

  /** Every call a history creates is there afterwards, with its instant and its table. */
  lemma {:induction false} CreatedCallStays(db: Db, es: seq<Effect>, e: Effect)
    requires Valid(db, es) && e in es && e.NewCall?
    ensures var db' := ApplyAll(db, es);
            && e.call !in db.calls && e.call in db'.calls && e.session in db'.sessions
            && db'.calls[e.call].createdAt == e.at && db'.calls[e.call].table == db'.sessions[e.session].table
    decreases |es|
  {
    hide Apply, Guard;
    var db1 := Apply(db, es[0]);
    FutureStep(db, es[0]);
    if e == es[0] {
      NewCallStep(db, e);
      FutureAll(db1, es[1..]);
      assert CallAfter(db1.calls[e.call], ApplyAll(db, es).calls[e.call]);
      assert SessionAfter(db1.sessions[e.session], ApplyAll(db, es).sessions[e.session]);
    } else {
      CreatedCallStays(db1, es[1..], e);
    }
  }

  lemma CallArrives(db: Db, e: Effect, c: Id)
    requires Guard(db, e) && c in Apply(db, e).calls && c !in db.calls
    ensures e.NewCall? && e.call == c
  {
  }

  /** ... and there is no other way for a call to come about. */
  lemma {:induction false} CallCameWith(db: Db, es: seq<Effect>, c: Id)
    requires Valid(db, es) && c in ApplyAll(db, es).calls && c !in db.calls
    ensures exists e :: e in es && e.NewCall? && e.call == c
    decreases |es|
  {
    if es != [] {
      if c in Apply(db, es[0]).calls {
        CallArrives(db, es[0], c);
        assert es[0] in es;
      } else {
        CallCameWith(Apply(db, es[0]), es[1..], c);
        var e :| e in es[1..] && e.NewCall? && e.call == c;
        assert e in es;
      }
    }
  }

  predicate Between(at: Time, from: Time, to: Option<Time>) {
    from < at && (to.Some? ==> at < to.value)
  }

  /** The table has a call of an instant between the two. */
  predicate CalledIn(db: Db, table: Id, from: Time, to: Option<Time>) {
    exists c :: c in db.calls && db.calls[c].table == table && Between(db.calls[c].createdAt, from, to)
  }

  /** The history creates one. */
  ghost predicate CreatesIn(db: Db, es: seq<Effect>, table: Id, from: Time, to: Option<Time>) {
    exists e :: e in es && CallsAt(db, e, table) && Between(e.at, from, to)
  }

  /** If there is none at first, there is one afterwards exactly when the history creates one. */
  lemma CalledSince(db: Db, es: seq<Effect>, table: Id, from: Time, to: Option<Time>)
    requires Valid(db, es) && !CalledIn(db, table, from, to)
    ensures CalledIn(ApplyAll(db, es), table, from, to) <==> CreatesIn(ApplyAll(db, es), es, table, from, to)
  {
    var db' := ApplyAll(db, es);
    if CalledIn(db', table, from, to) {
      var c :| c in db'.calls && db'.calls[c].table == table && Between(db'.calls[c].createdAt, from, to);
      FutureAll(db, es);
      assert c in db.calls ==> CallAfter(db.calls[c], db'.calls[c]);
      CallCameWith(db, es, c);
      var e :| e in es && e.NewCall? && e.call == c;
      CreatedCallStays(db, es, e);
      assert CallsAt(db', e, table);
    }
    if CreatesIn(db', es, table, from, to) {
      var e :| e in es && CallsAt(db', e, table) && Between(e.at, from, to);
      CreatedCallStays(db, es, e);
    }
  }

  lemma RecentIsCalled(db: Db, table: Id, cooldown: int, began: Time)
    ensures Requests.CalledRecently(db, table, cooldown, began)
            <==> CalledIn(db, table, began - cooldown * SECOND, None)
  {
  }

  /** From the check of a staff call to its commit: any call of its table younger than the
      cooldown it has read allows has been committed since. */
  lemma CalledRace(w: World, t: Id, check: Action, acts: seq<Action>, from: Time, to: Option<Time>)
    requires Coherent(w) && Enabled(w, check) && Checks(w, t, check) && Schedule(Step(w, check), acts)
    requires t in Outcome(Step(w, check), acts).txns && Outcome(Step(w, check), acts).txns[t].pc.CallCommit?
    ensures var w2 := Outcome(Step(w, check), acts); var pc := w.txns[t].pc;
            && w2.txns[t].pc.table == pc.table
            && (w2.txns[t].began - pc.cooldown * SECOND <= from ==>
                  (CalledIn(w2.db, pc.table, from, to)
                   <==> CreatesIn(w2.db, Commits(Step(w, check), acts), pc.table, from, to)))
  {
    var pc, began := w.txns[t].pc, Awake(w, w.txns[t]).began;
    hide Coherent, Next, Step, Checks, CalledIn, CreatesIn, Requests.CalledRecently;
    var w1 := Step(w, check);
    CheckPasses(w, t, check);
    StepRefines(w, check);
    CallUnderAll(w1, t, acts, pc.table, began);
    ScheduleRefines(w1, acts);
    if began - pc.cooldown * SECOND <= from {
      RecentIsCalled(w.db, pc.table, pc.cooldown, began);
      FewerBetween(w.db, pc.table, began - pc.cooldown * SECOND, from, to);
      CalledSince(w1.db, Commits(w1, acts), pc.table, from, to);
    }
  }

  lemma FewerBetween(db: Db, table: Id, from: Time, from': Time, to: Option<Time>)
    requires from <= from' && !CalledIn(db, table, from, None)
    ensures !CalledIn(db, table, from', to)
  {
    forall c | c in db.calls && db.calls[c].table == table ensures !Between(db.calls[c].createdAt, from', to) {
      assert !Between(db.calls[c].createdAt, from, None);
    }
  }

  /** When a call is about to be committed, the cooldown it has read and checked is broken
      exactly when a call of its table and within that cooldown has been committed since the
      check, whatever has become of the settings. */
  lemma CooldownRace(w: World, t: Id, check: Action, acts: seq<Action>)
    requires Coherent(w) && Enabled(w, check) && Checks(w, t, check) && Schedule(Step(w, check), acts)
    requires t in Outcome(Step(w, check), acts).txns && Outcome(Step(w, check), acts).txns[t].pc.CallCommit?
    ensures var w2 := Outcome(Step(w, check), acts); var pc := w.txns[t].pc; var began := w2.txns[t].began;
            && w2.txns[t].pc.table == pc.table
            && (Requests.CalledRecently(w2.db, pc.table, pc.cooldown, began)
                <==> exists e :: e in Commits(Step(w, check), acts) && CallsAt(w2.db, e, pc.table)
                                 && e.at > began - pc.cooldown * SECOND)
  {
    var w2 := Outcome(Step(w, check), acts);
    var table, cooldown := w.txns[t].pc.table, w.txns[t].pc.cooldown;
    hide Coherent, Next, Step, Checks, CalledIn, Requests.CalledRecently;
    var from := w2.txns[t].began - cooldown * SECOND;
    CalledRace(w, t, check, acts, from, None);
    RecentIsCalled(w2.db, table, cooldown, w2.txns[t].began);
    var es := Commits(Step(w, check), acts);
    assert CreatesIn(w2.db, es, table, from, None) <==>
      exists e :: e in es && CallsAt(w2.db, e, table) && e.at > from;
  }

  // ----- The cooldown over a whole schedule -----

  /** Past the cooldown check of a staff call. */
  predicate PastCheck(pc: Pc) {
    pc.CallTouch? || pc.CallInsert? || pc.CallCommit?
  }

  /** Past the read of the cooldown. */
  predicate PastRead(pc: Pc) {
    pc.CallCheck? || PastCheck(pc)
  }

  /** Transaction t passes its check at step i and commits a call for the table at step j, and
      in between another one is committed for it, less than the gap away. */
  ghost predicate TooClose(w: World, acts: seq<Action>, i: nat, j: nat, t: Id, table: Id, gap: Time)
    requires i < j < |acts|
  {
    && Schedule(w, acts[..i]) && Enabled(Outcome(w, acts[..i]), acts[i]) && Checks(Outcome(w, acts[..i]), t, acts[i])
    && var w1 := Step(Outcome(w, acts[..i]), acts[i]);
       && Schedule(w1, acts[i + 1..j])
       && var w2 := Outcome(w1, acts[i + 1..j]);
          && acts[j].Run? && acts[j].t == t && t in w2.txns
          && w2.txns[t].pc.CallCommit? && w2.txns[t].pc.table == table
          && CreatesIn(w2.db, Commits(w1, acts[i + 1..j]), table, w2.txns[t].began - gap, Some(w2.txns[t].began + gap))
  }

  ghost predicate SomeTooClose(w: World, acts: seq<Action>, table: Id, gap: Time) {
    exists i: nat, j: nat, t :: i < j < |acts| && TooClose(w, acts, i, j, t, table, gap)
  }

  /** A new call keeps the spacing exactly when no call of its table is closer than the gap. */
  lemma NewCallSpaced(db: Db, e: Effect, table: Id, gap: Time)
    requires Guard(db, e) && e.NewCall? && CallsAt(db, e, table) && gap >= 0
    ensures Spaced(Apply(db, e), table, gap)
            <==> Spaced(db, table, gap) && !CalledIn(db, table, e.at - gap, Some(e.at + gap))
  {
    var db' := Apply(db, e);
    if Spaced(db', table, gap) {
      assert forall c | c in db.calls :: db'.calls[c] == db.calls[c];
      forall c | c in db.calls && db.calls[c].table == table
        ensures !Between(db.calls[c].createdAt, e.at - gap, Some(e.at + gap))
      {
        assert db'.calls[c] == db.calls[c] && db'.calls[e.call].createdAt == e.at;
      }
    }
  }

  lemma OtherSpaced(db: Db, e: Effect, table: Id, gap: Time)
    requires Guard(db, e) && !CallsAt(db, e, table)
    ensures Spaced(Apply(db, e), table, gap) <==> Spaced(db, table, gap)
  {
    if e.NewCall? {
      var db' := Apply(db, e);
      assert forall c | c in db.calls :: c in db'.calls && db'.calls[c] == db.calls[c];
    } else {
      CallTimesStep(db, e);
    }
  }

  /** The step commits a staff call for the table. */
  predicate CommitsCall(w: World, a: Action, table: Id) {
    a.Run? && a.t in w.txns && w.txns[a.t].pc.CallCommit? && w.txns[a.t].pc.table == table
  }

  /** A step that does not commit a call for the table leaves its spacing as it is. */
  lemma QuietStep(w: World, a: Action, table: Id, gap: Time)
    requires Coherent(w) && Enabled(w, a) && !CommitsCall(w, a, table)
    ensures Spaced(Step(w, a).db, table, gap) <==> Spaced(w.db, table, gap)
  {
    hide Coherent, Step, Spaced, Apply, Guard, Next;
    StepRefines(w, a);
    if EffectsOf(w, a) != [] {
      var e := EffectsOf(w, a)[0];
      assert EffectsOf(w, a) == [e];
      Single(w.db, e);
      if a.Run? { CommitsElsewhere(w, a.t, table); }
      OtherSpaced(w.db, e, table, gap);
    }
  }

  lemma Single(db: Db, e: Effect)
    requires Valid(db, [e])
    ensures Guard(db, e) && ApplyAll(db, [e]) == Apply(db, e)
  {
    assert [e][0] == e && [e][1..] == [];
    assert ApplyAll(Apply(db, e), []) == Apply(db, e);
  }

  lemma CommitsElsewhere(w: World, t: Id, table: Id)
    requires Coherent(w) && t in w.txns && EffectAt(w.txns[t]) != []
    requires w.txns[t].pc.CallCommit? ==> w.txns[t].pc.table != table
    ensures !CallsAt(w.db, EffectAt(w.txns[t])[0], table)
  {
    hide Sound, IndexOk, Disjoint;
    assert Ok(w.db, w.txns[t]);
  }

  /** A step that commits a call for the table keeps its spacing exactly when there is no call
      close to it. */
  lemma CallStepSpaced(w: World, t: Id, q: Id, table: Id, gap: Time)
    requires Coherent(w) && Enabled(w, Run(t, q)) && CommitsCall(w, Run(t, q), table) && gap >= 0
    ensures var began := w.txns[t].began;
            Spaced(Step(w, Run(t, q)).db, table, gap)
            <==> Spaced(w.db, table, gap) && !CalledIn(w.db, table, began - gap, Some(began + gap))
  {
    hide Step, Spaced, CalledIn, Apply, Guard, Next, Sound, IndexOk, Disjoint;
    StepRefines(w, Run(t, q));
    var e := EffectAt(w.txns[t])[0];
    Single(w.db, e);
    assert Ok(w.db, w.txns[t]);
    NewCallSpaced(w.db, e, table, gap);
  }

  lemma CheckStep(w: World, t: Id, a: Action)
    requires Enabled(w, a) && t in Step(w, a).txns && PastCheck(Step(w, a).txns[t].pc)
    requires t in w.txns ==> !PastCheck(w.txns[t].pc)
    ensures Checks(w, t, a)
  {
    hide Next, With;
    match a
    case Run(u, pick) =>
      if u == t { CheckNext(w, t, pick); } else if t in w.txns { OthersPc(w, u, pick, t); }
    case _ =>
  }

  lemma CheckNext(w: World, t: Id, pick: Id)
    requires t in w.txns && Next(w, t, pick) != Blocked
    requires PastCheck(Next(w, t, pick).next.pc) && !PastCheck(w.txns[t].pc)
    ensures w.txns[t].pc.CallCheck? && Next(w, t, pick).next.pc.CallTouch?
  {
    hide NextOpen, NextOrder, NextItem, NextAck, NextRestore, NextClose, NextSweep, Free, Requests.CalledRecently;
    if !Calling(w.txns[t].pc) {
      OnlyCalls(w, t, Awake(w, w.txns[t]), pick);
    }
  }

  /** No statement outside a staff call leads past the check of one. */
  lemma OnlyCalls(w: World, t: Id, x: Txn, pick: Id)
    ensures var st := NextOpen(w, t, x, pick); st.Blocked? || !PastRead(st.next.pc)
    ensures var st := NextOrder(w, t, x); st.Blocked? || !PastRead(st.next.pc)
    ensures var st := NextItem(w, t, x); st.Blocked? || !PastRead(st.next.pc)
    ensures var st := NextAck(w, t, x); st.Blocked? || !PastRead(st.next.pc)
    ensures var st := NextRestore(w, t, x); st.Blocked? || !PastRead(st.next.pc)
    ensures var st := NextClose(w, t, x, pick); st.Blocked? || !PastRead(st.next.pc)
    ensures var st := NextSweep(w, t, x, pick); st.Blocked? || !PastRead(st.next.pc)
  {
    hide FindOpen, IndexBusy, SessionFree, Free, OpResult, HasSession, LiveOf, Stale, ServedLines, IsPendingOf,
        PendingOf, InSession;
  }

  /** Whoever is past its check has passed it at some step. */
  lemma {:induction false} CheckedAt(w: World, acts: seq<Action>, t: Id) returns (i: nat)
    requires Schedule(w, acts) && t in Outcome(w, acts).txns && PastCheck(Outcome(w, acts).txns[t].pc)
    requires t in w.txns ==> !PastCheck(w.txns[t].pc)
    ensures i < |acts| && Schedule(w, acts[..i]) && Enabled(Outcome(w, acts[..i]), acts[i])
    ensures Checks(Outcome(w, acts[..i]), t, acts[i])
    decreases |acts|
  {
    hide Enabled, Step, Checks;
    if acts == [] {
      assert false;
    } else {
      var n := |acts| - 1;
      assert acts == acts[..n] + [acts[n]];
      ScheduleLast(w, acts[..n], acts[n]);
      var last := Outcome(w, acts[..n]);
      if t in last.txns && PastCheck(last.txns[t].pc) {
        i := CheckedAt(w, acts[..n], t);
        assert acts[..n][..i] == acts[..i];
      } else {
        CheckStep(last, t, acts[n]);
        i := n;
      }
    }
  }

  ghost predicate LastTooClose(w: World, p: seq<Action>, a: Action, table: Id, gap: Time) {
    exists i: nat, t :: i < |p| && TooClose(w, p + [a], i, |p|, t, table, gap)
  }

  /** The pair (i, j) is judged by the steps up to j alone. */
  lemma SamePair(w: World, p: seq<Action>, a: Action, i: nat, j: nat, t: Id, table: Id, gap: Time)
    requires i < j < |p|
    ensures TooClose(w, p + [a], i, j, t, table, gap) <==> TooClose(w, p, i, j, t, table, gap)
  {
    var acts := p + [a];
    assert acts[..i] == p[..i] && acts[i] == p[i] && acts[i + 1..j] == p[i + 1..j] && acts[j] == p[j];
  }

  /** A schedule cut around its step i. */
  lemma CutAround(w: World, p: seq<Action>, i: nat)
    requires Schedule(w, p) && i < |p|
    ensures Schedule(w, p[..i]) && Enabled(Outcome(w, p[..i]), p[i])
    ensures var w1 := Step(Outcome(w, p[..i]), p[i]);
            Schedule(w1, p[i + 1..]) && Outcome(w1, p[i + 1..]) == Outcome(w, p)
  {
    hide Enabled, Step;
    var rest := [p[i]] + p[i + 1..];
    assert p == p[..i] + rest;
    ScheduleSplit(w, p[..i], rest);
    assert rest[0] == p[i] && rest[1..] == p[i + 1..];
  }

  /** No edit in the history sets the cooldown of restaurant r below c. */
  predicate NoShorter(es: seq<Effect>, r: Id, c: int) {
    forall e | e in es && e.EditSettings? && e.owner == r :: e.row.cooldownSeconds >= c
  }

  /** The cooldown of r is c or more, in the settings and wherever a request has read it. */
  ghost predicate ReadAtLeast(w: World, r: Id, c: int) {
    && Requests.CooldownSeconds(w.db, r) >= c
    && forall t | t in w.txns && w.txns[t].pc.CallCheck? && w.txns[t].pc.restaurant == r :: w.txns[t].pc.cooldown >= c
  }

  lemma EffectKeepsCooldown(db: Db, e: Effect, r: Id, c: int)
    requires Guard(db, e) && Requests.CooldownSeconds(db, r) >= c && NoShorter([e], r, c)
    ensures Requests.CooldownSeconds(Apply(db, e), r) >= c
  {
    assert e in [e];
    if !e.EditSettings? { SettingsStep(db, e); }
  }

  lemma ReadStep(w: World, a: Action, r: Id, c: int)
    requires Coherent(w) && Enabled(w, a) && ReadAtLeast(w, r, c) && NoShorter(EffectsOf(w, a), r, c)
    ensures ReadAtLeast(Step(w, a), r, c)
  {
    hide Coherent, Next, Apply, Guard, With, Requests.CooldownSeconds;
    StepRefines(w, a);
    if EffectsOf(w, a) != [] {
      var e := EffectsOf(w, a)[0];
      assert EffectsOf(w, a) == [e];
      Single(w.db, e);
      EffectKeepsCooldown(w.db, e, r, c);
    }
    forall t | t in Step(w, a).txns && Step(w, a).txns[t].pc.CallCheck? && Step(w, a).txns[t].pc.restaurant == r
      ensures Step(w, a).txns[t].pc.cooldown >= c
    {
      CheckHasRead(w, a, t);
    }
  }

  /** Who is at its check was there before or has just read the cooldown. */
  lemma CheckHasRead(w: World, a: Action, t: Id)
    requires Enabled(w, a) && t in Step(w, a).txns && Step(w, a).txns[t].pc.CallCheck?
    ensures var pc := Step(w, a).txns[t].pc;
            || (t in w.txns && w.txns[t].pc == pc)
            || pc.cooldown == Requests.CooldownSeconds(w.db, pc.restaurant)
  {
    hide Next, With, Requests.CooldownSeconds;
    match a
    case Run(u, pick) =>
      if u != t && t in w.txns { OthersPc(w, u, pick, t); } else { ReadNext(w, u, pick); }
    case _ =>
  }

  lemma ReadNext(w: World, t: Id, pick: Id)
    requires t in w.txns && Next(w, t, pick) != Blocked && Next(w, t, pick).next.pc.CallCheck?
    ensures Next(w, t, pick).next.pc.cooldown == Requests.CooldownSeconds(w.db, Next(w, t, pick).next.pc.restaurant)
  {
    hide NextOpen, NextOrder, NextItem, NextAck, NextRestore, NextClose, NextSweep, Free, Requests.CalledRecently,
        Requests.CooldownSeconds;
    if !Calling(w.txns[t].pc) {
      OnlyCalls(w, t, Awake(w, w.txns[t]), pick);
    }
  }

  lemma {:induction false} ReadAlong(w: World, acts: seq<Action>, r: Id, c: int)
    requires Coherent(w) && Schedule(w, acts) && ReadAtLeast(w, r, c) && NoShorter(Commits(w, acts), r, c)
    ensures ReadAtLeast(Outcome(w, acts), r, c)
    decreases |acts|
  {
    hide Coherent, Enabled, Step, EffectsOf, ReadAtLeast;
    if acts != [] {
      StepRefines(w, acts[0]);
      ReadStep(w, acts[0], r, c);
      ReadAlong(Step(w, acts[0]), acts[1..], r, c);
    }
  }

  /** A staff call at its check acts for the restaurant of its table. */
  lemma CheckIsAtTable(w: World, t: Id)
    requires Coherent(w) && t in w.txns && w.txns[t].pc.CallCheck?
    ensures var pc := w.txns[t].pc; pc.table in w.db.tables && w.db.tables[pc.table].restaurant == pc.restaurant
  {
    hide IndexOk, Disjoint;
    assert Ok(w.db, w.txns[t]);
    assert w.txns[t].pc.sid in w.db.sessions;
  }

  /** What TooClose says of the last step. */
  lemma LastPairMeans(w: World, p: seq<Action>, a: Action, i: nat, t: Id, table: Id, gap: Time)
    requires Schedule(w, p) && i < |p|
    ensures Schedule(w, p[..i]) && Enabled(Outcome(w, p[..i]), p[i])
    ensures var w1 := Step(Outcome(w, p[..i]), p[i]); var w2 := Outcome(w, p);
            && Schedule(w1, p[i + 1..]) && Outcome(w1, p[i + 1..]) == w2
            && (TooClose(w, p + [a], i, |p|, t, table, gap)
                <==> && Checks(Outcome(w, p[..i]), t, p[i]) && a.Run? && a.t == t && t in w2.txns
                     && w2.txns[t].pc.CallCommit? && w2.txns[t].pc.table == table
                     && CreatesIn(w2.db, Commits(w1, p[i + 1..]), table, w2.txns[t].began - gap,
                                  Some(w2.txns[t].began + gap)))
  {
    hide Enabled, Step, Checks, CreatesIn;
    var acts := p + [a];
    CutAround(w, p, i);
    assert acts[..i] == p[..i] && acts[i] == p[i] && acts[i + 1..|p|] == p[i + 1..] && acts[|p|] == a;
  }

  /** A call close to the one about to be committed has been committed since its check. */
  lemma CloseRace(u: World, t: Id, check: Action, acts: seq<Action>, c: nat)
    requires Coherent(u) && Enabled(u, check) && Checks(u, t, check) && u.txns[t].pc.cooldown >= c
    requires Schedule(Step(u, check), acts)
    requires t in Outcome(Step(u, check), acts).txns && Outcome(Step(u, check), acts).txns[t].pc.CallCommit?
    ensures var w2 := Outcome(Step(u, check), acts); var table, gap := u.txns[t].pc.table, c * SECOND;
            && w2.txns[t].pc.table == table
            && (CalledIn(w2.db, table, w2.txns[t].began - gap, Some(w2.txns[t].began + gap))
                <==> CreatesIn(w2.db, Commits(Step(u, check), acts), table, w2.txns[t].began - gap,
                               Some(w2.txns[t].began + gap)))
  {
    hide Coherent, Enabled, Step, CalledIn, CreatesIn;
    var x := Outcome(Step(u, check), acts).txns[t];
    CalledRace(u, t, check, acts, x.began - c * SECOND, Some(x.began + c * SECOND));
  }

  /** Whatever check of t one looks at, its last step is too close to another exactly when
      some call is close to it. */
  lemma LastPair(w: World, p: seq<Action>, q: Id, i: nat, t: Id, table: Id, c: nat)
    requires Coherent(w) && Schedule(w, p) && i < |p| && Schedule(w, p[..i]) && Enabled(Outcome(w, p[..i]), p[i])
    requires Checks(Outcome(w, p[..i]), t, p[i]) && Outcome(w, p[..i]).txns[t].pc.cooldown >= c
    requires CommitsCall(Outcome(w, p), Run(t, q), table)
    ensures var w2 := Outcome(w, p); var gap := c * SECOND;
            CalledIn(w2.db, table, w2.txns[t].began - gap, Some(w2.txns[t].began + gap))
            <==> TooClose(w, p + [Run(t, q)], i, |p|, t, table, gap)
  {
    hide Coherent, Enabled, Step, Checks, CalledIn, CreatesIn, TooClose;
    LastPairMeans(w, p, Run(t, q), i, t, table, c * SECOND);
    ScheduleRefines(w, p[..i]);
    CloseRace(Outcome(w, p[..i]), t, p[i], p[i + 1..], c);
  }

  /** A cooldown that has been read is c or more. */
  lemma HasRead(w: World, p: seq<Action>, t: Id, table: Id, c: nat)
    requires Coherent(w) && Schedule(w, p)
    requires table in w.db.tables && ReadAtLeast(w, w.db.tables[table].restaurant, c)
    requires NoShorter(Commits(w, p), w.db.tables[table].restaurant, c)
    requires t in Outcome(w, p).txns && Outcome(w, p).txns[t].pc.CallCheck? && Outcome(w, p).txns[t].pc.table == table
    ensures Outcome(w, p).txns[t].pc.cooldown >= c
  {
    hide Coherent, NoShorter;
    ScheduleRefines(w, p);
    ReadAlong(w, p, w.db.tables[table].restaurant, c);
    TablesStay(w.db, Commits(w, p));
    CheckIsAtTable(Outcome(w, p), t);
  }

  lemma NoShorterBefore(w: World, p: seq<Action>, i: nat, r: Id, c: int)
    requires Schedule(w, p) && i <= |p| && NoShorter(Commits(w, p), r, c)
    ensures Schedule(w, p[..i]) && NoShorter(Commits(w, p[..i]), r, c)
  {
    hide Enabled, Step, EffectsOf;
    assert p == p[..i] + p[i..];
    ScheduleSplit(w, p[..i], p[i..]);
    assert forall e | e in Commits(w, p[..i]) :: e in Commits(w, p);
  }

  /** The check of a call that is committed for the table, on a cooldown of c or more. */
  lemma CheckedFor(w: World, p: seq<Action>, i: nat, t: Id, table: Id, c: nat)
    requires Coherent(w) && Schedule(w, p) && i < |p| && Schedule(w, p[..i]) && Enabled(Outcome(w, p[..i]), p[i])
    requires Checks(Outcome(w, p[..i]), t, p[i])
    requires t in Outcome(w, p).txns && PastCheck(Outcome(w, p).txns[t].pc) && Outcome(w, p).txns[t].pc.table == table
    requires table in w.db.tables && ReadAtLeast(w, w.db.tables[table].restaurant, c)
    requires NoShorter(Commits(w, p), w.db.tables[table].restaurant, c)
    ensures Outcome(w, p[..i]).txns[t].pc.cooldown >= c
  {
    var u := Outcome(w, p[..i]);
    assert t in u.txns && u.txns[t].pc.CallCheck?;
    hide Coherent, Enabled, Step, Checks, ReadAtLeast, NoShorter, CallUnder;
    CutAround(w, p, i);
    CheckPasses(u, t, p[i]);
    CallUnderAll(Step(u, p[i]), t, p[i + 1..], u.txns[t].pc.table, Awake(u, u.txns[t]).began);
    UnderTable(Outcome(w, p).txns[t], u.txns[t].pc.table, Awake(u, u.txns[t]).began);
    NoShorterBefore(w, p, i, w.db.tables[table].restaurant, c);
    HasRead(w, p[..i], t, table, c);
  }

  lemma UnderTable(x: Txn, table: Id, began: Time)
    requires CallUnder(x, table, began) && PastCheck(x.pc)
    ensures x.pc.table == table
  {
  }

  /** The cooldown under concurrency, exactly.  While the cooldown of the restaurant is c
      seconds or more, however it is edited, the calls of a table stay c apart over a schedule
      if and only if no request commits one after another request has committed one closer
      than c to it since its check. */
  lemma {:induction false} SpacedIff(w: World, acts: seq<Action>, table: Id, c: nat)
    requires Coherent(w) && Schedule(w, acts) && forall t | t in w.txns :: !PastRead(w.txns[t].pc)
    requires table in w.db.tables && Requests.CooldownSeconds(w.db, w.db.tables[table].restaurant) >= c
    requires NoShorter(Commits(w, acts), w.db.tables[table].restaurant, c)
    requires Spaced(w.db, table, c * SECOND)
    ensures Spaced(Outcome(w, acts).db, table, c * SECOND) <==> !SomeTooClose(w, acts, table, c * SECOND)
    decreases |acts|
  {
    hide Coherent, Enabled, Step, Spaced, SomeTooClose, LastTooClose;
    if acts == [] {
      NoPairYet(w, table, c * SECOND);
    } else {
      var n := |acts| - 1;
      var p, a := acts[..n], acts[n];
      assert acts == p + [a];
      ScheduleLast(w, p, a);
      ScheduleRefines(w, p);
      SpacedIff(w, p, table, c);
      EarlierPairs(w, p, a, table, c * SECOND);
      SpacedLast(w, p, a, table, c);
    }
  }

  lemma NoPairYet(w: World, table: Id, gap: Time)
    ensures !SomeTooClose(w, [], table, gap)
  {
  }

  /** A pair of the longer schedule is one of the shorter or ends with the last step. */
  lemma EarlierPairs(w: World, p: seq<Action>, a: Action, table: Id, gap: Time)
    ensures SomeTooClose(w, p + [a], table, gap)
            <==> SomeTooClose(w, p, table, gap) || LastTooClose(w, p, a, table, gap)
  {
    hide TooClose;
    forall i: nat, j: nat, t | i < j < |p|
      ensures TooClose(w, p + [a], i, j, t, table, gap) <==> TooClose(w, p, i, j, t, table, gap)
    {
      SamePair(w, p, a, i, j, t, table, gap);
    }
  }

  lemma SpacedLast(w: World, p: seq<Action>, a: Action, table: Id, c: nat)
    requires Coherent(w) && Schedule(w, p) && Enabled(Outcome(w, p), a) && Coherent(Outcome(w, p))
    requires forall t | t in w.txns :: !PastCheck(w.txns[t].pc)
    requires table in w.db.tables && ReadAtLeast(w, w.db.tables[table].restaurant, c)
    requires NoShorter(Commits(w, p), w.db.tables[table].restaurant, c)
    ensures Spaced(Step(Outcome(w, p), a).db, table, c * SECOND)
            <==> Spaced(Outcome(w, p).db, table, c * SECOND) && !LastTooClose(w, p, a, table, c * SECOND)
  {
    hide Coherent, Enabled, Step, Spaced, ReadAtLeast, LastTooClose;
    var w2 := Outcome(w, p);
    if CommitsCall(w2, a, table) {
      CallStepSpaced(w2, a.t, a.pick, table, c * SECOND);
      CloseToLast(w, p, a.t, a.pick, table, c);
    } else {
      QuietStep(w2, a, table, c * SECOND);
      NothingClose(w, p, a, table, c * SECOND);
    }
  }

  lemma CloseToLast(w: World, p: seq<Action>, t: Id, q: Id, table: Id, c: nat)
    requires Coherent(w) && Schedule(w, p) && CommitsCall(Outcome(w, p), Run(t, q), table)
    requires forall u | u in w.txns :: !PastCheck(w.txns[u].pc)
    requires table in w.db.tables && ReadAtLeast(w, w.db.tables[table].restaurant, c)
    requires NoShorter(Commits(w, p), w.db.tables[table].restaurant, c)
    ensures var w2 := Outcome(w, p); var gap := c * SECOND;
            CalledIn(w2.db, table, w2.txns[t].began - gap, Some(w2.txns[t].began + gap))
            <==> LastTooClose(w, p, Run(t, q), table, gap)
  {
    hide Coherent, Enabled, Step, CalledIn, CreatesIn, ReadAtLeast, TooClose, Checks;
    var gap := c * SECOND;
    var i := CheckedAt(w, p, t);
    CheckedFor(w, p, i, t, table, c);
    LastPair(w, p, q, i, t, table, c);
    forall k: nat, u | k < |p| && TooClose(w, p + [Run(t, q)], k, |p|, u, table, gap)
      ensures TooClose(w, p + [Run(t, q)], i, |p|, t, table, gap)
    {
      LastPairMeans(w, p, Run(t, q), k, u, table, gap);
      CheckedFor(w, p, k, t, table, c);
      LastPair(w, p, q, k, t, table, c);
    }
  }

  lemma NothingClose(w: World, p: seq<Action>, a: Action, table: Id, gap: Time)
    requires Schedule(w, p) && !CommitsCall(Outcome(w, p), a, table)
    ensures !LastTooClose(w, p, a, table, gap)
  {
    hide Enabled, Step, CreatesIn, TooClose, Checks;
    forall i: nat, t | i < |p| ensures !TooClose(w, p + [a], i, |p|, t, table, gap) {
      LastPairMeans(w, p, a, i, t, table, gap);
    }
  }
}
