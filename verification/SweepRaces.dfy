/** The sweep under concurrency: what it abandons was stale when it scanned, and whether it
    still is when the abandonment commits. */
module SweepRaces {
  import opened Schema
  import opened Effects
  import opened Laws
  import opened Interleaving
  import opened Statements
  import opened Isolation
  import opened Races

  /** The step by which a sweep scans. */
  predicate Scans(w: World, t: Id, a: Action) {
    a.Run? && a.t == t && t in w.txns && w.txns[t].pc.SweepScan?
  }

  /** A sweep still to deal with some of the sessions it has scanned, or over. */
  predicate Sweeps(pc: Pc, scanned: set<Id>) {
    || (pc.SweepNext? && pc.rows <= scanned)
    || (Abandoning(pc) && pc.rows <= scanned && pc.sid in scanned)
    || pc.SweepDone? || pc.Aborted?
  }

  lemma SweepsNext(w: World, t: Id, pick: Id, scanned: set<Id>)
    requires t in w.txns && Sweeps(w.txns[t].pc, scanned) && Next(w, t, pick) != Blocked
    ensures Sweeps(Next(w, t, pick).next.pc, scanned)
  {
    hide NextOpen, NextOrder, NextItem, NextCall, NextAck, NextRestore, NextClose, NextSweep;
    SweepGoesOn(w, t, Awake(w, w.txns[t]), pick, scanned);
  }

  lemma SweepGoesOn(w: World, t: Id, x: Txn, pick: Id, scanned: set<Id>)
    requires Sweeps(x.pc, scanned)
    ensures var st := NextSweep(w, t, x, pick); st.Blocked? || Sweeps(st.next.pc, scanned)
  {
    hide LiveOf, PendingOf, IsPendingOf, Free, Stale;
  }

  lemma SweepsStep(w: World, t: Id, a: Action, scanned: set<Id>)
    requires Enabled(w, a) && t in w.txns && Sweeps(w.txns[t].pc, scanned)
    ensures t in Step(w, a).txns && Sweeps(Step(w, a).txns[t].pc, scanned)
  {
    hide Next, With;
    match a
    case Run(u, pick) =>
      if u == t { SweepsNext(w, t, pick, scanned); } else { OthersPc(w, u, pick, t); }
    case _ =>
  }

  lemma {:induction false} SweepsAll(w: World, t: Id, acts: seq<Action>, scanned: set<Id>)
    requires Schedule(w, acts) && t in w.txns && Sweeps(w.txns[t].pc, scanned)
    ensures t in Outcome(w, acts).txns && Sweeps(Outcome(w, acts).txns[t].pc, scanned)
    decreases |acts|
  {
    hide Enabled, Step, Sweeps;
    if acts != [] {
      SweepsStep(w, t, acts[0], scanned);
      SweepsAll(Step(w, acts[0]), t, acts[1..], scanned);
    }
  }

  function StaleAt(db: Db, now: Time): set<Id> {
    set s | s in db.sessions && Stale(db, s, now)
  }

  lemma ScanFinds(w: World, t: Id, a: Action)
    requires Enabled(w, a) && Scans(w, t, a)
    ensures Step(w, a).db == w.db && t in Step(w, a).txns
    ensures Sweeps(Step(w, a).txns[t].pc, StaleAt(w.db, Awake(w, w.txns[t]).began))
  {
    hide NextOpen, NextOrder, NextItem, NextCall, NextAck, NextRestore, NextClose, Stale;
  }

  // ----- Activity -----

  /** The effect sets the last activity of session s. */
  predicate Touches(db: Db, e: Effect, s: Id) {
    match e
    case PlaceOrder(_, sid, _, _, _) => sid == s
    case MoveItem(i, _, _, _) => HasSession(db, i) && SessionOf(db, i) == s
    case CancelItem(i, _, _, _) => HasSession(db, i) && SessionOf(db, i) == s
    case Reopen(sid, _) => sid == s
    case NewCall(_, sid, _) => sid == s
    case _ => false
  }

  /** The instant of the last activity of s in a history. */
  ghost function LastTouch(db: Db, es: seq<Effect>, s: Id): Option<Time>
    requires Valid(db, es)
    decreases |es|
  {
    if es == [] then None
    else
      var later := LastTouch(Apply(db, es[0]), es[1..], s);
      if later.Some? then later else if Touches(db, es[0], s) then Some(es[0].at) else None
  }

  lemma TouchStep(db: Db, e: Effect, s: Id)
    requires Guard(db, e) && s in db.sessions
    ensures s in Apply(db, e).sessions
    ensures Apply(db, e).sessions[s].lastActivity == if Touches(db, e, s) then e.at else db.sessions[s].lastActivity
  {
    hide CancelLive, DismissCalls;
  }

  lemma {:induction false} ActivitySince(db: Db, es: seq<Effect>, s: Id)
    requires Valid(db, es) && s in db.sessions
    ensures s in ApplyAll(db, es).sessions
    ensures ApplyAll(db, es).sessions[s].lastActivity
            == if LastTouch(db, es, s).Some? then LastTouch(db, es, s).value else db.sessions[s].lastActivity
    decreases |es|
  {
    if es != [] {
      TouchStep(db, es[0], s);
      ActivitySince(Apply(db, es[0]), es[1..], s);
    }
  }

  /** How long ago the last activity of session s must be for a scan at `now` to select it. */
  function IdleLimit(db: Db, s: Id, now: Time): Time
    requires s in db.sessions && db.sessions[s].restaurant in db.settings
  {
    now - db.settings[db.sessions[s].restaurant].timeoutHours * HOUR
  }

  /** The timeout the last edit of the settings of restaurant r sets. */
  function LastTimeout(es: seq<Effect>, r: Id): Option<int> {
    if es == [] then None
    else if LastTimeout(es[1..], r).Some? then LastTimeout(es[1..], r)
    else if es[0].EditSettings? && es[0].owner == r then Some(es[0].row.timeoutHours)
    else None
  }

  lemma TimeoutStep(db: Db, e: Effect, r: Id)
    requires Guard(db, e) && r in db.settings
    ensures r in Apply(db, e).settings
    ensures Apply(db, e).settings[r].timeoutHours
            == if e.EditSettings? && e.owner == r then e.row.timeoutHours else db.settings[r].timeoutHours
  {
    hide CancelLive, DismissCalls;
  }

  lemma {:induction false} TimeoutSince(db: Db, es: seq<Effect>, r: Id)
    requires Valid(db, es) && r in db.settings
    ensures r in ApplyAll(db, es).settings
    ensures ApplyAll(db, es).settings[r].timeoutHours
            == if LastTimeout(es, r).Some? then LastTimeout(es, r).value else db.settings[r].timeoutHours
    decreases |es|
  {
    if es != [] {
      TimeoutStep(db, es[0], r);
      TimeoutSince(Apply(db, es[0]), es[1..], r);
    }
  }

  function UpToDate<T>(sent: Option<T>, kept: T): T {
    if sent.Some? then sent.value else kept
  }

  /** What has become of the reason for which session s was selected at `now`.  It is still idle
      for as long as the scan asked exactly when its last activity since, if there is any,
      lies before the limit of the scan; and it would still be selected exactly when its
      activity, brought up to date, lies before the limit of the timeout, brought up to date. */
  ghost predicate Judged(db: Db, db': Db, es: seq<Effect>, s: Id, now: Time)
    requires Valid(db, es) && Stale(db, s, now) && s in db'.sessions
  {
    var r, since := db.sessions[s].restaurant, LastTouch(db, es, s);
    && (db'.sessions[s].lastActivity < IdleLimit(db, s, now)
        <==> (since.Some? ==> since.value < IdleLimit(db, s, now)))
    && (Stale(db', s, now) <==>
          UpToDate(since, db.sessions[s].lastActivity)
          < now - UpToDate(LastTimeout(es, r), db.settings[r].timeoutHours) * HOUR)
  }

  /** A sweep abandons only sessions its scan found stale; its compare-and-swap looks at the
      status alone, so whether one still is depends on what is committed in between. */
  lemma SweptWasStale(w: World, t: Id, scan: Action, acts: seq<Action>)
    requires Coherent(w) && Enabled(w, scan) && Scans(w, t, scan) && Schedule(Step(w, scan), acts)
    requires t in Outcome(Step(w, scan), acts).txns && Outcome(Step(w, scan), acts).txns[t].pc.SweepCommit?
    ensures var now := Awake(w, w.txns[t]).began;
            var w1 := Step(w, scan);
            var w2 := Outcome(w1, acts);
            var s := w2.txns[t].pc.sid;
            && EffectAt(w2.txns[t]) == [Abandon(s, w2.txns[t].began)] && Stale(w.db, s, now) && w1.db == w.db
            && Valid(w1.db, Commits(w1, acts)) && s in w2.db.sessions
            && Judged(w1.db, w2.db, Commits(w1, acts), s, now)
  {
    hide Coherent, Next, Step, Awake, Stale, Judged, Scans;
    var w1 := Step(w, scan);
    SweptWasScanned(w, t, scan, acts);
    StillStale(w1.db, Commits(w1, acts), Outcome(w1, acts).txns[t].pc.sid, Awake(w, w.txns[t]).began);
  }

  lemma SweptWasScanned(w: World, t: Id, scan: Action, acts: seq<Action>)
    requires Coherent(w) && Enabled(w, scan) && Scans(w, t, scan) && Schedule(Step(w, scan), acts)
    requires t in Outcome(Step(w, scan), acts).txns && Outcome(Step(w, scan), acts).txns[t].pc.SweepCommit?
    ensures t in w.txns && Step(w, scan).db == w.db
    ensures var w1 := Step(w, scan);
            var w2 := Outcome(w1, acts);
            var s := w2.txns[t].pc.sid;
            && Stale(w.db, s, Awake(w, w.txns[t]).began) && Is(w2.db, s, Open)
            && Valid(w1.db, Commits(w1, acts)) && w2.db == ApplyAll(w1.db, Commits(w1, acts))
  {
    hide Coherent, Next, Step, Sweeps, Awake, Stale;
    var w1, found := Step(w, scan), StaleAt(w.db, Awake(w, w.txns[t]).began);
    ScanFinds(w, t, scan);
    StepRefines(w, scan);
    SweepsAll(w1, t, acts, found);
    ScheduleRefines(w1, acts);
    var w2 := Outcome(w1, acts);
    InvPoised(w2, t);
    SweptIsOpen(w2.db, w2.txns[t], found);
  }

  lemma StillStale(db: Db, es: seq<Effect>, s: Id, now: Time)
    requires Valid(db, es) && Stale(db, s, now) && Is(ApplyAll(db, es), s, Open)
    ensures Judged(db, ApplyAll(db, es), es, s, now)
  {
    hide ApplyAll, LastTouch, LastTimeout;
    FutureAll(db, es);
    ActivitySince(db, es, s);
    TimeoutSince(db, es, db.sessions[s].restaurant);
    assert SessionAfter(db.sessions[s], ApplyAll(db, es).sessions[s]);
  }

  lemma SweptIsOpen(db: Db, x: Txn, scanned: set<Id>)
    requires Ok(db, x) && x.pc.SweepCommit? && Sweeps(x.pc, scanned)
    ensures Is(db, x.pc.sid, Open) && x.pc.sid in scanned
  {
    hide LiveOf, CancelledRows, DismissedRows;
  }
}
