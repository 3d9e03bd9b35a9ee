/** The sweep lock and the database together: each process that has taken the lock runs one
    sweep and gives the lock back when the sweep is over.  If every holder leaves before its
    TTL ends, sweep transactions do not overlap and every restore comes in time. */
module LockedSweeps {
  import opened Schema
  import opened Effects
  import opened Interleaving
  import opened Isolation
  import opened Races
  import opened RestoreRaces
  import L = SweepLock
  import RunLaws
  import Witnesses

  /** The lock server, the database, and for every sweep transaction the process it belongs to. */
  datatype Joint = Joint(lock: L.Keeper, world: World, runner: map<Id, Id>)

  datatype Occurrence =
    | Pass(now: Time)
    | Request(a: Action)
    | Enter(p: Id)
    | Begin(p: Id, t: Id)
    | SweepStep(p: Id, a: Action)
    | AskHolder(p: Id)
    | Release(p: Id)
    | Crash(p: Id)

  predicate SweepPc(pc: Pc) {
    pc.SweepScan? || pc.SweepNext? || Abandoning(pc) || pc.SweepDone?
  }

  /** A step of a transaction that is no sweep. */
  predicate Ordinary(w: World, a: Action) {
    match a
    case Tick(_) => false
    case Spawn(_, pc) => !SweepPc(pc)
    case Issue(t) => t in w.txns && !SweepPc(w.txns[t].pc)
    case Edit(_) => true
    case Run(t, _) => t in w.txns && !SweepPc(w.txns[t].pc)
    case Abort(t, _) => t in w.txns && !SweepPc(w.txns[t].pc)
  }

  predicate IsInside(k: L.Keeper, p: Id) {
    p in k.stages && k.stages[p].Inside?
  }

  predicate Runs(y: Joint, p: Id, t: Id) {
    t in y.runner && y.runner[t] == p
  }

  /** A process sweeps inside the critical section only, one sweep at a time, and leaves it
      when its sweep is over; a process that crashes has what it had in flight rolled back. */
  ghost predicate May(y: Joint, ev: Occurrence) {
    match ev
    case Pass(now) => y.lock.clock <= now && y.world.clock <= now
    case Request(a) => Ordinary(y.world, a) && Enabled(y.world, a)
    case Enter(p) => L.Possible(y.lock, L.TryEnter(p))
    case Begin(p, t) => IsInside(y.lock, p) && t !in y.world.txns && t !in y.runner && forall u :: !Runs(y, p, u)
    case SweepStep(p, a) =>
      (a.Issue? || a.Run? || a.Abort?) && Runs(y, p, a.t) && IsInside(y.lock, p) && Enabled(y.world, a)
    case AskHolder(p) =>
      && L.Possible(y.lock, L.AskHolder(p))
      && forall t :: Runs(y, p, t) ==> t in y.world.txns && Finished(y.world.txns[t].pc)
    case Release(p) => L.Possible(y.lock, L.Delete(p))
    case Crash(p) =>
      L.Possible(y.lock, L.Crash(p)) && forall t :: Runs(y, p, t) ==> t in y.world.txns && y.world.txns[t].idle
  }

  function Without(runner: map<Id, Id>, p: Id): map<Id, Id> {
    map t | t in runner && runner[t] != p :: runner[t]
  }

  ghost function Perform(y: Joint, ev: Occurrence, ttl: Time): Joint
    requires May(y, ev)
  {
    match ev
    case Pass(now) => y.(lock := L.Do(y.lock, L.Pass(now), ttl), world := Step(y.world, Tick(now)))
    case Request(a) => y.(world := Step(y.world, a))
    case Enter(p) => y.(lock := L.Do(y.lock, L.TryEnter(p), ttl))
    case Begin(p, t) => y.(world := Step(y.world, Spawn(t, SweepScan)), runner := y.runner[t := p])
    case SweepStep(_, a) => y.(world := Step(y.world, a))
    case AskHolder(p) => y.(lock := L.Do(y.lock, L.AskHolder(p), ttl), runner := Without(y.runner, p))
    case Release(p) => y.(lock := L.Do(y.lock, L.Delete(p), ttl))
    case Crash(p) => y.(lock := L.Do(y.lock, L.Crash(p), ttl), runner := Without(y.runner, p))
  }

  ghost predicate Unfolds(y: Joint, evs: seq<Occurrence>, ttl: Time)
    decreases |evs|
  {
    evs == [] || (May(y, evs[0]) && Unfolds(Perform(y, evs[0], ttl), evs[1..], ttl))
  }

  ghost function Final(y: Joint, evs: seq<Occurrence>, ttl: Time): Joint
    requires Unfolds(y, evs, ttl)
    decreases |evs|
  {
    if evs == [] then y else Final(Perform(y, evs[0], ttl), evs[1..], ttl)
  }

  /** Every holder leaves before its TTL ends, in every state. */
  ghost predicate PromptThroughout(y: Joint, evs: seq<Occurrence>, ttl: Time)
    requires Unfolds(y, evs, ttl)
    decreases |evs|
  {
    L.Prompt(y.lock, ttl) && (evs == [] || PromptThroughout(Perform(y, evs[0], ttl), evs[1..], ttl))
  }

  /** What the database sees of it. */
  function ActionOf(ev: Occurrence): seq<Action> {
    match ev
    case Pass(now) => [Tick(now)]
    case Request(a) => [a]
    case Begin(_, t) => [Spawn(t, SweepScan)]
    case SweepStep(_, a) => [a]
    case _ => []
  }

  function Actions(evs: seq<Occurrence>): seq<Action> {
    if evs == [] then [] else ActionOf(evs[0]) + Actions(evs[1..])
  }

  // ----- The invariant -----

  /** A sweep transaction in flight belongs to a process inside, one to each at most. */
  ghost predicate Owned(y: Joint, ttl: Time) {
    && L.Holds(y.lock, ttl)
    && (forall t | t in y.world.txns && Sweeping(y.world.txns[t]) :: t in y.runner)
    && (forall t | t in y.runner :: IsInside(y.lock, y.runner[t]))
    && forall a, b | a in y.runner && b in y.runner && y.runner[a] == y.runner[b] :: a == b
  }

  lemma OwnedStart(db: Db, clock: Time, processes: set<Id>, ttl: Time)
    ensures Owned(Joint(L.Keeper(clock, None, map p | p in processes :: L.Outside), Witnesses.Start(db, clock), map[]),
                  ttl)
  {
  }

  /** Only the holder of the lock sweeps. */
  lemma OwnedAlone(y: Joint, ttl: Time)
    requires Owned(y, ttl)
    ensures OneSweep(y.world)
  {
    forall a, b | a in y.world.txns && b in y.world.txns && Sweeping(y.world.txns[a]) && Sweeping(y.world.txns[b])
      ensures a == b
    {
      assert L.Active(y.lock, y.runner[a]) && L.Active(y.lock, y.runner[b]);
    }
  }

  /** No statement of another kind of transaction begins a sweep. */
  lemma NoSweepNext(w: World, t: Id, pick: Id)
    requires t in w.txns && !SweepPc(w.txns[t].pc) && Next(w, t, pick) != Blocked
    ensures !SweepPc(Next(w, t, pick).next.pc)
  {
    hide NextOpen, NextOrder, NextItem, NextCall, NextAck, NextRestore, NextClose, NextSweep;
    var x := Awake(w, w.txns[t]);
    NoSweepFromRequest(w, t, x, pick);
    NoSweepFromEnding(w, t, x, pick);
  }

  lemma NoSweepFromRequest(w: World, t: Id, x: Txn, pick: Id)
    ensures var st := NextOpen(w, t, x, pick); st.Blocked? || !SweepPc(st.next.pc)
    ensures var st := NextOrder(w, t, x); st.Blocked? || !SweepPc(st.next.pc)
    ensures var st := NextItem(w, t, x); st.Blocked? || !SweepPc(st.next.pc)
    ensures var st := NextCall(w, t, x, pick); st.Blocked? || !SweepPc(st.next.pc)
    ensures var st := NextAck(w, t, x); st.Blocked? || !SweepPc(st.next.pc)
  {
    hide FindOpen, IndexBusy, Free, OpResult, HasSession, InSession;
  }

  lemma NoSweepFromEnding(w: World, t: Id, x: Txn, pick: Id)
    ensures var st := NextRestore(w, t, x); st.Blocked? || !SweepPc(st.next.pc)
    ensures var st := NextClose(w, t, x, pick); st.Blocked? || !SweepPc(st.next.pc)
  {
    hide FindOpen, IndexBusy, SessionFree, Free, LiveOf, IsPendingOf, PendingOf;
  }

  lemma OrdinaryStep(w: World, a: Action, t: Id)
    requires Enabled(w, a) && Ordinary(w, a) && t in Step(w, a).txns && Sweeping(Step(w, a).txns[t])
    ensures t in w.txns && Sweeping(w.txns[t])
  {
    hide Next, With;
    match a
    case Run(u, pick) =>
      NoSweepNext(w, u, pick);
      if u != t && t in w.txns { OthersPc(w, u, pick, t); }
    case _ =>
  }

  lemma SweepStepOthers(w: World, a: Action, t: Id)
    requires Enabled(w, a) && (a.Issue? || a.Run? || a.Abort?) && t in Step(w, a).txns && t != a.t
    ensures t in w.txns && Step(w, a).txns[t] == w.txns[t]
  {
    hide Next, With;
  }

  lemma OwnedStep(y: Joint, ev: Occurrence, ttl: Time)
    requires Owned(y, ttl) && May(y, ev) && L.Prompt(y.lock, ttl)
    ensures Owned(Perform(y, ev, ttl), ttl)
  {
    hide Next, Sweeping, Enabled, Step, L.Holds, L.Prompt;
    var y' := Perform(y, ev, ttl);
    match ev
    case Pass(now) =>
      L.HoldsStep(y.lock, L.Pass(now), ttl);
      TickSweeps(y.world, now);
    case Request(a) =>
      forall t | t in y'.world.txns && Sweeping(y'.world.txns[t]) ensures t in y.runner {
        OrdinaryStep(y.world, a, t);
      }
    case Enter(p) => L.HoldsStep(y.lock, L.TryEnter(p), ttl);
    case Begin(p, t) => BeginOwned(y, p, t, ttl);
    case SweepStep(p, a) =>
      forall t | t in y'.world.txns && Sweeping(y'.world.txns[t]) ensures t in y.runner {
        if t != a.t { SweepStepOthers(y.world, a, t); }
      }
    case AskHolder(p) =>
      L.HoldsStep(y.lock, L.AskHolder(p), ttl);
      forall t | Runs(y, p, t) ensures !Sweeping(y.world.txns[t]) { NotSweeping(y.world.txns[t]); }
    case Release(p) => L.HoldsStep(y.lock, L.Delete(p), ttl);
    case Crash(p) =>
      L.HoldsStep(y.lock, L.Crash(p), ttl);
      forall t | Runs(y, p, t) ensures !Sweeping(y.world.txns[t]) { NotSweeping(y.world.txns[t]); }
  }

  lemma TickSweeps(w: World, now: Time)
    requires Enabled(w, Tick(now))
    ensures Step(w, Tick(now)).txns == w.txns
  {
  }

  lemma NotSweeping(x: Txn)
    requires Finished(x.pc) || x.idle
    ensures !Sweeping(x)
  {
  }

  lemma BeginOwned(y: Joint, p: Id, t: Id, ttl: Time)
    requires Owned(y, ttl) && May(y, Begin(p, t))
    ensures Owned(Perform(y, Begin(p, t), ttl), ttl)
  {
    hide L.Holds;
    forall u | u in y.runner ensures y.runner[u] != p {
      assert !Runs(y, p, u);
    }
  }

  // ----- What the lock gives -----

  /** The database sees a schedule, and while every holder of the lock leaves before its TTL
      ends no two sweep transactions overlap in it. */
  lemma {:induction false} LockedSweepsAlone(y: Joint, evs: seq<Occurrence>, ttl: Time)
    requires Owned(y, ttl) && Unfolds(y, evs, ttl) && PromptThroughout(y, evs, ttl)
    ensures Schedule(y.world, Actions(evs)) && Outcome(y.world, Actions(evs)) == Final(y, evs, ttl).world
    ensures SweepsAlone(y.world, Actions(evs)) && Owned(Final(y, evs, ttl), ttl)
    decreases |evs|
  {
    hide Owned, OneSweep, Enabled, Step, May, L.Prompt;
    OwnedAlone(y, ttl);
    if evs != [] {
      var ev, rest := evs[0], Actions(evs[1..]);
      OwnedStep(y, ev, ttl);
      LockedSweepsAlone(Perform(y, ev, ttl), evs[1..], ttl);
      SeenByDatabase(y, ev, ttl);
      if ActionOf(ev) == [] {
        assert Actions(evs) == rest;
      } else {
        var a := ActionOf(ev)[0];
        assert Actions(evs) == [a] + rest && ([a] + rest)[1..] == rest;
      }
    }
  }

  lemma SeenByDatabase(y: Joint, ev: Occurrence, ttl: Time)
    requires May(y, ev)
    ensures if ActionOf(ev) == [] then Perform(y, ev, ttl).world == y.world
            else |ActionOf(ev)| == 1 && Enabled(y.world, ActionOf(ev)[0])
                 && Perform(y, ev, ttl).world == Step(y.world, ActionOf(ev)[0])
  {
    hide Next, Step;
  }

  /** ... so nothing takes an abandoned session up again more than 24 hours after the stamp
      in force. */
  lemma LockedInTime(y: Joint, evs: seq<Occurrence>, ttl: Time)
    requires Owned(y, ttl) && Unfolds(y, evs, ttl) && PromptThroughout(y, evs, ttl)
    requires Coherent(y.world) && StampsOk(y.world) && AllOnTime(y.world)
    ensures Schedule(y.world, Actions(evs)) && Outcome(y.world, Actions(evs)) == Final(y, evs, ttl).world
    ensures var es := Commits(y.world, Actions(evs)); Valid(y.world.db, es) && RunLaws.AllInTime(y.world.db, es)
  {
    LockedSweepsAlone(y, evs, ttl);
    InTimeAlong(y.world, Actions(evs));
  }
}
