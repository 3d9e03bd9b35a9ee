/** The Redis lock around the sweep: SET NX EX to take it, GET and then DEL to give it back.
    Every process runs one sweep at a time; the value of the key is the process's own id. */
module SweepLock {
  import opened Schema

  datatype Lease = Lease(holder: Id, expires: Time)

  /** A process: outside, sweeping, or between the GET that returned its id and the DEL. */
  datatype Stage = Outside | Inside(got: Time) | Leaving(got: Time)

  datatype Keeper = Keeper(clock: Time, key: Option<Lease>, stages: map<Id, Stage>)

  datatype LockMove = Pass(now: Time) | TryEnter(p: Id) | AskHolder(p: Id) | Delete(p: Id) | Crash(p: Id)

  /** Redis drops a key at its expiry. */
  function KeyAt(k: Keeper): Option<Lease> {
    if k.key.Some? && k.clock < k.key.value.expires then k.key else None
  }

  predicate Active(k: Keeper, p: Id) {
    p in k.stages && k.stages[p] != Outside
  }

  predicate Possible(k: Keeper, m: LockMove) {
    match m
    case Pass(now) => k.clock <= now
    case TryEnter(p) => p in k.stages && k.stages[p] == Outside
    case AskHolder(p) => p in k.stages && k.stages[p].Inside?
    case Delete(p) => p in k.stages && k.stages[p].Leaving?
    case Crash(p) => p in k.stages
  }

  function Do(k: Keeper, m: LockMove, ttl: Time): Keeper
    requires Possible(k, m)
  {
    match m
    case Pass(now) => k.(clock := now)
    case TryEnter(p) =>
      if KeyAt(k).Some? then k
      else k.(key := Some(Lease(p, k.clock + ttl)), stages := k.stages[p := Inside(k.clock)])
    case AskHolder(p) =>
      k.(stages := k.stages[p := if KeyAt(k).Some? && KeyAt(k).value.holder == p then Leaving(k.stages[p].got)
          else Outside])
    case Delete(p) => k.(key := None, stages := k.stages[p := Outside])
    case Crash(p) => k.(stages := k.stages[p := Outside])
  }

  /** Every process that is inside still has its lease: it will have left before the TTL ends. */
  ghost predicate Prompt(k: Keeper, ttl: Time) {
    forall p | Active(k, p) :: k.clock < k.stages[p].got + ttl
  }

  ghost predicate Run(k: Keeper, ms: seq<LockMove>, ttl: Time)
    decreases |ms|
  {
    ms == [] || (Possible(k, ms[0]) && Run(Do(k, ms[0], ttl), ms[1..], ttl))
  }

  ghost function End(k: Keeper, ms: seq<LockMove>, ttl: Time): Keeper
    requires Run(k, ms, ttl)
    decreases |ms|
  {
    if ms == [] then k else End(Do(k, ms[0], ttl), ms[1..], ttl)
  }

  /** The bound holds in every state of the run. */
  ghost predicate AlwaysPrompt(k: Keeper, ms: seq<LockMove>, ttl: Time)
    requires Run(k, ms, ttl)
    decreases |ms|
  {
    Prompt(k, ttl) && (ms == [] || AlwaysPrompt(Do(k, ms[0], ttl), ms[1..], ttl))
  }

  /** Whoever is inside is the holder of the key, on the lease it took. */
  ghost predicate Holds(k: Keeper, ttl: Time) {
    forall p | Active(k, p) :: k.key == Some(Lease(p, k.stages[p].got + ttl))
  }

  lemma HoldsStep(k: Keeper, m: LockMove, ttl: Time)
    requires Possible(k, m) && Holds(k, ttl) && Prompt(k, ttl)
    ensures Holds(Do(k, m, ttl), ttl)
  {
    var k' := Do(k, m, ttl);
    forall p | Active(k', p) ensures k'.key == Some(Lease(p, k'.stages[p].got + ttl)) {
      assert Active(k, p) || m == TryEnter(p);
    }
  }

  /** Mutual exclusion: if every holder leaves, release included, before its TTL ends, at most
      one process is inside in every state. */
  lemma {:induction false} OneInside(k: Keeper, ms: seq<LockMove>, ttl: Time, p: Id, q: Id)
    requires Holds(k, ttl) && Run(k, ms, ttl) && AlwaysPrompt(k, ms, ttl)
    requires Active(End(k, ms, ttl), p) && Active(End(k, ms, ttl), q)
    ensures p == q && Holds(End(k, ms, ttl), ttl)
    decreases |ms|
  {
    if ms != [] {
      HoldsStep(k, ms[0], ttl);
      OneInside(Do(k, ms[0], ttl), ms[1..], ttl, p, q);
    }
  }

  /** ... and a release deletes the releaser's own lock, so the GET-then-DEL is safe too. */
  lemma {:induction false} DeletesOwn(k: Keeper, ms: seq<LockMove>, ttl: Time, p: Id)
    requires Holds(k, ttl) && Run(k, ms, ttl) && AlwaysPrompt(k, ms, ttl) && Possible(End(k, ms, ttl), Delete(p))
    ensures KeyAt(End(k, ms, ttl)).Some? && KeyAt(End(k, ms, ttl)).value.holder == p
    decreases |ms|
  {
    if ms == [] {
      assert Active(k, p);
    } else {
      HoldsStep(k, ms[0], ttl);
      DeletesOwn(Do(k, ms[0], ttl), ms[1..], ttl, p);
    }
  }

  /** What a move does to the key: set it to a lease, remove it, or nothing. */
  function KeySet(k: Keeper, m: LockMove, ttl: Time): Option<Option<Lease>>
    requires Possible(k, m)
  {
    match m
    case TryEnter(p) => if KeyAt(k).Some? then None else Some(Some(Lease(p, k.clock + ttl)))
    case Delete(_) => Some(None)
    case _ => None
  }

  /** The last of them in a run. */
  ghost function LastKey(k: Keeper, ms: seq<LockMove>, ttl: Time): Option<Option<Lease>>
    requires Run(k, ms, ttl)
    decreases |ms|
  {
    if ms == [] then None
    else
      var later := LastKey(Do(k, ms[0], ttl), ms[1..], ttl);
      if later.Some? then later else KeySet(k, ms[0], ttl)
  }

  predicate IsBy(m: LockMove, p: Id) {
    match m
    case Pass(_) => false
    case TryEnter(q) => q == p
    case AskHolder(q) => q == p
    case Delete(q) => q == p
    case Crash(q) => q == p
  }

  lemma {:induction false} KeySince(k: Keeper, ms: seq<LockMove>, ttl: Time)
    requires Run(k, ms, ttl)
    ensures End(k, ms, ttl).key == if LastKey(k, ms, ttl).Some? then LastKey(k, ms, ttl).value else k.key
    decreases |ms|
  {
    if ms != [] {
      KeySince(Do(k, ms[0], ttl), ms[1..], ttl);
    }
  }

  lemma {:induction false} OthersEnter(k: Keeper, ms: seq<LockMove>, ttl: Time, p: Id)
    requires Run(k, ms, ttl) && forall m | m in ms :: !IsBy(m, p)
    ensures LastKey(k, ms, ttl).Some? && LastKey(k, ms, ttl).value.Some? ==> LastKey(k, ms, ttl).value.value.holder != p
    decreases |ms|
  {
    if ms != [] {
      assert ms[0] in ms;
      OthersEnter(Do(k, ms[0], ttl), ms[1..], ttl, p);
    }
  }

  /** A lease that no one releases is there until it expires. */
  lemma {:induction false} KeptUntilExpiry(k: Keeper, ms: seq<LockMove>, ttl: Time)
    requires Run(k, ms, ttl) && k.key.Some? && forall m | m in ms :: !m.Delete?
    ensures k.clock <= End(k, ms, ttl).clock
    ensures End(k, ms, ttl).clock < k.key.value.expires ==> End(k, ms, ttl).key == k.key
    decreases |ms|
  {
    if ms != [] {
      assert ms[0] in ms;
      var k1 := Do(k, ms[0], ttl);
      if k1.key == k.key {
        KeptUntilExpiry(k1, ms[1..], ttl);
      } else {
        ClockGrows(k1, ms[1..], ttl);
      }
    }
  }

  lemma {:induction false} ClockGrows(k: Keeper, ms: seq<LockMove>, ttl: Time)
    requires Run(k, ms, ttl)
    ensures k.clock <= End(k, ms, ttl).clock
    decreases |ms|
  {
    if ms != [] {
      ClockGrows(Do(k, ms[0], ttl), ms[1..], ttl);
    }
  }

  /** The GET-then-DEL, exactly.  After p's GET has returned its own id, its DEL removes
      another's lock precisely when the last entry or release since is an entry whose lease
      still runs, and its own precisely when there is neither and its lease still runs.
      Without a release by others in between, another's lock is hit only once p's lease has
      run out. */
  lemma DeletesWhose(k: Keeper, ms: seq<LockMove>, ttl: Time, p: Id)
    requires KeyAt(k).Some? && KeyAt(k).value.holder == p && Possible(k, AskHolder(p))
    requires Run(Do(k, AskHolder(p), ttl), ms, ttl) && forall m | m in ms :: !IsBy(m, p)
    ensures var k1 := Do(k, AskHolder(p), ttl);
            var now := End(k1, ms, ttl);
            var last := LastKey(k1, ms, ttl);
            var foreign := KeyAt(now).Some? && KeyAt(now).value.holder != p;
            && (foreign <==> last.Some? && last.value.Some? && now.clock < last.value.value.expires)
            && (KeyAt(now) == KeyAt(k) <==> last.None? && now.clock < k.key.value.expires)
            && ((forall m | m in ms :: !m.Delete?) && foreign ==> k.key.value.expires <= now.clock)
  {
    var k1 := Do(k, AskHolder(p), ttl);
    KeySince(k1, ms, ttl);
    OthersEnter(k1, ms, ttl, p);
    if forall m | m in ms :: !m.Delete? { KeptUntilExpiry(k1, ms, ttl); }
  }

  /** One process and the key: it enters exactly when there is no key or the key has expired, and
      then holds it for the TTL; giving back, it goes on to delete exactly when the key it reads
      is its own; the deletion itself looks at nothing. */
  lemma LockMoves(k: Keeper, ttl: Time, p: Id)
    ensures Possible(k, TryEnter(p)) ==>
              Do(k, TryEnter(p), ttl)
              == if k.key.None? || k.key.value.expires <= k.clock
                 then Keeper(k.clock, Some(Lease(p, k.clock + ttl)), k.stages[p := Inside(k.clock)]) else k
    ensures Possible(k, AskHolder(p)) ==>
              Do(k, AskHolder(p), ttl).key == k.key
              && (Do(k, AskHolder(p), ttl).stages[p].Leaving?
                  <==> k.key.Some? && k.key.value.holder == p && k.clock < k.key.value.expires)
    ensures Possible(k, Delete(p)) ==> Do(k, Delete(p), ttl) == Keeper(k.clock, None, k.stages[p := Outside])
  {
  }

  /** While p is inside, another process can enter exactly when p's lease has run out. */
  lemma EntersIffExpired(k: Keeper, ttl: Time, p: Id, q: Id)
    requires Holds(k, ttl) && Active(k, p) && Possible(k, TryEnter(q)) && p != q
    ensures Active(Do(k, TryEnter(q), ttl), q) && Active(Do(k, TryEnter(q), ttl), p)
            <==> k.stages[p].got + ttl <= k.clock
  {
  }

  /** Without the bound: two processes inside, and one of them deletes the other's lock. */
  lemma LateRelease(ttl: Time) returns (ms: seq<LockMove>, k: Keeper)
    requires ttl > 0
    ensures k == Keeper(0, None, map[0 := Outside, 1 := Outside]) && Holds(k, ttl) && Run(k, ms, ttl)
    ensures Active(End(k, ms, ttl), 0) && Active(End(k, ms, ttl), 1)
    ensures Possible(End(k, ms, ttl), Delete(0)) && KeyAt(End(k, ms, ttl)) == Some(Lease(1, 2 * ttl))
  {
    k := Keeper(0, None, map[0 := Outside, 1 := Outside]);
    var k1 := Do(k, TryEnter(0), ttl);
    var k2 := Do(k1, AskHolder(0), ttl);
    var k3 := Do(k2, Pass(ttl), ttl);
    var k4 := Do(k3, TryEnter(1), ttl);
    ms := [TryEnter(0), AskHolder(0), Pass(ttl), TryEnter(1)];
    assert ms[1..] == [AskHolder(0), Pass(ttl), TryEnter(1)];
    assert ms[1..][1..] == [Pass(ttl), TryEnter(1)];
    assert ms[1..][1..][1..] == [TryEnter(1)];
    assert Run(k3, [TryEnter(1)], ttl) && End(k3, [TryEnter(1)], ttl) == k4;
    assert Run(k2, ms[1..][1..], ttl) && End(k2, ms[1..][1..], ttl) == k4;
    assert Run(k1, ms[1..], ttl) && End(k1, ms[1..], ttl) == k4;
  }
}
