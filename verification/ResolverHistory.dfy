/** The resolver told from the steps of a run alone: what the cache holds, and
    where every call stands and what it has come to. */
module ResolverHistory {
  import opened Prelude
  import opened Resolver

  type Steps = seq<Step>

  // ------------------------------------------------------ from the steps

  /** The hash a call was made for. */
  function Wanted(steps: Steps, t: TaskId): Hash
    decreases |steps|
  {
    if steps == [] then ""
    else
      var a := steps[|steps| - 1];
      if a.Spawn? && a.t == t then a.hash else Wanted(steps[..|steps| - 1], t)
  }

  /** The bytes a call's last fetch returned. */
  function Returned(steps: Steps, t: TaskId): Bytes
    decreases |steps|
  {
    if steps == [] then []
    else
      var a := steps[|steps| - 1];
      if a.By? && a.t == t && a.act.FetchReturns? then a.act.bytes else Returned(steps[..|steps| - 1], t)
  }

  /** What the cache holds: what was put or stored under its hash and not removed since. */
  function Cached(hash: Bytes -> Hash, steps: Steps): map<Hash, Bytes>
    decreases |steps|
  {
    if steps == [] then map[]
    else
      var h, a := steps[..|steps| - 1], steps[|steps| - 1];
      match a
      case Put(bytes) => Cached(hash, h)[hash(bytes) := bytes]
      case Remove(x) => Cached(hash, h) - {x}
      case By(t, Store) => Cached(hash, h)[hash(Returned(h, t)) := Returned(h, t)]
      case _ => Cached(hash, h)
  }

  /** What a call's step decides: a hit, a good fetch once it is stored, a
      failure, a cancellation; None if it decides nothing. */
  function Decides(hash: Bytes -> Hash, h: Steps, t: TaskId, act: Act): Option<Outcome> {
    var x := Wanted(h, t);
    match act
    case Look => if x in Cached(hash, h) then Some(Ok(Cached(hash, h)[x], Hit)) else None
    case FetchReturns(bytes) => if hash(bytes) == x then None else Some(Failed)
    case Store => Some(Ok(Returned(h, t), Fetched))
    case LookFails => Some(Failed)
    case FetchFails => Some(Failed)
    case StoreFails => Some(Failed)
    case Cancel => Some(Cancelled)
    case _ => None
  }

  /** What a call has come to. */
  function Verdict(hash: Bytes -> Hash, steps: Steps, t: TaskId): Option<Outcome>
    decreases |steps|
  {
    if steps == [] then None
    else
      var h, a := steps[..|steps| - 1], steps[|steps| - 1];
      if a.Spawn? && a.t == t then None
      else if a.By? && a.t == t && Decides(hash, h, t, a.act).Some? then Decides(hash, h, t, a.act)
      else Verdict(hash, h, t)
  }

  /** Has the call a clone of a lock: entered, and not yet dropped? */
  predicate HasLock(steps: Steps, t: TaskId)
    decreases |steps|
  {
    steps != [] &&
    var h, a := steps[..|steps| - 1], steps[|steps| - 1];
    if a.By? && a.t == t && a.act.Enter? then true
    else if (a.By? && a.t == t && a.act.Drop?) || (a.Spawn? && a.t == t) then false
    else HasLock(h, t)
  }

  /** Where a call can be. */
  datatype Place = Nowhere | Begun | Gone | Queueing | In | Getting | Got | Out1 | Out2 | Out3 | Ended

  function PlaceOf(p: Phase): Place {
    match p
    case Started => Begun
    case Missed => Gone
    case Waiting(_) => Queueing
    case Holding(_) => In
    case Fetching(_) => Getting
    case Verified(_, _) => Got
    case Leaving(_, _) => Out1
    case Pruning(_, _) => Out2
    case Dropping(_, _) => Out3
    case Done(_) => Ended
  }

  /** Where a call's step takes it. Having decided, a call without a lock is
      done; one that was waiting has only the map to tidy; one inside leaves. */
  function Goes(hash: Bytes -> Hash, h: Steps, t: TaskId, act: Act): Place
    decreases |h|, 1
  {
    match act
    case Enter => Queueing
    case Acquire => In
    case Release => Out2
    case Prune => Out3
    case Drop => Ended
    case Cancel => if Stands(hash, h, t) == Queueing then Out2 else Out1
    case _ =>
      if Decides(hash, h, t, act).Some? then (if HasLock(h, t) then Out1 else Ended)
      else if act.Look? then (if HasLock(h, t) then Getting else Gone)
      else Got
  }

  /** Where a call stands. */
  function Stands(hash: Bytes -> Hash, steps: Steps, t: TaskId): Place
    decreases |steps|, 0
  {
    if steps == [] then Nowhere
    else
      var h, a := steps[..|steps| - 1], steps[|steps| - 1];
      if a.Spawn? && a.t == t then Begun
      else if a.By? && a.t == t then Goes(hash, h, t, a.act)
      else Stands(hash, h, t)
  }

  // -------------------------------------------------- the resolver does

  function Locked(p: Phase): bool {
    !p.Started? && !p.Missed? && !p.Done?
  }

  ghost predicate TaskTells(hash: Bytes -> Hash, h: Steps, t: TaskId, task: Task) {
    && task.hash == Wanted(h, t) && PlaceOf(task.phase) == Stands(hash, h, t)
    && OutcomeOf(task.phase) == Verdict(hash, h, t) && (Locked(task.phase) <==> HasLock(h, t))
    && (task.phase.Verified? ==> task.phase.bytes == Returned(h, t))
  }

  ghost predicate Tells(hash: Bytes -> Hash, h: Steps, s: State) {
    && s.cache == Cached(hash, h)
    && forall t :: t in s.tasks ==> TaskTells(hash, h, t, s.tasks[t])
  }

  // ------------------------------------------------------ one more step

  predicate IsOwn(a: Step, t: TaskId) {
    (a.By? || a.Spawn?) && a.t == t
  }

  /** A step that is not a call's own leaves it where it was. */
  lemma {:induction false} NotOwn(hash: Bytes -> Hash, h: Steps, a: Step, t: TaskId)
    requires !IsOwn(a, t)
    ensures Wanted(h + [a], t) == Wanted(h, t) && Returned(h + [a], t) == Returned(h, t)
    ensures Verdict(hash, h + [a], t) == Verdict(hash, h, t) && (HasLock(h + [a], t) <==> HasLock(h, t))
    ensures Stands(hash, h + [a], t) == Stands(hash, h, t)
  {
    assert (h + [a])[..|h|] == h;
  }

  lemma {:induction false} OwnAct(hash: Bytes -> Hash, h: Steps, t: TaskId, act: Act)
    ensures var x := h + [By(t, act)];
            && Wanted(x, t) == Wanted(h, t)
            && Returned(x, t) == (if act.FetchReturns? then act.bytes else Returned(h, t))
            && Verdict(hash, x, t) == (if Decides(hash, h, t, act).Some? then Decides(hash, h, t, act)
                else Verdict(hash, h, t))
            && (HasLock(x, t) <==> act.Enter? || (!act.Drop? && HasLock(h, t)))
            && Stands(hash, x, t) == Goes(hash, h, t, act)
  {
    assert (h + [By(t, act)])[..|h|] == h;
  }

  lemma {:induction false} JustSpawned(hash: Bytes -> Hash, h: Steps, t: TaskId, x: Hash)
    ensures var y := h + [Spawn(t, x)];
            Wanted(y, t) == x && Verdict(hash, y, t) == None && !HasLock(y, t) && Stands(hash, y, t) == Begun
  {
    assert (h + [Spawn(t, x)])[..|h|] == h;
  }

  lemma {:induction false} CacheMore(hash: Bytes -> Hash, h: Steps, a: Step)
    ensures Cached(hash, h + [a]) ==
            match a
            case Put(bytes) => Cached(hash, h)[hash(bytes) := bytes]
            case Remove(x) => Cached(hash, h) - {x}
            case By(t, Store) => Cached(hash, h)[hash(Returned(h, t)) := Returned(h, t)]
            case _ => Cached(hash, h)
  {
    assert (h + [a])[..|h|] == h;
  }

  predicate OfLock(act: Act) {
    act.Enter? || act.Acquire? || act.Release? || act.Prune? || act.Drop?
  }

  /** Only call t has moved, and the cache is as given. */
  ghost predicate Moved(s: State, s': State, t: TaskId, cache: map<Hash, Bytes>) {
    && t in s.tasks && s'.tasks.Keys == s.tasks.Keys && s'.tasks[t].hash == s.tasks[t].hash && s'.cache == cache
    && forall u :: u in s.tasks && u != t ==> s'.tasks[u] == s.tasks[u]
  }

  lemma {:induction false} MoveMoves(s: State, t: TaskId, p: Phase)
    requires t in s.tasks
    ensures Moved(s, Move(s, t, p), t, s.cache)
  {
  }

  lemma {:induction false} LockActDoes(hash: Bytes -> Hash, s: State, t: TaskId, act: Act)
    requires t in s.tasks && Ready(s, s.tasks[t].phase, act) && OfLock(act)
    ensures Moved(s, Act1(hash, s, t, act), t, s.cache)
  {
    var s' := Act1(hash, s, t, act);
    assert s'.tasks == s.tasks[t := s.tasks[t].(phase := s'.tasks[t].phase)] && s'.cache == s.cache;
    MoveMoves(s, t, s'.tasks[t].phase);
  }

  /** What an act does to the call, and to the cache. */
  lemma {:induction false} ActDoes(hash: Bytes -> Hash, s: State, t: TaskId, act: Act)
    requires t in s.tasks && Ready(s, s.tasks[t].phase, act)
    ensures Moved(s, Act1(hash, s, t, act), t,
                  if act.Store? then s.cache[hash(s.tasks[t].phase.bytes) := s.tasks[t].phase.bytes] else s.cache)
  {
    if OfLock(act) {
      LockActDoes(hash, s, t, act);
    } else {
      var s' := Act1(hash, s, t, act);
      assert s'.tasks == s.tasks[t := s.tasks[t].(phase := s'.tasks[t].phase)];
      MoveMoves(s, t, s'.tasks[t].phase);
    }
  }

  /** The call that acts. */
  lemma {:induction false} ActTells(hash: Bytes -> Hash, h: Steps, s: State, t: TaskId, act: Act)
    requires t in s.tasks && Ready(s, s.tasks[t].phase, act) && TaskTells(hash, h, t, s.tasks[t])
    requires s.cache == Cached(hash, h)
    ensures TaskTells(hash, h + [By(t, act)], t, Act1(hash, s, t, act).tasks[t])
  {
    OwnAct(hash, h, t, act);
    if OfLock(act) {
      LockActTells(hash, h, s, t, act);
    } else if act.Cancel? {
      CancelTells(hash, h, s, t);
    } else {
      DecidingActTells(hash, h, s, t, act);
    }
  }

  lemma {:induction false} LockActTells(hash: Bytes -> Hash, h: Steps, s: State, t: TaskId, act: Act)
    requires t in s.tasks && Ready(s, s.tasks[t].phase, act) && TaskTells(hash, h, t, s.tasks[t])
    requires OfLock(act)
    ensures TaskTells(hash, h + [By(t, act)], t, Act1(hash, s, t, act).tasks[t])
  {
    OwnAct(hash, h, t, act);
    LockActDoes(hash, s, t, act);
    PhaseAfter(hash, s, t, act);
  }

  /** Where the lock acts lead. */
  lemma {:induction false} PhaseAfter(hash: Bytes -> Hash, s: State, t: TaskId, act: Act)
    requires t in s.tasks && Ready(s, s.tasks[t].phase, act)
    requires OfLock(act)
    ensures var p, p' := s.tasks[t].phase, Act1(hash, s, t, act).tasks[t].phase;
            match act
            case Enter => p'.Waiting?
            case Acquire => p'.Holding?
            case Release => p'.Pruning? && p'.out == p.out
            case Prune => p'.Dropping? && p'.out == p.out
            case Drop => p' == Done(p.out)
            case _ => true
  {
  }

  lemma {:induction false} CancelTells(hash: Bytes -> Hash, h: Steps, s: State, t: TaskId)
    requires t in s.tasks && Ready(s, s.tasks[t].phase, Cancel) && TaskTells(hash, h, t, s.tasks[t])
    ensures TaskTells(hash, h + [By(t, Cancel)], t, Act1(hash, s, t, Cancel).tasks[t])
  {
    OwnAct(hash, h, t, Cancel);
  }

  lemma {:induction false} DecidingActTells(hash: Bytes -> Hash, h: Steps, s: State, t: TaskId, act: Act)
    requires t in s.tasks && Ready(s, s.tasks[t].phase, act) && TaskTells(hash, h, t, s.tasks[t])
    requires s.cache == Cached(hash, h)
    requires !OfLock(act) && !act.Cancel?
    ensures TaskTells(hash, h + [By(t, act)], t, Act1(hash, s, t, act).tasks[t])
  {
    OwnAct(hash, h, t, act);
  }

  lemma {:induction false} StepTells(hash: Bytes -> Hash, h: Steps, s: State, a: Step)
    requires Enabled(s, a) && Tells(hash, h, s)
    ensures Tells(hash, h + [a], Apply(hash, s, a))
  {
    var s' := Apply(hash, s, a);
    CacheMore(hash, h, a);
    if a.By? {
      ActDoes(hash, s, a.t, a.act);
      ActTells(hash, h, s, a.t, a.act);
    } else if a.Spawn? {
      JustSpawned(hash, h, a.t, a.hash);
    }
    forall t | t in s'.tasks
      ensures TaskTells(hash, h + [a], t, s'.tasks[t])
    {
      if !IsOwn(a, t) {
        NotOwn(hash, h, a, t);
        assert s'.tasks[t] == s.tasks[t];
      }
    }
  }

  lemma {:induction false} RunTells(hash: Bytes -> Hash, h: Steps, s: State, steps: Steps)
    requires Tells(hash, h, s) && Run(hash, s, steps).Some?
    ensures Tells(hash, h + steps, Run(hash, s, steps).value)
    decreases |steps|
  {
    if steps == [] {
      assert h + steps == h;
    } else {
      StepTells(hash, h, s, steps[0]);
      RunTells(hash, h + [steps[0]], Apply(hash, s, steps[0]), steps[1..]);
      assert h + [steps[0]] + steps[1..] == h + steps;
    }
  }

  /** In every run the cache holds what was put or stored and not removed since,
      and every call stands where its own steps have taken it, with the outcome
      they decided: a hit with the cached bytes, the bytes its good fetch
      returned once stored, failed, or cancelled. */
  lemma {:induction false} EveryCallIsTold(hash: Bytes -> Hash, steps: Steps, s: State)
    requires Run(hash, Initial(), steps) == Some(s)
    ensures s.cache == Cached(hash, steps)
    ensures forall t :: t in s.tasks ==>
              && s.tasks[t].hash == Wanted(steps, t) && PlaceOf(s.tasks[t].phase) == Stands(hash, steps, t)
              && OutcomeOf(s.tasks[t].phase) == Verdict(hash, steps, t)
  {
    RunTells(hash, [], Initial(), steps);
    assert [] + steps == steps;
  }
}
