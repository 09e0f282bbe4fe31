/** The single-flight resolver over the content-addressed cache: any number of
    resolves, interleaved at the points where another task can run. */
module Resolver {
  import opened Prelude

  type Bytes = seq<int>
  type Hash = string
  type TaskId = nat
  type LockId = nat

  datatype Source = Hit | Fetched
  datatype Outcome = Ok(bytes: Bytes, source: Source) | Failed | Cancelled

  /** Where one call of `resolve` stands. From `Waiting` to `Dropping` it has a
      clone of the hash's lock; from `Holding` to `Leaving` it is inside it. */
  datatype Phase =
    | Started
    | Missed
    | Waiting(lock: LockId)
    | Holding(lock: LockId)
    | Fetching(lock: LockId)
    | Verified(lock: LockId, bytes: Bytes)
    | Leaving(lock: LockId, out: Outcome)
    | Pruning(lock: LockId, out: Outcome)
    | Dropping(lock: LockId, out: Outcome)
    | Done(out: Outcome)

  datatype Task = Task(hash: Hash, phase: Phase)

  /** The shared state: the lock map, each lock's strong count and owner, the
      cache. Two histories are kept beside it: the fetches stored per hash since
      the hash was last removed from the cache, and the hashes whose last
      strong-count check ran while another flight was between its own check and
      the drop of its clone. */
  datatype State = State(
    tasks: map<TaskId, Task>,
    locks: map<Hash, LockId>,
    refs: map<LockId, nat>,
    owner: map<LockId, TaskId>,
    nextLock: LockId,
    cache: map<Hash, Bytes>,
    fetches: map<Hash, nat>,
    overlapped: set<Hash>)

  function Initial(): State {
    State(map[], map[], map[], map[], 0, map[], map[], {})
  }

  /** One atomic step. The environment may put and remove cache objects, and
      calls into the store and the wire may fail. */
  datatype Step =
    | Spawn(t: TaskId, hash: Hash)
    | Put(bytes: Bytes)
    | Remove(hash: Hash)
    | By(t: TaskId, act: Act)

  datatype Act =
    | Look | LookFails | Enter | Acquire
    | FetchReturns(bytes: Bytes) | FetchFails | Store | StoreFails
    | Cancel | Release | Prune | Drop

  predicate Ready(s: State, p: Phase, act: Act) {
    match act
    case Look => p.Started? || p.Holding?
    case LookFails => p.Started? || p.Holding?
    case Enter => p.Missed?
    case Acquire => p.Waiting? && p.lock !in s.owner
    case FetchReturns(_) => p.Fetching?
    case FetchFails => p.Fetching?
    case Store => p.Verified?
    case StoreFails => p.Verified?
    case Cancel => p.Waiting? || p.Fetching?
    case Release => p.Leaving?
    case Prune => p.Pruning?
    case Drop => p.Dropping?
  }

  predicate Enabled(s: State, a: Step) {
    match a
    case Spawn(t, _) => t !in s.tasks
    case Put(_) => true
    case Remove(_) => true
    case By(t, act) => t in s.tasks && Ready(s, s.tasks[t].phase, act)
  }

  function Move(s: State, t: TaskId, p: Phase): State
    requires t in s.tasks
  {
    s.(tasks := s.tasks[t := s.tasks[t].(phase := p)])
  }

  /** A call that knows its outcome: outside the lock it is done, inside it has to leave. */
  function Settle(p: Phase, out: Outcome): Phase
    requires p.Started? || p.Holding? || p.Fetching? || p.Verified?
  {
    if p.Started? then Done(out) else Leaving(p.lock, out)
  }

  function Refs(s: State, l: LockId): nat {
    if l in s.refs then s.refs[l] else 0
  }

  function Fetches(s: State, h: Hash): nat {
    if h in s.fetches then s.fetches[h] else 0
  }

  /** Take or create the hash's lock and clone it, under the map's mutex. */
  function EnterMap(s: State, t: TaskId): State
    requires t in s.tasks
  {
    var h := s.tasks[t].hash;
    if h in s.locks then
      var l := s.locks[h];
      Move(s.(refs := s.refs[l := Refs(s, l) + 1]), t, Waiting(l))
    else
      var l := s.nextLock;
      Move(s.(locks := s.locks[h := l], refs := s.refs[l := 2], nextLock := l + 1), t, Waiting(l))
  }

  /** Another flight has checked the strong count of this lock and not yet dropped its clone. */
  predicate Overlaps(s: State, l: LockId) {
    exists t' :: t' in s.tasks && s.tasks[t'].phase.Dropping? && s.tasks[t'].phase.lock == l
  }

  /** Remove a map entry, and with it the map's clone of the lock. */
  function RemoveEntry(s: State, h: Hash): State {
    if h !in s.locks then s
    else s.(locks := s.locks - {h}, refs := s.refs[s.locks[h] := SatSub(Refs(s, s.locks[h]), 1)])
  }

  /** The guard's drop: the strong-count check, under the map's mutex. */
  function PruneMap(s: State, t: TaskId): State
    requires t in s.tasks && s.tasks[t].phase.Pruning?
  {
    var h, p := s.tasks[t].hash, s.tasks[t].phase;
    var s1 := if Refs(s, p.lock) <= 2 then RemoveEntry(s, h) else s;
    var s2 := s1.(overlapped := if Overlaps(s, p.lock) then s.overlapped + {h} else s.overlapped - {h});
    Move(s2, t, Dropping(p.lock, p.out))
  }

  function Act1(hash: Bytes -> Hash, s: State, t: TaskId, act: Act): State
    requires t in s.tasks && Ready(s, s.tasks[t].phase, act)
  {
    var h, p := s.tasks[t].hash, s.tasks[t].phase;
    match act
    case Look =>
      if h in s.cache then Move(s, t, Settle(p, Ok(s.cache[h], Hit)))
      else Move(s, t, if p.Started? then Missed else Fetching(p.lock))
    case LookFails => Move(s, t, Settle(p, Failed))
    case Enter => EnterMap(s, t)
    case Acquire => Move(s.(owner := s.owner[p.lock := t]), t, Holding(p.lock))
    case FetchReturns(bytes) => Move(s, t, if hash(bytes) == h then Verified(p.lock, bytes) else Settle(p, Failed))
    case FetchFails => Move(s, t, Settle(p, Failed))
    case Store =>
      var s1 := s.(cache := s.cache[hash(p.bytes) := p.bytes], fetches := s.fetches[h := Fetches(s, h) + 1]);
      Move(s1, t, Settle(p, Ok(p.bytes, Fetched)))
    case StoreFails => Move(s, t, Settle(p, Failed))
    case Cancel => Move(s, t, if p.Waiting? then Pruning(p.lock, Cancelled) else Settle(p, Cancelled))
    case Release => Move(s.(owner := s.owner - {p.lock}), t, Pruning(p.lock, p.out))
    case Prune => PruneMap(s, t)
    case Drop => Move(s.(refs := s.refs[p.lock := SatSub(Refs(s, p.lock), 1)]), t, Done(p.out))
  }

  function Apply(hash: Bytes -> Hash, s: State, a: Step): State
    requires Enabled(s, a)
  {
    match a
    case Spawn(t, h) => s.(tasks := s.tasks[t := Task(h, Started)])
    case Put(bytes) => s.(cache := s.cache[hash(bytes) := bytes])
    case Remove(h) => s.(cache := s.cache - {h}, fetches := s.fetches - {h})
    case By(t, act) => Act1(hash, s, t, act)
  }

  /** A run of steps, each enabled when it is taken. */
  function Run(hash: Bytes -> Hash, s: State, steps: seq<Step>): Option<State>
    decreases |steps|
  {
    if steps == [] then Some(s)
    else if !Enabled(s, steps[0]) then None
    else Run(hash, Apply(hash, s, steps[0]), steps[1..])
  }

  // -------------------------------------------------------- the lock table

  datatype Stage = Queued | Inside | Outside | Checked

  /** What the lock protocol sees of a task. */
  datatype Shape = Free | Uses(hash: Hash, lock: LockId, stage: Stage)

  function ShapeOf(task: Task): Shape {
    match task.phase
    case Started => Free
    case Missed => Free
    case Done(_) => Free
    case Waiting(l) => Uses(task.hash, l, Queued)
    case Holding(l) => Uses(task.hash, l, Inside)
    case Fetching(l) => Uses(task.hash, l, Inside)
    case Verified(l, _) => Uses(task.hash, l, Inside)
    case Leaving(l, _) => Uses(task.hash, l, Inside)
    case Pruning(l, _) => Uses(task.hash, l, Outside)
    case Dropping(l, _) => Uses(task.hash, l, Checked)
  }

  function At(s: State, t: TaskId): Shape {
    if t in s.tasks then ShapeOf(s.tasks[t]) else Free
  }

  function Users(s: State, l: LockId): set<TaskId> {
    set t | t in s.tasks && At(s, t).Uses? && At(s, t).lock == l
  }

  /** Flights that have not checked the strong count yet share the map's lock;
      a lock belongs to one hash. */
  ghost predicate Shared(s: State) {
    && (forall t :: At(s, t).Uses? ==> At(s, t).lock < s.nextLock)
    && (forall t :: At(s, t).Uses? && At(s, t).stage != Checked
                    ==> At(s, t).hash in s.locks && s.locks[At(s, t).hash] == At(s, t).lock)
    && (forall t, h :: At(s, t).Uses? && h in s.locks && s.locks[h] == At(s, t).lock ==> h == At(s, t).hash)
  }

  ghost predicate Separate(s: State) {
    && (forall h :: h in s.locks ==> s.locks[h] < s.nextLock)
    && (forall h, h' :: h in s.locks && h' in s.locks && s.locks[h] == s.locks[h'] ==> h == h')
  }

  function InMap(s: State, l: LockId): nat {
    if exists h :: h in s.locks && s.locks[h] == l then 1 else 0
  }

  /** Strong counts count the clones and the map entry. */
  ghost predicate Counted(s: State) {
    forall l :: 0 <= l < s.nextLock ==> Refs(s, l) == |Users(s, l)| + InMap(s, l)
  }

  ghost predicate Exclusive(s: State) {
    && (forall t :: At(s, t).Uses? && At(s, t).stage == Inside
                    ==> At(s, t).lock in s.owner && s.owner[At(s, t).lock] == t)
    && (forall l :: l in s.owner ==> At(s, s.owner[l]).Uses? && At(s, s.owner[l]).lock == l
                                     && At(s, s.owner[l]).stage == Inside)
  }

  /** An entry of the map either has a flight that will check it, or the last check overlapped. */
  ghost predicate Tended(s: State) {
    && (forall h :: h in s.locks && h !in s.overlapped
                    ==> exists t :: At(s, t).Uses? && At(s, t).hash == h && At(s, t).stage != Checked)
    && (forall h :: h in s.overlapped ==> h in s.locks)
  }

  ghost predicate LocksOk(s: State) {
    Shared(s) && Separate(s) && Counted(s) && Exclusive(s) && Tended(s)
  }

  /** Same lock table, same shapes. */
  ghost predicate SameTable(s: State, s': State) {
    && s'.locks == s.locks && s'.refs == s.refs && s'.owner == s.owner && s'.nextLock == s.nextLock
    && s'.overlapped == s.overlapped
    && forall t :: At(s', t) == At(s, t)
  }

  lemma {:induction false} SameTableKeeps(s: State, s': State)
    requires LocksOk(s) && SameTable(s, s')
    ensures LocksOk(s')
  {
    forall l | 0 <= l < s'.nextLock
      ensures Refs(s', l) == |Users(s', l)| + InMap(s', l)
    {
      assert Users(s', l) == Users(s, l) by {
        forall t
          ensures t in Users(s', l) <==> t in Users(s, l)
        {
          assert At(s', t) == At(s, t);
        }
      }
      assert InMap(s', l) == InMap(s, l);
    }
    assert Tended(s');
  }

  ghost predicate OnlyMoved(s: State, s': State, t: TaskId) {
    forall t' :: t' != t ==> At(s', t') == At(s, t')
  }

  /** A task that keeps its clone of a lock keeps every lock's users. */
  lemma {:induction false} UsersKept(s: State, s': State, t: TaskId, l: LockId)
    requires OnlyMoved(s, s', t) && At(s, t).Uses? && At(s', t).Uses? && At(s', t).lock == At(s, t).lock
    ensures Users(s', l) == Users(s, l)
  {
    forall t'
      ensures t' in Users(s', l) <==> t' in Users(s, l)
    {
      assert t' != t ==> At(s', t') == At(s, t');
    }
  }

  lemma {:induction false} UserAdded(s: State, s': State, t: TaskId, l: LockId)
    requires OnlyMoved(s, s', t) && At(s, t) == Free && At(s', t).Uses?
    ensures |Users(s', l)| == |Users(s, l)| + if At(s', t).lock == l then 1 else 0
  {
    assert Users(s', l) == if At(s', t).lock == l then Users(s, l) + {t} else Users(s, l) by {
      forall t'
        ensures t' in Users(s', l) <==> t' in Users(s, l) || (t' == t && At(s', t).lock == l)
      {
        assert t' != t ==> At(s', t') == At(s, t');
      }
    }
    assert t !in Users(s, l);
  }

  /** The steps that only move a task between stages of one lock. */
  ghost predicate Restaged(s: State, s': State, t: TaskId) {
    && OnlyMoved(s, s', t) && At(s, t).Uses? && At(s', t).Uses?
    && At(s', t).lock == At(s, t).lock && At(s', t).hash == At(s, t).hash
    && s'.nextLock == s.nextLock
  }

  lemma {:induction false} RestagedKeeps(s: State, s': State, t: TaskId)
    requires LocksOk(s) && Restaged(s, s', t) && s'.locks == s.locks && s'.refs == s.refs
             && s'.overlapped == s.overlapped
    requires At(s, t).stage != Checked && At(s', t).stage != Checked
    ensures Shared(s') && Separate(s') && Counted(s') && Tended(s')
  {
    forall l | 0 <= l < s'.nextLock
      ensures Refs(s', l) == |Users(s', l)| + InMap(s', l)
    {
      UsersKept(s, s', t, l);
      assert InMap(s', l) == InMap(s, l);
    }
    forall h | h in s'.locks && h !in s'.overlapped
      ensures exists t' :: At(s', t').Uses? && At(s', t').hash == h && At(s', t').stage != Checked
    {
      var t' :| At(s, t').Uses? && At(s, t').hash == h && At(s, t').stage != Checked;
      assert t' != t ==> At(s', t') == At(s, t');
    }
  }

  lemma {:induction false} AcquireKeeps(hash: Bytes -> Hash, s: State, t: TaskId)
    requires LocksOk(s) && Enabled(s, By(t, Acquire))
    ensures LocksOk(Apply(hash, s, By(t, Acquire)))
  {
    var s' := Apply(hash, s, By(t, Acquire));
    RestagedKeeps(s, s', t);
    OwnersKept(s, s', t);
  }

  /** The other tasks' ownership is untouched, and t owns its lock exactly when inside it. */
  lemma {:induction false} OwnersKept(s: State, s': State, t: TaskId)
    requires LocksOk(s) && Restaged(s, s', t)
    requires s'.owner == if At(s', t).stage == Inside then s.owner[At(s, t).lock := t]
                         else if At(s, t).stage == Inside then s.owner - {At(s, t).lock} else s.owner
    requires At(s', t).stage == Inside ==> At(s, t).stage == Inside || At(s, t).lock !in s.owner
    ensures Exclusive(s')
  {
    forall t' | At(s', t').Uses? && At(s', t').stage == Inside
      ensures At(s', t').lock in s'.owner && s'.owner[At(s', t').lock] == t'
    {
      assert t' != t ==> At(s', t') == At(s, t');
    }
    forall l | l in s'.owner
      ensures At(s', s'.owner[l]).Uses? && At(s', s'.owner[l]).lock == l && At(s', s'.owner[l]).stage == Inside
    {
      assert s'.owner[l] != t ==> At(s', s'.owner[l]) == At(s, s.owner[l]);
    }
  }

  lemma {:induction false} ReleaseKeeps(hash: Bytes -> Hash, s: State, t: TaskId)
    requires LocksOk(s) && Enabled(s, By(t, Release))
    ensures LocksOk(Apply(hash, s, By(t, Release)))
  {
    var s' := Apply(hash, s, By(t, Release));
    RestagedKeeps(s, s', t);
    OwnersKept(s, s', t);
  }

  lemma {:induction false} CancelKeeps(hash: Bytes -> Hash, s: State, t: TaskId)
    requires LocksOk(s) && Enabled(s, By(t, Cancel))
    ensures LocksOk(Apply(hash, s, By(t, Cancel)))
  {
    var s' := Apply(hash, s, By(t, Cancel));
    RestagedKeeps(s, s', t);
    if s.tasks[t].phase.Fetching? {
      assert s.owner[At(s, t).lock] == t;
      assert s.owner == s.owner[At(s, t).lock := t];
    }
    OwnersKept(s, s', t);
  }

  lemma {:induction false} EnterKeeps(hash: Bytes -> Hash, s: State, t: TaskId)
    requires LocksOk(s) && Enabled(s, By(t, Enter))
    ensures LocksOk(Apply(hash, s, By(t, Enter)))
  {
    var s' := Apply(hash, s, By(t, Enter));
    var h := s.tasks[t].hash;
    assert At(s, t) == Free && At(s', t) == Uses(h, s'.locks[h], Queued);
    assert OnlyMoved(s, s', t);
    EnterShares(s, s', t, h);
    EnterCounts(s, s', t, h);
    EnterTends(s, s', t, h);
  }

  /** What entering the map does to the table. */
  ghost predicate Entered(s: State, s': State, t: TaskId, h: Hash) {
    && OnlyMoved(s, s', t) && At(s, t) == Free && h in s'.locks && At(s', t) == Uses(h, s'.locks[h], Queued)
    && s'.owner == s.owner && s'.overlapped == s.overlapped
    && (if h in s.locks then
          && s'.locks == s.locks && s'.nextLock == s.nextLock
          && s'.refs == s.refs[s.locks[h] := Refs(s, s.locks[h]) + 1]
        else
          && s'.locks == s.locks[h := s.nextLock] && s'.nextLock == s.nextLock + 1
          && s'.refs == s.refs[s.nextLock := 2])
  }

  lemma {:induction false} EnterShares(s: State, s': State, t: TaskId, h: Hash)
    requires LocksOk(s) && Entered(s, s', t, h)
    ensures Shared(s') && Separate(s') && Exclusive(s')
  {
    EnterSeparates(s, s', t, h);
    forall t' | At(s', t').Uses?
      ensures At(s', t').lock < s'.nextLock
      ensures At(s', t').stage != Checked
              ==> At(s', t').hash in s'.locks && s'.locks[At(s', t').hash] == At(s', t').lock
    {
      assert t' != t ==> At(s', t') == At(s, t');
    }
    forall t', h' | At(s', t').Uses? && h' in s'.locks && s'.locks[h'] == At(s', t').lock
      ensures h' == At(s', t').hash
    {
      if t' != t {
        assert At(s', t') == At(s, t');
      }
    }
    EnterExcludes(s, s', t, h);
  }

  lemma {:induction false} EnterSeparates(s: State, s': State, t: TaskId, h: Hash)
    requires LocksOk(s) && Entered(s, s', t, h)
    ensures Separate(s')
  {
  }

  lemma {:induction false} EnterExcludes(s: State, s': State, t: TaskId, h: Hash)
    requires LocksOk(s) && Entered(s, s', t, h)
    ensures Exclusive(s')
  {
    forall l | l in s'.owner
      ensures At(s', s'.owner[l]).Uses? && At(s', s'.owner[l]).lock == l && At(s', s'.owner[l]).stage == Inside
    {
      assert At(s', s'.owner[l]) == At(s, s.owner[l]);
    }
  }

  lemma {:induction false} EnterCounts(s: State, s': State, t: TaskId, h: Hash)
    requires LocksOk(s) && Entered(s, s', t, h)
    ensures Counted(s')
  {
    forall l | 0 <= l < s'.nextLock
      ensures Refs(s', l) == |Users(s', l)| + InMap(s', l)
    {
      UserAdded(s, s', t, l);
      if h in s.locks {
        assert InMap(s', l) == InMap(s, l);
      } else if l == s.nextLock {
        assert Users(s, l) == {};
        assert s'.locks[h] == l;
      } else {
        EntryKept(s, s', h, l);
      }
    }
  }

  lemma {:induction false} EntryKept(s: State, s': State, h: Hash, l: LockId)
    requires h !in s.locks && s'.locks == s.locks[h := s.nextLock] && l != s.nextLock
    ensures InMap(s', l) == InMap(s, l)
  {
    if h0 :| h0 in s.locks && s.locks[h0] == l {
      assert s'.locks[h0] == l;
    }
    if h0 :| h0 in s'.locks && s'.locks[h0] == l {
      assert s.locks[h0] == l;
    }
  }

  lemma {:induction false} EnterTends(s: State, s': State, t: TaskId, h: Hash)
    requires LocksOk(s) && Entered(s, s', t, h)
    ensures Tended(s')
  {
    forall h' | h' in s'.locks && h' !in s'.overlapped
      ensures exists t' :: At(s', t').Uses? && At(s', t').hash == h' && At(s', t').stage != Checked
    {
      if h' == h {
        assert At(s', t).Uses?;
      } else {
        var t' :| At(s, t').Uses? && At(s, t').hash == h' && At(s, t').stage != Checked;
        assert At(s', t') == At(s, t');
      }
    }
  }

  lemma {:induction false} DropKeeps(hash: Bytes -> Hash, s: State, t: TaskId)
    requires LocksOk(s) && Enabled(s, By(t, Drop))
    ensures LocksOk(Apply(hash, s, By(t, Drop)))
  {
    var s' := Apply(hash, s, By(t, Drop));
    DroppedKeeps(s, s', t);
    DropCounts(s, s', t);
  }

  ghost predicate Dropped(s: State, s': State, t: TaskId) {
    && OnlyMoved(s, s', t) && At(s, t).Uses? && At(s, t).stage == Checked && At(s', t) == Free
    && s'.locks == s.locks && s'.owner == s.owner && s'.nextLock == s.nextLock && s'.overlapped == s.overlapped
    && s'.refs == s.refs[At(s, t).lock := SatSub(Refs(s, At(s, t).lock), 1)]
  }

  lemma {:induction false} DropCounts(s: State, s': State, t: TaskId)
    requires LocksOk(s) && Dropped(s, s', t)
    ensures Counted(s')
  {
    forall l | 0 <= l < s'.nextLock
      ensures Refs(s', l) == |Users(s', l)| + InMap(s', l)
    {
      UserAdded(s', s, t, l);
      assert InMap(s', l) == InMap(s, l);
    }
  }

  lemma {:induction false} DroppedKeeps(s: State, s': State, t: TaskId)
    requires LocksOk(s) && Dropped(s, s', t)
    ensures Shared(s') && Separate(s') && Exclusive(s') && Tended(s')
  {
    forall h | h in s'.locks && h !in s'.overlapped
      ensures exists t' :: At(s', t').Uses? && At(s', t').hash == h && At(s', t').stage != Checked
    {
      var t' :| At(s, t').Uses? && At(s, t').hash == h && At(s, t').stage != Checked;
      assert At(s', t') == At(s, t');
    }
    forall l | l in s'.owner
      ensures At(s', s'.owner[l]).Uses? && At(s', s'.owner[l]).lock == l && At(s', s'.owner[l]).stage == Inside
    {
      assert At(s', s'.owner[l]) == At(s, s.owner[l]);
    }
  }

  // --------------------------------------------------------- the guard

  /** With a strong count of at most two there is no other flight on the lock. */
  lemma {:induction false} LastOneOut(s: State, t: TaskId, t': TaskId)
    requires LocksOk(s) && At(s, t).Uses? && At(s, t).stage != Checked && Refs(s, At(s, t).lock) <= 2
    requires At(s, t').Uses? && At(s, t').lock == At(s, t).lock
    ensures t' == t
  {
    var l := At(s, t).lock;
    assert s.locks[At(s, t).hash] == l;
    assert |Users(s, l)| <= 1;
    if t' != t {
      SubsetSize({t, t'}, Users(s, l));
    }
  }

  /** With a strong count above two there is. */
  lemma {:induction false} NotLast(s: State, t: TaskId) returns (t': TaskId)
    requires LocksOk(s) && At(s, t).Uses? && At(s, t).stage != Checked && Refs(s, At(s, t).lock) > 2
    ensures t' != t && At(s, t').Uses? && At(s, t').lock == At(s, t).lock
  {
    var l := At(s, t).lock;
    assert |Users(s, l)| >= 2;
    var others := Users(s, l) - {t};
    assert |others| >= 1;
    assert exists x :: x in others by {
      if forall x :: x !in others {
        assert false;
      }
    }
    t' :| t' in others;
  }

  lemma {:induction false} OverlapsIs(s: State, l: LockId)
    ensures Overlaps(s, l) <==> exists t :: At(s, t).Uses? && At(s, t).lock == l && At(s, t).stage == Checked
  {
    if Overlaps(s, l) {
      var t :| t in s.tasks && s.tasks[t].phase.Dropping? && s.tasks[t].phase.lock == l;
      assert At(s, t).stage == Checked;
    }
    if t :| At(s, t).Uses? && At(s, t).lock == l && At(s, t).stage == Checked {
      assert t in s.tasks && s.tasks[t].phase.Dropping?;
    }
  }

  /** What the guard's check does to the table. */
  ghost predicate Pruned(s: State, s': State, t: TaskId) {
    && Restaged(s, s', t) && At(s, t).stage == Outside && At(s', t).stage == Checked && s'.owner == s.owner
    && var h, l := At(s, t).hash, At(s, t).lock;
      && (if Refs(s, l) <= 2 then s'.locks == s.locks - {h} && s'.refs == s.refs[l := SatSub(Refs(s, l), 1)]
          else s'.locks == s.locks && s'.refs == s.refs)
      && s'.overlapped == (if Overlaps(s, l) then s.overlapped + {h} else s.overlapped - {h})
  }

  lemma {:induction false} PruneShares(s: State, s': State, t: TaskId)
    requires LocksOk(s) && Pruned(s, s', t)
    ensures Shared(s') && Separate(s') && Exclusive(s')
  {
    forall t' | At(s', t').Uses? && At(s', t').stage != Checked
      ensures At(s', t').hash in s'.locks && s'.locks[At(s', t').hash] == At(s', t').lock
    {
      assert t' != t && At(s', t') == At(s, t');
      if Refs(s, At(s, t).lock) <= 2 && At(s, t').hash == At(s, t).hash {
        LastOneOut(s, t, t');
      }
    }
    assert Exclusive(s') by {
      forall l | l in s'.owner
        ensures At(s', s'.owner[l]).Uses? && At(s', s'.owner[l]).lock == l && At(s', s'.owner[l]).stage == Inside
      {
        assert s.owner[l] != t;
        assert At(s', s'.owner[l]) == At(s, s.owner[l]);
      }
    }
  }

  lemma {:induction false} PruneCounts(s: State, s': State, t: TaskId)
    requires LocksOk(s) && Pruned(s, s', t)
    ensures Counted(s')
  {
    var h, l0 := At(s, t).hash, At(s, t).lock;
    assert s.locks[h] == l0;
    forall l | 0 <= l < s'.nextLock
      ensures Refs(s', l) == |Users(s', l)| + InMap(s', l)
    {
      UsersKept(s, s', t, l);
      if Refs(s, l0) <= 2 {
        EntryGone(s, s', h, l);
      } else {
        assert InMap(s', l) == InMap(s, l);
      }
    }
  }

  lemma {:induction false} EntryGone(s: State, s': State, h: Hash, l: LockId)
    requires Separate(s) && h in s.locks && s'.locks == s.locks - {h}
    ensures InMap(s', l) == if l == s.locks[h] then 0 else InMap(s, l)
    ensures InMap(s, s.locks[h]) == 1
  {
    if h0 :| h0 in s'.locks && s'.locks[h0] == l {
      assert s.locks[h0] == l;
    }
    if l != s.locks[h] {
      if h0 :| h0 in s.locks && s.locks[h0] == l {
        assert s'.locks[h0] == l;
      }
    }
  }

  /** The heart of the prune: an entry left behind either has a flight that
      will still check it, or this check overlapped another's drop. */
  lemma {:induction false} PruneTends(s: State, s': State, t: TaskId)
    requires LocksOk(s) && Pruned(s, s', t)
    ensures Tended(s')
  {
    var h, l := At(s, t).hash, At(s, t).lock;
    OverlapsIs(s, l);
    forall h' | h' in s'.locks && h' !in s'.overlapped
      ensures exists t' :: At(s', t').Uses? && At(s', t').hash == h' && At(s', t').stage != Checked
    {
      var t': TaskId;
      if h' == h {
        t' := NotLast(s, t);
      } else {
        t' :| At(s, t').Uses? && At(s, t').hash == h' && At(s, t').stage != Checked;
      }
      assert At(s', t') == At(s, t');
    }
    if Refs(s, l) <= 2 && Overlaps(s, l) {
      var t' :| At(s, t').Uses? && At(s, t').lock == l && At(s, t').stage == Checked;
      LastOneOut(s, t, t');
    }
  }

  lemma {:induction false} PrunePrunes(s: State, t: TaskId)
    requires t in s.tasks && s.tasks[t].phase.Pruning?
    requires At(s, t).hash in s.locks && s.locks[At(s, t).hash] == At(s, t).lock
    ensures Pruned(s, PruneMap(s, t), t)
  {
  }

  lemma {:induction false} PruneKeeps(hash: Bytes -> Hash, s: State, t: TaskId)
    requires LocksOk(s) && Enabled(s, By(t, Prune))
    ensures LocksOk(Apply(hash, s, By(t, Prune)))
  {
    var s' := Apply(hash, s, By(t, Prune));
    assert At(s, t).Uses? && s.locks[At(s, t).hash] == At(s, t).lock;
    PrunePrunes(s, t);
    PruneShares(s, s', t);
    PruneCounts(s, s', t);
    PruneTends(s, s', t);
  }

  /** The steps the lock table does not see. */
  predicate Unseen(a: Step) {
    !a.By? || !(a.act.Enter? || a.act.Acquire? || a.act.Cancel? || a.act.Release? || a.act.Prune? || a.act.Drop?)
  }

  /** A task that keeps its shape changes nothing the table sees. */
  lemma {:induction false} SameShapeKeeps(s: State, s1: State, t: TaskId, p: Phase)
    requires t in s.tasks && s1 == s.(cache := s1.cache, fetches := s1.fetches)
    requires ShapeOf(s.tasks[t].(phase := p)) == At(s, t)
    ensures SameTable(s, Move(s1, t, p))
  {
  }

  lemma {:induction false} UnseenActKeeps(hash: Bytes -> Hash, s: State, t: TaskId, act: Act)
    requires Enabled(s, By(t, act)) && Unseen(By(t, act))
    ensures SameTable(s, Act1(hash, s, t, act))
  {
    var s' := Act1(hash, s, t, act);
    SameShapeKeeps(s, s.(cache := s'.cache, fetches := s'.fetches), t, s'.tasks[t].phase);
  }

  lemma {:induction false} UnseenKeeps(hash: Bytes -> Hash, s: State, a: Step)
    requires Enabled(s, a) && Unseen(a)
    ensures SameTable(s, Apply(hash, s, a))
  {
    if a.By? {
      UnseenActKeeps(hash, s, a.t, a.act);
    }
  }

  lemma {:induction false} LocksKept(hash: Bytes -> Hash, s: State, a: Step)
    requires LocksOk(s) && Enabled(s, a)
    ensures LocksOk(Apply(hash, s, a))
  {
    if Unseen(a) {
      UnseenKeeps(hash, s, a);
      SameTableKeeps(s, Apply(hash, s, a));
    } else {
      match a.act {
        case Enter => EnterKeeps(hash, s, a.t);
        case Acquire => AcquireKeeps(hash, s, a.t);
        case Cancel => CancelKeeps(hash, s, a.t);
        case Release => ReleaseKeeps(hash, s, a.t);
        case Prune => PruneKeeps(hash, s, a.t);
        case Drop => DropKeeps(hash, s, a.t);
      }
    }
  }

  // -------------------------------------------------------------- the data

  /** The outcome a task has reached, if any. */
  function OutcomeOf(p: Phase): Option<Outcome> {
    if p.Leaving? || p.Pruning? || p.Dropping? || p.Done? then Some(p.out) else None
  }

  ghost predicate CacheOk(hash: Bytes -> Hash, s: State) {
    forall h :: h in s.cache ==> hash(s.cache[h]) == h
  }

  ghost predicate TaskOk(hash: Bytes -> Hash, s: State, task: Task) {
    && (task.phase.Verified? ==> hash(task.phase.bytes) == task.hash)
    && (OutcomeOf(task.phase).Some? && OutcomeOf(task.phase).value.Ok?
        ==> hash(OutcomeOf(task.phase).value.bytes) == task.hash)
    && (task.phase.Fetching? || task.phase.Verified? ==> Fetches(s, task.hash) == 0)
  }

  /** At most one stored fetch per hash, and while there is one the object is cached. */
  ghost predicate FetchesOk(s: State) {
    forall h :: Fetches(s, h) <= 1 && (Fetches(s, h) == 1 ==> h in s.cache)
  }

  ghost predicate DataOk(hash: Bytes -> Hash, s: State) {
    CacheOk(hash, s) && FetchesOk(s) && forall t :: t in s.tasks ==> TaskOk(hash, s, s.tasks[t])
  }

  /** Two flights inside the lock of one hash are one flight. */
  lemma {:induction false} OneInside(s: State, t: TaskId, t': TaskId)
    requires LocksOk(s) && At(s, t).Uses? && At(s, t').Uses? && At(s, t).hash == At(s, t').hash
    requires At(s, t).stage == Inside && At(s, t').stage == Inside
    ensures t == t'
  {
    assert At(s, t).lock == s.locks[At(s, t).hash] == At(s, t').lock;
  }

  lemma {:induction false} StoreKeepsData(hash: Bytes -> Hash, s: State, t: TaskId)
    requires LocksOk(s) && DataOk(hash, s) && Enabled(s, By(t, Store))
    ensures DataOk(hash, Apply(hash, s, By(t, Store)))
  {
    var s' := Apply(hash, s, By(t, Store));
    var h := s.tasks[t].hash;
    assert TaskOk(hash, s, s.tasks[t]);
    assert FetchesOk(s') by {
      forall h'
        ensures Fetches(s', h') <= 1 && (Fetches(s', h') == 1 ==> h' in s'.cache)
      {
        assert Fetches(s', h') == if h' == h then 1 else Fetches(s, h');
      }
    }
    forall t' | t' in s'.tasks
      ensures TaskOk(hash, s', s'.tasks[t'])
    {
      if t' != t {
        assert TaskOk(hash, s, s.tasks[t']);
        if s.tasks[t'].hash == h && (s.tasks[t'].phase.Fetching? || s.tasks[t'].phase.Verified?) {
          assert At(s, t).stage == Inside && At(s, t').stage == Inside;
          OneInside(s, t, t');
        }
      }
    }
  }

  /** Every other act leaves the cache and the counts alone and moves one task. */
  lemma {:induction false} ActMovesOne(hash: Bytes -> Hash, s: State, t: TaskId, act: Act)
    requires Enabled(s, By(t, act)) && act != Store
    ensures var s' := Act1(hash, s, t, act);
            && s'.cache == s.cache && s'.fetches == s.fetches && t in s'.tasks
            && s'.tasks == s.tasks[t := s.tasks[t].(phase := s'.tasks[t].phase)]
  {
    if act == Prune {
      PruneMovesOne(s, t);
    } else if act == Enter {
      EnterMovesOne(s, t);
    }
  }

  lemma {:induction false} PruneMovesOne(s: State, t: TaskId)
    requires t in s.tasks && s.tasks[t].phase.Pruning?
    ensures var s' := PruneMap(s, t);
            && s'.cache == s.cache && s'.fetches == s.fetches && t in s'.tasks
            && s'.tasks == s.tasks[t := s.tasks[t].(phase := s'.tasks[t].phase)]
  {
  }

  lemma {:induction false} EnterMovesOne(s: State, t: TaskId)
    requires t in s.tasks
    ensures var s' := EnterMap(s, t);
            && s'.cache == s.cache && s'.fetches == s.fetches && t in s'.tasks
            && s'.tasks == s.tasks[t := s.tasks[t].(phase := s'.tasks[t].phase)]
  {
  }

  lemma {:induction false} ActSound(hash: Bytes -> Hash, s: State, t: TaskId, act: Act)
    requires DataOk(hash, s) && Enabled(s, By(t, act)) && act != Store
    ensures TaskOk(hash, s, Act1(hash, s, t, act).tasks[t])
  {
    assert TaskOk(hash, s, s.tasks[t]);
    assert Fetches(s, s.tasks[t].hash) <= 1;
    if act == Look {
      LookSound(hash, s, t);
    } else if act.FetchReturns? {
      assert Fetches(s, s.tasks[t].hash) == 0;
    }
  }

  lemma {:induction false} LookSound(hash: Bytes -> Hash, s: State, t: TaskId)
    requires DataOk(hash, s) && Enabled(s, By(t, Look))
    ensures TaskOk(hash, s, Act1(hash, s, t, Look).tasks[t])
  {
    assert Fetches(s, s.tasks[t].hash) <= 1;
  }

  lemma {:induction false} MovedKeepsData(hash: Bytes -> Hash, s: State, s': State, t: TaskId)
    requires DataOk(hash, s) && s'.cache == s.cache && s'.fetches == s.fetches && t in s'.tasks
    requires s'.tasks == s.tasks[t := s'.tasks[t]] && TaskOk(hash, s, s'.tasks[t])
    ensures DataOk(hash, s')
  {
    assert forall h :: Fetches(s', h) == Fetches(s, h);
    forall t' | t' in s'.tasks
      ensures TaskOk(hash, s', s'.tasks[t'])
    {
      assert t' != t ==> TaskOk(hash, s, s.tasks[t']);
    }
  }

  lemma {:induction false} RemoveKeepsData(hash: Bytes -> Hash, s: State, h: Hash)
    requires DataOk(hash, s)
    ensures DataOk(hash, Apply(hash, s, Remove(h)))
  {
    var s' := Apply(hash, s, Remove(h));
    assert forall h' :: Fetches(s', h') == if h' == h then 0 else Fetches(s, h');
    forall t | t in s'.tasks
      ensures TaskOk(hash, s', s'.tasks[t])
    {
      assert TaskOk(hash, s, s.tasks[t]);
    }
  }

  lemma {:induction false} PutKeepsData(hash: Bytes -> Hash, s: State, bytes: Bytes)
    requires DataOk(hash, s)
    ensures DataOk(hash, Apply(hash, s, Put(bytes)))
  {
    var s' := Apply(hash, s, Put(bytes));
    assert forall h :: Fetches(s', h) == Fetches(s, h);
    forall t | t in s'.tasks
      ensures TaskOk(hash, s', s'.tasks[t])
    {
      assert TaskOk(hash, s, s.tasks[t]);
    }
  }

  lemma {:induction false} DataKept(hash: Bytes -> Hash, s: State, a: Step)
    requires LocksOk(s) && DataOk(hash, s) && Enabled(s, a)
    ensures DataOk(hash, Apply(hash, s, a))
  {
    match a
    case Spawn(t, _) => MovedKeepsData(hash, s, Apply(hash, s, a), t);
    case Put(bytes) => PutKeepsData(hash, s, bytes);
    case Remove(h) => RemoveKeepsData(hash, s, h);
    case By(t, act) =>
      if act == Store {
        StoreKeepsData(hash, s, t);
      } else {
        ActMovesOne(hash, s, t, act);
        ActSound(hash, s, t, act);
        MovedKeepsData(hash, s, Act1(hash, s, t, act), t);
      }
  }

  // ------------------------------------------------------------ every run

  lemma {:induction false} RunKeeps(hash: Bytes -> Hash, s: State, steps: seq<Step>)
    requires LocksOk(s) && DataOk(hash, s) && Run(hash, s, steps).Some?
    ensures LocksOk(Run(hash, s, steps).value) && DataOk(hash, Run(hash, s, steps).value)
    decreases |steps|
  {
    if steps != [] {
      LocksKept(hash, s, steps[0]);
      DataKept(hash, s, steps[0]);
      RunKeeps(hash, Apply(hash, s, steps[0]), steps[1..]);
    }
  }

  /** A call that has taken the map's lock and has not yet checked the strong count. */
  predicate Live(p: Phase) {
    p.Waiting? || p.Holding? || p.Fetching? || p.Verified? || p.Leaving? || p.Pruning?
  }

  predicate IsFetching(s: State, t: TaskId) {
    t in s.tasks && s.tasks[t].phase.Fetching?
  }

  /** Single flight, under every interleaving: flights share the map's lock, one
      fetch per hash at a time, one stored fetch per hash until it is removed,
      and every Ok carries bytes of the requested hash. */
  lemma {:induction false} SingleFlight(hash: Bytes -> Hash, steps: seq<Step>, s: State)
    requires Run(hash, Initial(), steps) == Some(s)
    ensures forall t :: t in s.tasks && Live(s.tasks[t].phase)
                        ==> s.tasks[t].hash in s.locks && s.locks[s.tasks[t].hash] == s.tasks[t].phase.lock
    ensures forall t, t' :: IsFetching(s, t) && IsFetching(s, t') && s.tasks[t].hash == s.tasks[t'].hash ==> t == t'
    ensures forall h :: Fetches(s, h) <= 1
    ensures forall t :: t in s.tasks && s.tasks[t].phase.Done? && s.tasks[t].phase.out.Ok?
                        ==> hash(s.tasks[t].phase.out.bytes) == s.tasks[t].hash
  {
    InitialOk(hash);
    RunKeeps(hash, Initial(), steps);
    forall t | t in s.tasks && Live(s.tasks[t].phase)
      ensures s.tasks[t].hash in s.locks && s.locks[s.tasks[t].hash] == s.tasks[t].phase.lock
    {
      assert At(s, t).Uses? && At(s, t).stage != Checked;
    }
    forall t, t' | IsFetching(s, t) && IsFetching(s, t') && s.tasks[t].hash == s.tasks[t'].hash
      ensures t == t'
    {
      assert At(s, t).Uses? && At(s, t').Uses? && At(s, t).stage == Inside;
      OneInside(s, t, t');
    }
    forall t | t in s.tasks && s.tasks[t].phase.Done? && s.tasks[t].phase.out.Ok?
      ensures hash(s.tasks[t].phase.out.bytes) == s.tasks[t].hash
    {
      assert TaskOk(hash, s, s.tasks[t]);
    }
  }

  lemma {:induction false} InitialOk(hash: Bytes -> Hash)
    ensures LocksOk(Initial()) && DataOk(hash, Initial())
  {
  }

  /** The fetches of h that were stored along a run. */
  function StoredFetches(hash: Bytes -> Hash, s: State, steps: seq<Step>, h: Hash): nat
    decreases |steps|
  {
    if steps == [] || !Enabled(s, steps[0]) then 0
    else (if steps[0].By? && steps[0].act.Store? && s.tasks[steps[0].t].hash == h then 1 else 0)
         + StoredFetches(hash, Apply(hash, s, steps[0]), steps[1..], h)
  }

  lemma {:induction false} FetchesCount(hash: Bytes -> Hash, s: State, steps: seq<Step>, h: Hash)
    requires Run(hash, s, steps).Some? && Remove(h) !in steps
    ensures Fetches(Run(hash, s, steps).value, h) == Fetches(s, h) + StoredFetches(hash, s, steps, h)
    decreases |steps|
  {
    if steps != [] {
      var a := steps[0];
      var s1 := Apply(hash, s, a);
      FetchesCount(hash, s1, steps[1..], h);
      if a.By? && a.act != Store {
        ActMovesOne(hash, s, a.t, a.act);
      }
    }
  }

  /** Between removals of an object from the cache, at most one fetch of it is ever stored. */
  lemma {:induction false} OneFetchBetweenRemovals(hash: Bytes -> Hash, before: seq<Step>, s: State, steps: seq<Step>,
                                                   h: Hash)
    requires Run(hash, Initial(), before) == Some(s) && Run(hash, s, steps).Some? && Remove(h) !in steps
    ensures StoredFetches(hash, s, steps, h) <= 1
    ensures Fetches(s, h) == 1 ==> StoredFetches(hash, s, steps, h) == 0
  {
    InitialOk(hash);
    RunKeeps(hash, Initial(), before);
    RunKeeps(hash, s, steps);
    FetchesCount(hash, s, steps, h);
    assert Fetches(Run(hash, s, steps).value, h) <= 1;
  }

  ghost predicate AtRest(s: State) {
    forall t :: t in s.tasks ==> s.tasks[t].phase.Done?
  }

  /** What is left in the map when all calls are done: exactly the hashes whose
      last strong-count check ran while another flight was still to drop its clone. */
  lemma {:induction false} LeftAtRest(hash: Bytes -> Hash, steps: seq<Step>, s: State)
    requires Run(hash, Initial(), steps) == Some(s) && AtRest(s)
    ensures forall h :: h in s.locks <==> h in s.overlapped
  {
    InitialOk(hash);
    RunKeeps(hash, Initial(), steps);
    assert forall t :: At(s, t) == Free;
  }

  /** Check and drop are one step: nothing comes between them. */
  predicate DropsAtOnce(steps: seq<Step>)
    decreases |steps|
  {
    steps == [] ||
    if steps[0].By? && steps[0].act.Prune? then
      |steps| >= 2 && steps[1] == By(steps[0].t, Drop) && DropsAtOnce(steps[2..])
    else
      DropsAtOnce(steps[1..])
  }

  ghost predicate NoneDropping(s: State) {
    s.overlapped == {} && forall t :: t in s.tasks ==> !s.tasks[t].phase.Dropping?
  }

  lemma {:induction false} StepDropsNone(hash: Bytes -> Hash, s: State, a: Step)
    requires NoneDropping(s) && Enabled(s, a) && !(a.By? && a.act.Prune?)
    ensures NoneDropping(Apply(hash, s, a))
  {
    if a.By? {
      ActDropsNone(hash, s, a.t, a.act);
    }
  }

  lemma {:induction false} ActDropsNone(hash: Bytes -> Hash, s: State, t: TaskId, act: Act)
    requires NoneDropping(s) && Enabled(s, By(t, act)) && !act.Prune?
    ensures NoneDropping(Act1(hash, s, t, act))
  {
    var s' := Act1(hash, s, t, act);
    assert t in s'.tasks && !s'.tasks[t].phase.Dropping?;
    assert forall t' :: t' in s'.tasks && t' != t ==> t' in s.tasks && s'.tasks[t'] == s.tasks[t'];
  }

  lemma {:induction false} PairDropsNone(hash: Bytes -> Hash, s: State, t: TaskId)
    requires NoneDropping(s) && Enabled(s, By(t, Prune))
    ensures var s1 := Act1(hash, s, t, Prune); Enabled(s1, By(t, Drop)) && NoneDropping(Act1(hash, s1, t, Drop))
  {
    var s1 := Act1(hash, s, t, Prune);
    var s2 := Act1(hash, s1, t, Drop);
    assert s2.tasks[t].phase.Done?;
    assert forall t' :: t' in s2.tasks && t' != t ==> t' in s.tasks && s2.tasks[t'] == s.tasks[t'];
  }

  lemma {:induction false} NoOverlap(hash: Bytes -> Hash, s: State, steps: seq<Step>)
    requires NoneDropping(s) && DropsAtOnce(steps) && Run(hash, s, steps).Some?
    ensures NoneDropping(Run(hash, s, steps).value)
    decreases |steps|
  {
    if steps != [] {
      var a := steps[0];
      if a.By? && a.act.Prune? {
        PairDropsNone(hash, s, a.t);
        assert steps[1..][0] == By(a.t, Drop) && steps[1..][1..] == steps[2..];
        NoOverlap(hash, Apply(hash, Apply(hash, s, a), By(a.t, Drop)), steps[2..]);
      } else {
        StepDropsNone(hash, s, a);
        NoOverlap(hash, Apply(hash, s, a), steps[1..]);
      }
    }
  }

  /** Then the map is empty at rest. */
  lemma {:induction false} EmptyAtRest(hash: Bytes -> Hash, steps: seq<Step>, s: State)
    requires Run(hash, Initial(), steps) == Some(s) && AtRest(s) && DropsAtOnce(steps)
    ensures s.locks == map[]
  {
    LeftAtRest(hash, steps, s);
    NoOverlap(hash, Initial(), steps);
  }

  // ------------------------------------------------------ a leaking run

  lemma {:induction false} RunOne(hash: Bytes -> Hash, s: State, a: Step, rest: seq<Step>, end: State)
    requires Enabled(s, a) && Run(hash, Apply(hash, s, a), rest) == Some(end)
    ensures Run(hash, s, [a] + rest) == Some(end)
  {
    assert ([a] + rest)[1..] == rest;
  }

  /** Two tasks on one hash, nothing cached and no lock owned. */
  function Pair(h: Hash, p0: Phase, p1: Phase, locks: map<Hash, LockId>, refs: map<LockId, nat>, next: LockId,
                overlapped: set<Hash>): State {
    State(map[0 := Task(h, p0), 1 := Task(h, p1)], locks, refs, map[], next, map[], map[], overlapped)
  }

  /** Two flights cancelled while they wait, each checking before either drops. */
  function LeakingRun(h: Hash): seq<Step> {
    [Spawn(0, h)] + ([Spawn(1, h)]
    + ([By(0, Look)] + ([By(1, Look)] + ([By(0, Enter)] + ([By(1, Enter)] + LeakingEnd())))))
  }

  function LeakingEnd(): seq<Step> {
    [By(0, Cancel)] + ([By(1, Cancel)] + ([By(0, Prune)] + ([By(1, Prune)] + ([By(0, Drop)] + ([By(1, Drop)] + [])))))
  }

  lemma {:induction false} MoveFirst(h: Hash, p0: Phase, p1: Phase, p: Phase, locks: map<Hash, LockId>,
                                     refs: map<LockId, nat>, next: LockId, ov: set<Hash>)
    ensures Move(Pair(h, p0, p1, locks, refs, next, ov), 0, p) == Pair(h, p, p1, locks, refs, next, ov)
  {
    assert map[0 := Task(h, p0), 1 := Task(h, p1)][0 := Task(h, p)] == map[0 := Task(h, p), 1 := Task(h, p1)];
  }

  lemma {:induction false} MoveSecond(h: Hash, p0: Phase, p1: Phase, p: Phase, locks: map<Hash, LockId>,
                                      refs: map<LockId, nat>, next: LockId, ov: set<Hash>)
    ensures Move(Pair(h, p0, p1, locks, refs, next, ov), 1, p) == Pair(h, p0, p, locks, refs, next, ov)
  {
    assert map[0 := Task(h, p0), 1 := Task(h, p1)][1 := Task(h, p)] == map[0 := Task(h, p0), 1 := Task(h, p)];
  }

  lemma {:induction false} LeakDrops(hash: Bytes -> Hash, h: Hash)
    ensures Run(hash, Pair(h, Dropping(0, Cancelled), Dropping(0, Cancelled), map[h := 0], map[0 := 3], 1, {h}),
            [By(0, Drop)] + ([By(1, Drop)] + []))
            == Some(Pair(h, Done(Cancelled), Done(Cancelled), map[h := 0], map[0 := 1], 1, {h}))
  {
    var c, locks := Cancelled, map[h := 0];
    var s0 := Pair(h, Dropping(0, c), Dropping(0, c), locks, map[0 := 3], 1, {h});
    var s1 := Pair(h, Done(c), Dropping(0, c), locks, map[0 := 2], 1, {h});
    var s2 := Pair(h, Done(c), Done(c), locks, map[0 := 1], 1, {h});
    MoveFirst(h, Dropping(0, c), Dropping(0, c), Done(c), locks, map[0 := 2], 1, {h});
    MoveSecond(h, Done(c), Dropping(0, c), Done(c), locks, map[0 := 1], 1, {h});
    assert map[0 := 3][0 := 2] == map[0 := 2] && map[0 := 2][0 := 1] == map[0 := 1];
    assert Apply(hash, s0, By(0, Drop)) == s1 && Apply(hash, s1, By(1, Drop)) == s2;
    RunOne(hash, s1, By(1, Drop), [], s2);
    RunOne(hash, s0, By(0, Drop), [By(1, Drop)] + [], s2);
  }

  lemma {:induction false} LeakPrunes(hash: Bytes -> Hash, h: Hash)
    ensures Run(hash, Pair(h, Pruning(0, Cancelled), Pruning(0, Cancelled), map[h := 0], map[0 := 3], 1, {}),
                [By(0, Prune)] + ([By(1, Prune)] + ([By(0, Drop)] + ([By(1, Drop)] + []))))
            == Some(Pair(h, Done(Cancelled), Done(Cancelled), map[h := 0], map[0 := 1], 1, {h}))
  {
    var c, locks, refs := Cancelled, map[h := 0], map[0 := 3];
    var s0 := Pair(h, Pruning(0, c), Pruning(0, c), locks, refs, 1, {});
    var s1 := Pair(h, Dropping(0, c), Pruning(0, c), locks, refs, 1, {});
    var s2 := Pair(h, Dropping(0, c), Dropping(0, c), locks, refs, 1, {h});
    var end := Pair(h, Done(c), Done(c), locks, map[0 := 1], 1, {h});
    LeakDrops(hash, h);
    MoveFirst(h, Pruning(0, c), Pruning(0, c), Dropping(0, c), locks, refs, 1, {});
    MoveSecond(h, Dropping(0, c), Pruning(0, c), Dropping(0, c), locks, refs, 1, {h});
    assert 0 in s1.tasks && s1.tasks[0].phase.Dropping? && Overlaps(s1, 0);
    assert !Overlaps(s0, 0);
    assert Apply(hash, s0, By(0, Prune)) == s1 && Apply(hash, s1, By(1, Prune)) == s2;
    RunOne(hash, s1, By(1, Prune), [By(0, Drop)] + ([By(1, Drop)] + []), end);
    RunOne(hash, s0, By(0, Prune), [By(1, Prune)] + ([By(0, Drop)] + ([By(1, Drop)] + [])), end);
  }

  lemma {:induction false} LeakCancels(hash: Bytes -> Hash, h: Hash)
    ensures Run(hash, Pair(h, Waiting(0), Waiting(0), map[h := 0], map[0 := 3], 1, {}), LeakingEnd())
            == Some(Pair(h, Done(Cancelled), Done(Cancelled), map[h := 0], map[0 := 1], 1, {h}))
  {
    var c, locks, refs := Cancelled, map[h := 0], map[0 := 3];
    var s0 := Pair(h, Waiting(0), Waiting(0), locks, refs, 1, {});
    var s1 := Pair(h, Pruning(0, c), Waiting(0), locks, refs, 1, {});
    var s2 := Pair(h, Pruning(0, c), Pruning(0, c), locks, refs, 1, {});
    var end := Pair(h, Done(c), Done(c), locks, map[0 := 1], 1, {h});
    var rest := [By(0, Prune)] + ([By(1, Prune)] + ([By(0, Drop)] + ([By(1, Drop)] + [])));
    LeakPrunes(hash, h);
    MoveFirst(h, Waiting(0), Waiting(0), Pruning(0, c), locks, refs, 1, {});
    MoveSecond(h, Pruning(0, c), Waiting(0), Pruning(0, c), locks, refs, 1, {});
    assert Apply(hash, s0, By(0, Cancel)) == s1 && Apply(hash, s1, By(1, Cancel)) == s2;
    RunOne(hash, s1, By(1, Cancel), rest, end);
    RunOne(hash, s0, By(0, Cancel), [By(1, Cancel)] + rest, end);
  }

  lemma {:induction false} LeakEnters(hash: Bytes -> Hash, h: Hash)
    ensures Run(hash, Pair(h, Missed, Missed, map[], map[], 0, {}), [By(0, Enter)] + ([By(1, Enter)] + LeakingEnd()))
            == Some(Pair(h, Done(Cancelled), Done(Cancelled), map[h := 0], map[0 := 1], 1, {h}))
  {
    var locks := map[h := 0];
    var s0 := Pair(h, Missed, Missed, map[], map[], 0, {});
    var s1 := Pair(h, Waiting(0), Missed, locks, map[0 := 2], 1, {});
    var s2 := Pair(h, Waiting(0), Waiting(0), locks, map[0 := 3], 1, {});
    var end := Pair(h, Done(Cancelled), Done(Cancelled), locks, map[0 := 1], 1, {h});
    LeakCancels(hash, h);
    MoveFirst(h, Missed, Missed, Waiting(0), locks, map[0 := 2], 1, {});
    MoveSecond(h, Waiting(0), Missed, Waiting(0), locks, map[0 := 3], 1, {});
    assert s0.locks[h := 0] == locks && s0.refs[0 := 2] == map[0 := 2] && map[0 := 2][0 := 3] == map[0 := 3];
    assert Apply(hash, s0, By(0, Enter)) == s1;
    assert Apply(hash, s1, By(1, Enter)) == s2;
    RunOne(hash, s1, By(1, Enter), LeakingEnd(), end);
    RunOne(hash, s0, By(0, Enter), [By(1, Enter)] + LeakingEnd(), end);
  }

  lemma {:induction false} LeakLooks(hash: Bytes -> Hash, h: Hash, rest: seq<Step>, end: State)
    requires Run(hash, Pair(h, Missed, Missed, map[], map[], 0, {}), rest) == Some(end)
    ensures Run(hash, Pair(h, Started, Started, map[], map[], 0, {}), [By(0, Look)] + ([By(1, Look)] + rest))
            == Some(end)
  {
    var s0 := Pair(h, Started, Started, map[], map[], 0, {});
    var s1 := Pair(h, Missed, Started, map[], map[], 0, {});
    MoveFirst(h, Started, Started, Missed, map[], map[], 0, {});
    MoveSecond(h, Missed, Started, Missed, map[], map[], 0, {});
    RunOne(hash, s1, By(1, Look), rest, end);
    RunOne(hash, s0, By(0, Look), [By(1, Look)] + rest, end);
  }

  lemma {:induction false} LeakSpawns(hash: Bytes -> Hash, h: Hash, rest: seq<Step>, end: State)
    requires Run(hash, Pair(h, Started, Started, map[], map[], 0, {}), rest) == Some(end)
    ensures Run(hash, Initial(), [Spawn(0, h)] + ([Spawn(1, h)] + rest)) == Some(end)
  {
    var s1 := Apply(hash, Initial(), Spawn(0, h));
    assert Apply(hash, s1, Spawn(1, h)) == Pair(h, Started, Started, map[], map[], 0, {});
    RunOne(hash, s1, Spawn(1, h), rest, end);
    RunOne(hash, Initial(), Spawn(0, h), [Spawn(1, h)] + rest, end);
  }

  /** With check and drop apart, two flights that both check before either
      drops see three clones each, and the entry stays behind at rest. */
  lemma {:induction false} CheckThenDropLeaks(hash: Bytes -> Hash, h: Hash) returns (s: State)
    ensures Run(hash, Initial(), LeakingRun(h)) == Some(s) && AtRest(s) && s.locks == map[h := 0]
            && !DropsAtOnce(LeakingRun(h))
  {
    s := Pair(h, Done(Cancelled), Done(Cancelled), map[h := 0], map[0 := 1], 1, {h});
    LeakEnters(hash, h);
    LeakLooks(hash, h, [By(0, Enter)] + ([By(1, Enter)] + LeakingEnd()), s);
    LeakSpawns(hash, h, [By(0, Look)] + ([By(1, Look)] + ([By(0, Enter)] + ([By(1, Enter)] + LeakingEnd()))), s);
    if DropsAtOnce(LeakingRun(h)) {
      EmptyAtRest(hash, LeakingRun(h), s);
    }
  }

  // ------------------------------------------------------------ the class

  /** The resolver's fields, changed one atomic section at a time. */
  class CasResolver {
    const hash: Bytes -> Hash
    var tasks: map<TaskId, Task>
    var locks: map<Hash, LockId>
    var refs: map<LockId, nat>
    var owner: map<LockId, TaskId>
    var nextLock: LockId
    var cache: map<Hash, Bytes>
    ghost var fetches: map<Hash, nat>
    ghost var overlapped: set<Hash>

    ghost function Get(): State
      reads this
    {
      State(tasks, locks, refs, owner, nextLock, cache, fetches, overlapped)
    }

    constructor (hash: Bytes -> Hash)
      ensures Get() == Initial() && this.hash == hash
    {
      this.hash := hash;
      tasks, locks, refs, owner, nextLock, cache := map[], map[], map[], map[], 0, map[];
      fetches, overlapped := map[], {};
    }

    method Resume(t: TaskId, p: Phase)
      requires t in tasks
      modifies this`tasks
      ensures Get() == Move(old(Get()), t, p)
    {
      tasks := tasks[t := tasks[t].(phase := p)];
    }

    /** The cache lookup of the fast path, and the double check inside the lock. */
    method LookUp(t: TaskId)
      requires Enabled(Get(), By(t, Look))
      modifies this`tasks
      ensures Get() == Apply(hash, old(Get()), By(t, Look))
    {
      var h, p := tasks[t].hash, tasks[t].phase;
      if h in cache {
        Resume(t, if p.Started? then Done(Ok(cache[h], Hit)) else Leaving(p.lock, Ok(cache[h], Hit)));
      } else if p.Started? {
        Resume(t, Missed);
      } else {
        Resume(t, Fetching(p.lock));
      }
    }

    method EnterFlight(t: TaskId)
      requires Enabled(Get(), By(t, Enter))
      modifies this`tasks, this`locks, this`refs, this`nextLock
      ensures Get() == Apply(hash, old(Get()), By(t, Enter))
    {
      var h := tasks[t].hash;
      var l;
      if h in locks {
        l := locks[h];
        refs := refs[l := (if l in refs then refs[l] else 0) + 1];
      } else {
        l := nextLock;
        locks, refs, nextLock := locks[h := l], refs[l := 2], l + 1;
      }
      Resume(t, Waiting(l));
    }

    method TakeLock(t: TaskId)
      requires Enabled(Get(), By(t, Acquire))
      modifies this`tasks, this`owner
      ensures Get() == Apply(hash, old(Get()), By(t, Acquire))
    {
      var l := tasks[t].phase.lock;
      owner := owner[l := t];
      Resume(t, Holding(l));
    }

    /** The fetched bytes are trusted only if they hash to the request. */
    method Verify(t: TaskId, bytes: Bytes)
      requires Enabled(Get(), By(t, FetchReturns(bytes)))
      modifies this`tasks
      ensures Get() == Apply(hash, old(Get()), By(t, FetchReturns(bytes)))
    {
      var l := tasks[t].phase.lock;
      if hash(bytes) != tasks[t].hash {
        Resume(t, Leaving(l, Failed));
      } else {
        Resume(t, Verified(l, bytes));
      }
    }

    method StoreObject(t: TaskId)
      requires Enabled(Get(), By(t, Store))
      modifies this`tasks, this`cache, this`fetches
      ensures Get() == Apply(hash, old(Get()), By(t, Store))
    {
      var h, p := tasks[t].hash, tasks[t].phase;
      cache := cache[hash(p.bytes) := p.bytes];
      fetches := fetches[h := Fetches(Get(), h) + 1];
      Resume(t, Leaving(p.lock, Ok(p.bytes, Fetched)));
    }

    method ReleaseLock(t: TaskId)
      requires Enabled(Get(), By(t, Release))
      modifies this`tasks, this`owner
      ensures Get() == Apply(hash, old(Get()), By(t, Release))
    {
      var p := tasks[t].phase;
      owner := owner - {p.lock};
      Resume(t, Pruning(p.lock, p.out));
    }

    method DeleteEntry(h: Hash)
      modifies this`locks, this`refs
      ensures Get() == RemoveEntry(old(Get()), h)
    {
      if h in locks {
        var l := locks[h];
        locks := locks - {h};
        refs := refs[l := SatSub(if l in refs then refs[l] else 0, 1)];
      }
    }

    /** The guard: prune the entry when the count says map and guard are the only holders. */
    method PruneEntry(t: TaskId)
      requires Enabled(Get(), By(t, Prune))
      modifies this`tasks, this`locks, this`refs, this`overlapped
      ensures Get() == Apply(hash, old(Get()), By(t, Prune))
    {
      var h, p := tasks[t].hash, tasks[t].phase;
      overlapped := if Overlaps(Get(), p.lock) then overlapped + {h} else overlapped - {h};
      var count := if p.lock in refs then refs[p.lock] else 0;
      if count <= 2 {
        DeleteEntry(h);
      }
      Resume(t, Dropping(p.lock, p.out));
    }

    method DropClone(t: TaskId)
      requires Enabled(Get(), By(t, Drop))
      modifies this`tasks, this`refs
      ensures Get() == Apply(hash, old(Get()), By(t, Drop))
    {
      var p := tasks[t].phase;
      refs := refs[p.lock := SatSub(if p.lock in refs then refs[p.lock] else 0, 1)];
      Resume(t, Done(p.out));
    }
  }
}
