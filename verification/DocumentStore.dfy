/** The client's document cache: a map of documents, a most-recently-used list
    and LRU eviction, with the sync generation that marks documents stale. */
module DocumentStore {
  import opened Prelude

  type ContextId = nat

  const MAX_CACHED: nat := 8
  const U64: nat := 0x1_0000_0000_0000_0000

  /** A cached document; what the replicated text holds is opaque here. */
  datatype Doc = Doc(content: nat, syncedAt: nat)

  datatype Store = Store(
    documents: map<ContextId, Doc>, active: Option<ContextId>, mru: seq<ContextId>, generation: nat)

  function Empty(): Store {
    Store(map[], None, [], 0)
  }

  function Without(ids: seq<ContextId>, id: ContextId): seq<ContextId> {
    if ids == [] then [] else (if ids[0] == id then [] else [ids[0]]) + Without(ids[1..], id)
  }

  /** The last id in the list that is not the active one. */
  function LastOther(ids: seq<ContextId>, active: Option<ContextId>): Option<ContextId>
    decreases |ids|
  {
    if ids == [] then None
    else if Some(ids[|ids| - 1]) != active then Some(ids[|ids| - 1])
    else LastOther(ids[..|ids| - 1], active)
  }

  function TouchMru(s: Store, id: ContextId): Store {
    s.(mru := [id] + Without(s.mru, id))
  }

  function EvictLru(s: Store): Store {
    match LastOther(s.mru, s.active)
    case None => s
    case Some(id) => s.(documents := s.documents - {id}, mru := Without(s.mru, id))
  }

  function InsertDoc(s: Store, id: ContextId, doc: Doc): Store {
    var s1 := if |s.documents| >= MAX_CACHED then EvictLru(s) else s;
    TouchMru(s1.(documents := s1.documents[id := doc]), id)
  }

  function Activate(s: Store, id: ContextId): Store {
    TouchMru(s.(active := Some(id)), id)
  }

  function Bump(s: Store): Store {
    s.(generation := (s.generation + 1) % U64)
  }

  datatype Effect = Updated(content: nat) | NeedsResync | Ignored

  function ApplyEvent(s: Store, id: ContextId, e: Effect): Store {
    if id !in s.documents || e.Ignored? then s
    else if e.Updated? then s.(documents := s.documents[id := Doc(e.content, s.generation)])
    else Bump(s.(documents := s.documents[id := s.documents[id].(syncedAt := 0)]))
  }

  /** A fetched state merges into `content`, or is refused. */
  function ApplySync(s: Store, id: ContextId, content: Option<nat>): Store {
    if content.None? then s
    else if id in s.documents then s.(documents := s.documents[id := Doc(content.value, s.generation)])
    else InsertDoc(s, id, Doc(content.value, s.generation))
  }

  function MarkSynced(s: Store, id: ContextId): Store {
    if id in s.documents then s.(documents := s.documents[id := s.documents[id].(syncedAt := s.generation)]) else s
  }

  predicate IsStale(s: Store, id: ContextId) {
    id in s.documents && s.documents[id].syncedAt < s.generation
  }

  function StaleActive(s: Store): (r: Option<ContextId>)
    ensures r.Some? ==> s.active == r && IsStale(s, r.value)
    ensures s.active.Some? && IsStale(s, s.active.value) ==> r.Some?
  {
    if s.active.Some? && IsStale(s, s.active.value) then s.active else None
  }

  // ------------------------------------------------------------ agreement

  predicate NoTwice(ids: seq<ContextId>) {
    forall i, j :: 0 <= i < j < |ids| ==> ids[i] != ids[j]
  }

  /** The recency list lists exactly the cached ids, each once, the cache is
      within its bound and the active document is cached. */
  ghost predicate Agrees(s: Store) {
    && NoTwice(s.mru)
    && (forall id :: id in s.mru <==> id in s.documents)
    && |s.documents| <= MAX_CACHED
    && (s.active.Some? ==> s.active.value in s.documents)
  }

  lemma {:induction false} WithoutMembers(ids: seq<ContextId>, id: ContextId)
    ensures forall x :: x in Without(ids, id) <==> x in ids && x != id
  {
    if ids != [] {
      WithoutMembers(ids[1..], id);
      assert ids == [ids[0]] + ids[1..];
    }
  }

  lemma {:induction false} WithoutNoTwice(ids: seq<ContextId>, id: ContextId)
    requires NoTwice(ids)
    ensures NoTwice(Without(ids, id))
  {
    if ids != [] {
      var tail, rest := ids[1..], Without(ids[1..], id);
      WithoutNoTwice(tail, id);
      WithoutMembers(tail, id);
      forall j | 0 <= j < |rest|
        ensures rest[j] != ids[0]
      {
        assert rest[j] in rest;
        var k :| 0 <= k < |tail| && tail[k] == rest[j];
        assert ids[k + 1] == rest[j];
      }
    }
  }

  /** Touching puts an id in front and drops it elsewhere. */
  lemma {:induction false} TouchLists(s: Store, id: ContextId)
    requires NoTwice(s.mru)
    ensures NoTwice(TouchMru(s, id).mru)
    ensures forall x :: x in TouchMru(s, id).mru <==> x == id || x in s.mru
  {
    var rest := Without(s.mru, id);
    WithoutMembers(s.mru, id);
    WithoutNoTwice(s.mru, id);
    forall j | 0 <= j < |rest|
      ensures rest[j] != id
    {
      assert rest[j] in rest;
    }
  }

  lemma {:induction false} LastOtherIs(ids: seq<ContextId>, active: Option<ContextId>)
    ensures LastOther(ids, active).None? ==> forall i :: 0 <= i < |ids| ==> Some(ids[i]) == active
    ensures LastOther(ids, active).Some? ==> LastOther(ids, active) != active
    ensures LastOther(ids, active).Some? ==>
              exists k :: 0 <= k < |ids| && Some(ids[k]) == LastOther(ids, active)
                          && forall i :: k < i < |ids| ==> Some(ids[i]) == active
    decreases |ids|
  {
    if ids != [] {
      if Some(ids[|ids| - 1]) == active {
        LastOtherIs(ids[..|ids| - 1], active);
      } else {
        assert Some(ids[|ids| - 1]) == LastOther(ids, active);
      }
    }
  }

  /** There is a victim unless only the active document is cached. */
  lemma {:induction false} VictimIsCached(s: Store)
    requires Agrees(s)
    ensures match LastOther(s.mru, s.active)
            case None => forall u :: u in s.documents ==> Some(u) == s.active
            case Some(v) => v in s.documents && Some(v) != s.active
  {
    LastOtherIs(s.mru, s.active);
    if LastOther(s.mru, s.active).None? {
      forall u | u in s.documents
        ensures Some(u) == s.active
      {
        assert u in s.mru;
      }
    }
  }

  lemma {:induction false} Fewer(m: map<ContextId, Doc>, id: ContextId)
    requires id in m
    ensures |m - {id}| == |m| - 1
  {
    assert (m - {id}).Keys == m.Keys - {id};
  }

  lemma {:induction false} AtMostOneMore(m: map<ContextId, Doc>, id: ContextId, doc: Doc)
    ensures |m[id := doc]| == if id in m then |m| else |m| + 1
  {
    assert m[id := doc].Keys == m.Keys + {id};
  }

  lemma {:induction false} OnlyActive(s: Store)
    requires forall u :: u in s.documents ==> Some(u) == s.active
    ensures |s.documents| <= 1
  {
    if s.active.Some? {
      assert s.documents.Keys <= {s.active.value};
      SubsetSize(s.documents.Keys, {s.active.value});
    } else {
      assert s.documents.Keys == {};
    }
  }

  /** Eviction removes exactly the victim, never the active document, and at
      capacity there always is one. */
  lemma {:induction false} EvictAgrees(s: Store)
    requires Agrees(s)
    ensures Agrees(EvictLru(s))
    ensures |s.documents| >= MAX_CACHED ==> |EvictLru(s).documents| == |s.documents| - 1
  {
    VictimIsCached(s);
    match LastOther(s.mru, s.active)
    case None => OnlyActive(s);
    case Some(v) =>
      Fewer(s.documents, v);
      WithoutMembers(s.mru, v);
      WithoutNoTwice(s.mru, v);
  }

  lemma {:induction false} InsertAgrees(s: Store, id: ContextId, doc: Doc)
    requires Agrees(s)
    ensures Agrees(InsertDoc(s, id, doc))
  {
    EvictAgrees(s);
    var s1 := if |s.documents| >= MAX_CACHED then EvictLru(s) else s;
    AtMostOneMore(s1.documents, id, doc);
    TouchLists(s1.(documents := s1.documents[id := doc]), id);
  }

  /** Activating keeps agreement exactly for cached ids. */
  lemma {:induction false} ActivateAgrees(s: Store, id: ContextId)
    requires Agrees(s)
    ensures Agrees(Activate(s, id)) <==> id in s.documents
  {
    TouchLists(s.(active := Some(id)), id);
    assert id in Activate(s, id).mru;
  }

  lemma {:induction false} ReplaceAgrees(s: Store, id: ContextId, doc: Doc, generation: nat)
    requires Agrees(s) && id in s.documents
    ensures Agrees(s.(documents := s.documents[id := doc], generation := generation))
  {
    AtMostOneMore(s.documents, id, doc);
  }

  // ----------------------------------------------------------------- runs

  datatype Step =
    | Insert(id: ContextId, doc: Doc)
    | SetActive(id: ContextId)
    | BumpGeneration
    | ServerEvent(id: ContextId, effect: Effect)
    | Sync(id: ContextId, content: Option<nat>)
    | Mark(id: ContextId)

  function Apply(s: Store, a: Step): Store {
    match a
    case Insert(id, doc) => InsertDoc(s, id, doc)
    case SetActive(id) => Activate(s, id)
    case BumpGeneration => Bump(s)
    case ServerEvent(id, e) => ApplyEvent(s, id, e)
    case Sync(id, content) => ApplySync(s, id, content)
    case Mark(id) => MarkSynced(s, id)
  }

  function Run(s: Store, steps: seq<Step>): Store
    decreases |steps|
  {
    if steps == [] then s else Run(Apply(s, steps[0]), steps[1..])
  }

  /** Every id activated along the run is cached when it is activated. */
  predicate OnlyCachedActivated(s: Store, steps: seq<Step>)
    decreases |steps|
  {
    steps == [] ||
    ((steps[0].SetActive? ==> steps[0].id in s.documents) && OnlyCachedActivated(Apply(s, steps[0]), steps[1..]))
  }

  /** Agreement at every point of the run. */
  ghost predicate AlwaysAgrees(s: Store, steps: seq<Step>)
    decreases |steps|
  {
    Agrees(s) && (steps == [] || AlwaysAgrees(Apply(s, steps[0]), steps[1..]))
  }

  lemma {:induction false} StepAgrees(s: Store, a: Step)
    requires Agrees(s)
    ensures Agrees(Apply(s, a)) <==> (a.SetActive? ==> a.id in s.documents)
  {
    match a
    case Insert(id, doc) => InsertAgrees(s, id, doc);
    case SetActive(id) => ActivateAgrees(s, id);
    case BumpGeneration =>
    case ServerEvent(id, e) =>
      if id in s.documents && !e.Ignored? {
        var s' := ApplyEvent(s, id, e);
        ReplaceAgrees(s, id, s'.documents[id], s'.generation);
      }
    case Sync(id, content) =>
      if content.Some? {
        if id in s.documents {
          ReplaceAgrees(s, id, Doc(content.value, s.generation), s.generation);
        } else {
          InsertAgrees(s, id, Doc(content.value, s.generation));
        }
      }
    case Mark(id) =>
      if id in s.documents {
        ReplaceAgrees(s, id, s.documents[id].(syncedAt := s.generation), s.generation);
      }
  }

  /** List and cache agree throughout a run exactly when only cached ids are activated. */
  lemma {:induction false} LruAgreement(s: Store, steps: seq<Step>)
    requires Agrees(s)
    ensures AlwaysAgrees(s, steps) <==> OnlyCachedActivated(s, steps)
    decreases |steps|
  {
    if steps != [] {
      StepAgrees(s, steps[0]);
      var s1 := Apply(s, steps[0]);
      if Agrees(s1) {
        LruAgreement(s1, steps[1..]);
      } else {
        assert !AlwaysAgrees(s1, steps[1..]);
      }
    }
  }

  // --------------------------------------------- an uncached id activated

  /** At capacity, inserting a new id keeps to the bound exactly when the
      victim is a cached document. */
  lemma {:induction false} BoundNeedsARealVictim(s: Store, id: ContextId, doc: Doc)
    requires |s.documents| == MAX_CACHED && id !in s.documents
    ensures |InsertDoc(s, id, doc).documents| <= MAX_CACHED
            <==> LastOther(s.mru, s.active).Some? && LastOther(s.mru, s.active).value in s.documents
  {
    var s1 := EvictLru(s);
    AtMostOneMore(s1.documents, id, doc);
    match LastOther(s.mru, s.active)
    case None =>
    case Some(v) =>
      if v in s.documents {
        Fewer(s.documents, v);
      } else {
        assert s.documents - {v} == s.documents;
      }
  }

  function Inserts(from: nat, n: nat): seq<Step>
    decreases n
  {
    if n == 0 then [] else [Insert(from, Doc(0, 0))] + Inserts(from + 1, n - 1)
  }

  function Down(n: nat): seq<ContextId> {
    if n == 0 then [0] else [n] + Down(n - 1)
  }

  ghost predicate FilledTo(s: Store, n: nat) {
    s.mru == Down(n) && s.active == Some(0) && |s.documents| == n && forall id :: id in s.documents <==> 1 <= id <= n
  }

  lemma {:induction false} DownMembers(n: nat)
    ensures forall x :: x in Down(n) <==> 0 <= x <= n
  {
    if n > 0 {
      DownMembers(n - 1);
      assert forall x :: x in Down(n) <==> x == n || x in Down(n - 1);
    } else {
      assert forall x :: x in Down(n) <==> x == 0;
    }
  }

  lemma {:induction false} WithoutAbsent(ids: seq<ContextId>, id: ContextId)
    requires id !in ids
    ensures Without(ids, id) == ids
  {
    if ids != [] {
      WithoutAbsent(ids[1..], id);
      assert [ids[0]] + ids[1..] == ids;
    }
  }

  lemma {:induction false} FillStep(s: Store, n: nat)
    requires FilledTo(s, n) && n < MAX_CACHED
    ensures FilledTo(InsertDoc(s, n + 1, Doc(0, 0)), n + 1)
  {
    DownMembers(n);
    WithoutAbsent(s.mru, n + 1);
    AtMostOneMore(s.documents, n + 1, Doc(0, 0));
  }

  lemma {:induction false} Fill(s: Store, n: nat, more: nat)
    requires FilledTo(s, n) && n + more <= MAX_CACHED
    ensures FilledTo(Run(s, Inserts(n + 1, more)), n + more)
    decreases more
  {
    if more > 0 {
      FillStep(s, n);
      assert Inserts(n + 1, more)[1..] == Inserts(n + 2, more - 1);
      Fill(InsertDoc(s, n + 1, Doc(0, 0)), n + 1, more - 1);
    }
  }

  lemma {:induction false} RunConcat(s: Store, xs: seq<Step>, ys: seq<Step>)
    ensures Run(s, xs + ys) == Run(Run(s, xs), ys)
    decreases |xs|
  {
    if xs == [] {
      assert xs + ys == ys;
    } else {
      assert (xs + ys)[1..] == xs[1..] + ys;
      RunConcat(Apply(s, xs[0]), xs[1..], ys);
    }
  }

  lemma {:induction false} DownEnds(n: nat)
    ensures |Down(n)| > 0 && Down(n)[|Down(n)| - 1] == 0
  {
    if n > 0 {
      DownEnds(n - 1);
    }
  }

  lemma {:induction false} WithoutEnds(ids: seq<ContextId>, id: ContextId)
    requires ids != [] && ids[|ids| - 1] != id
    ensures Without(ids, id) != [] && Without(ids, id)[|Without(ids, id)| - 1] == ids[|ids| - 1]
  {
    if |ids| > 1 {
      WithoutEnds(ids[1..], id);
    } else {
      assert ids[1..] == [];
    }
  }

  /** The phantom is last in the list once another id is active. */
  lemma {:induction false} PhantomIsVictim(s: Store, n: nat)
    requires FilledTo(s, n)
    ensures var s' := Activate(s, 1); LastOther(s'.mru, s'.active) == Some(0)
  {
    DownEnds(n);
    WithoutEnds(s.mru, 1);
  }

  lemma {:induction false} NinthDocument(s: Store, n: nat)
    requires FilledTo(s, n) && n == MAX_CACHED
    ensures |InsertDoc(Activate(s, 1), n + 1, Doc(0, 0)).documents| == n + 1
  {
    var s' := Activate(s, 1);
    PhantomIsVictim(s, n);
    assert s'.documents - {0} == s'.documents;
    AtMostOneMore(s'.documents, n + 1, Doc(0, 0));
  }

  /** Activate an id that is not cached, fill the cache, move on: the next
      insert "evicts" the id that was never there and leaves nine documents. */
  lemma {:induction false} UncachedActivationOverflows(n: nat)
    requires n == MAX_CACHED
    ensures |Run(Empty(), [SetActive(0)] + Inserts(1, n) + [SetActive(1), Insert(n + 1, Doc(0, 0))]).documents| == n + 1
  {
    var s0 := Apply(Empty(), SetActive(0));
    PhantomFirst(s0);
    RunConcat(Empty(), [SetActive(0)] + Inserts(1, n), [SetActive(1), Insert(n + 1, Doc(0, 0))]);
    RunConcat(Empty(), [SetActive(0)], Inserts(1, n));
    Fill(s0, 0, n);
    var full := Run(s0, Inserts(1, n));
    NinthDocument(full, n);
    TwoSteps(full, n + 1);
  }

  lemma {:induction false} PhantomFirst(s0: Store)
    requires s0 == Apply(Empty(), SetActive(0))
    ensures Run(Empty(), [SetActive(0)]) == s0 && FilledTo(s0, 0)
  {
    assert [SetActive(0)][1..] == [];
  }

  lemma {:induction false} TwoSteps(s: Store, id: ContextId)
    ensures Run(s, [SetActive(1), Insert(id, Doc(0, 0))]) == InsertDoc(Activate(s, 1), id, Doc(0, 0))
  {
    var steps := [SetActive(1), Insert(id, Doc(0, 0))];
    var s1 := Activate(s, 1);
    assert steps[1..] == [Insert(id, Doc(0, 0))] && steps[1..][1..] == [];
    assert Run(s, steps) == Run(Apply(s, steps[0]), steps[1..]) == Run(s1, steps[1..]);
    assert Run(s1, steps[1..]) == Run(Apply(s1, steps[1..][0]), steps[1..][1..]);
  }

  // ------------------------------------------------------------ staleness

  /** Bumping the generation marks every cached document stale, exactly as long
      as the counter does not wrap. */
  lemma {:induction false} BumpMakesStale(s: Store)
    requires s.generation < U64 && s.documents != map[] && forall id :: id in s.documents
                                                                        ==> s.documents[id].syncedAt <= s.generation
    ensures (forall id :: id in s.documents ==> IsStale(Bump(s), id)) <==> s.generation < U64 - 1
  {
    if s.generation == U64 - 1 {
      assert s.documents.Keys != {};
      var id :| id in s.documents;
      assert !IsStale(Bump(s), id);
    }
  }

  // ------------------------------------------------------------ the class

  class Documents {
    var documents: map<ContextId, Doc>
    var active: Option<ContextId>
    var mru: seq<ContextId>
    var generation: nat

    ghost function Get(): Store
      reads this
    {
      Store(documents, active, mru, generation)
    }

    constructor ()
      ensures Get() == Empty() && Agrees(Get())
    {
      documents, active, mru, generation := map[], None, [], 0;
    }

    method Touch(id: ContextId)
      modifies this`mru
      ensures Get() == TouchMru(old(Get()), id)
    {
      mru := [id] + Without(mru, id);
    }

    method Evict()
      modifies this`documents, this`mru
      ensures Get() == EvictLru(old(Get()))
    {
      var i := |mru|;
      assert mru[..i] == mru;
      while i > 0 && active == Some(mru[i - 1])
        invariant 0 <= i <= |mru| && LastOther(mru[..i], active) == LastOther(mru, active)
        invariant Get() == old(Get())
      {
        assert mru[..i][..i - 1] == mru[..i - 1];
        i := i - 1;
      }
      if i > 0 {
        var id := mru[i - 1];
        documents := documents - {id};
        mru := Without(mru, id);
      }
    }

    method Put(id: ContextId, doc: Doc)
      modifies this
      ensures Get() == InsertDoc(old(Get()), id, doc)
      ensures old(Agrees(Get())) ==> Agrees(Get())
    {
      if Agrees(Get()) {
        InsertAgrees(Get(), id, doc);
      }
      if |documents| >= MAX_CACHED {
        Evict();
      }
      documents := documents[id := doc];
      Touch(id);
    }

    /** Activation is only for cached ids if list and cache are to agree. */
    method Show(id: ContextId) returns (previous: Option<ContextId>)
      modifies this
      ensures Get() == Activate(old(Get()), id) && previous == old(active)
      ensures old(Agrees(Get())) ==> (Agrees(Get()) <==> id in documents)
    {
      if Agrees(Get()) {
        ActivateAgrees(Get(), id);
      }
      previous := active;
      active := Some(id);
      Touch(id);
    }

    method ReceiveEvent(id: ContextId, e: Effect)
      modifies this`documents, this`generation
      ensures Get() == ApplyEvent(old(Get()), id, e)
    {
      if id in documents {
        match e
        case Updated(content) => documents := documents[id := Doc(content, generation)];
        case NeedsResync =>
          documents := documents[id := documents[id].(syncedAt := 0)];
          generation := (generation + 1) % U64;
        case Ignored =>
      }
    }

    method ReceiveSync(id: ContextId, content: Option<nat>) returns (inserted: bool)
      modifies this
      ensures Get() == ApplySync(old(Get()), id, content)
      ensures old(Agrees(Get())) ==> Agrees(Get())
      ensures inserted == (content.Some? && id !in old(documents))
    {
      if Agrees(Get()) {
        StepAgrees(Get(), Sync(id, content));
      }
      inserted := false;
      if content.Some? {
        if id in documents {
          documents := documents[id := Doc(content.value, generation)];
        } else {
          Put(id, Doc(content.value, generation));
          inserted := true;
        }
      }
    }
  }
}
