/** The document cache told from its history: which documents the steps have left
    in it, in which order of use, and what they hold. */
module DocumentHistory {
  import opened Prelude
  import opened DocumentStore

  /** The document a step uses: inserts, shows, or first gets from the server. */
  ghost function UsedBy(steps: seq<Step>, k: nat): Option<ContextId>
    requires k < |steps|
    decreases |steps|, 1
  {
    match steps[k]
    case Insert(id, _) => Some(id)
    case SetActive(id) => Some(id)
    case Sync(id, content) => if content.Some? && id !in Cached(steps[..k]) then Some(id) else None
    case _ => None
  }

  /** The index of the last step that used a document, or -1. */
  ghost function LastUse(steps: seq<Step>, id: ContextId): (t: int)
    ensures -1 <= t < |steps|
    decreases |steps|, 2
  {
    if steps == [] then -1
    else
      var n := |steps| - 1;
      if UsedBy(steps, n) == Some(id) then n else LastUse(steps[..n], id)
  }

  /** The document shown last. */
  function Shown(steps: seq<Step>): Option<ContextId>
    decreases |steps|
  {
    if steps == [] then None
    else
      var n := |steps| - 1;
      if steps[n].SetActive? then Some(steps[n].id) else Shown(steps[..n])
  }

  /** A cached document other than the one shown, used longest ago. */
  ghost predicate IsOldest(steps: seq<Step>, v: ContextId)
    decreases |steps|, 3
  {
    Oldest(Cached(steps), Shown(steps), (u: ContextId) => LastUse(steps, u), v)
  }

  ghost predicate Oldest(ids: set<ContextId>, but: Option<ContextId>, use: ContextId -> int, v: ContextId) {
    && v in ids && Some(v) != but
    && forall u :: u in ids && Some(u) != but ==> use(v) <= use(u)
  }

  /** Which documents are cached after some steps: the new one takes the place
      of the oldest when there are eight. */
  ghost function Cached(steps: seq<Step>): set<ContextId>
    decreases |steps|, 0
  {
    if steps == [] then {}
    else
      var n := |steps| - 1;
      var was := Cached(steps[..n]);
      if !(steps[n].Insert? || (steps[n].Sync? && steps[n].content.Some? && steps[n].id !in was)) then was
      else
        (if |was| < MAX_CACHED then was else Younger(steps[..n])) + {steps[n].id}
  }

  /** How often the cache was told to resync, as its counter counts. */
  ghost function Generation(steps: seq<Step>): nat
    decreases |steps|
  {
    if steps == [] then 0
    else
      var n := |steps| - 1;
      var g := Generation(steps[..n]);
      var a := steps[n];
      if a.BumpGeneration? || (a.ServerEvent? && a.effect.NeedsResync? && a.id in Cached(steps[..n]))
      then (g + 1) % U64 else g
  }

  /** What the last step that wrote a document wrote into it. */
  function Written(steps: seq<Step>, id: ContextId): nat
    decreases |steps|
  {
    if steps == [] then 0
    else
      var n := |steps| - 1;
      match steps[n]
      case Insert(x, doc) => if x == id then doc.content else Written(steps[..n], id)
      case ServerEvent(x, Updated(content)) => if x == id then content else Written(steps[..n], id)
      case Sync(x, Some(content)) => if x == id then content else Written(steps[..n], id)
      case _ => Written(steps[..n], id)
  }

  /** The generation a document was last brought up to: 0 after a resync was
      asked for, and what it came with when inserted. */
  ghost function UpTo(steps: seq<Step>, id: ContextId): nat
    decreases |steps|
  {
    if steps == [] then 0
    else
      var n := |steps| - 1;
      match steps[n]
      case Insert(x, doc) => if x == id then doc.syncedAt else UpTo(steps[..n], id)
      case ServerEvent(x, Updated(_)) => if x == id then Generation(steps[..n]) else UpTo(steps[..n], id)
      case ServerEvent(x, NeedsResync) => if x == id then 0 else UpTo(steps[..n], id)
      case Sync(x, Some(_)) => if x == id then Generation(steps[..n]) else UpTo(steps[..n], id)
      case Mark(x) => if x == id then Generation(steps[..n]) else UpTo(steps[..n], id)
      case _ => UpTo(steps[..n], id)
  }

  /** Used later first. */
  ghost predicate ByUse(ids: seq<ContextId>, steps: seq<Step>) {
    forall i, j :: 0 <= i < j < |ids| ==> LastUse(steps, ids[i]) > LastUse(steps, ids[j])
  }

  /** The store is what the history says: the cached documents with what was
      last written into them, listed by last use, the one shown last, the
      generation. */
  ghost predicate Tells(steps: seq<Step>, s: Store) {
    && s.documents.Keys == Cached(steps) && s.active == Shown(steps) && s.generation == Generation(steps)
    && (forall id :: id in s.documents ==> s.documents[id] == Doc(Written(steps, id), UpTo(steps, id)))
    && ByUse(s.mru, steps)
  }

  lemma {:induction false} WithoutByUse(ids: seq<ContextId>, id: ContextId, steps: seq<Step>)
    requires ByUse(ids, steps)
    ensures ByUse(Without(ids, id), steps)
  {
    if ids != [] {
      var tail, rest := ids[1..], Without(ids[1..], id);
      assert ByUse(tail, steps);
      WithoutByUse(tail, id, steps);
      WithoutMembers(tail, id);
      if ids[0] != id {
        forall j | 0 <= j < |rest|
          ensures LastUse(steps, ids[0]) > LastUse(steps, rest[j])
        {
          assert rest[j] in rest;
          var k :| 0 <= k < |tail| && tail[k] == rest[j];
          assert ids[k + 1] == rest[j];
        }
      }
    }
  }

  /** A step that uses id moves it to the front. */
  lemma {:induction false} UseMovesToFront(h: seq<Step>, a: Step, ids: seq<ContextId>, id: ContextId)
    requires ByUse(ids, h) && UsedBy(h + [a], |h|) == Some(id)
    ensures ByUse([id] + Without(ids, id), h + [a])
  {
    var steps, rest := h + [a], Without(ids, id);
    assert steps[..|h|] == h;
    WithoutMembers(ids, id);
    WithoutByUse(ids, id, h);
    forall j | 0 <= j < |rest|
      ensures LastUse(steps, rest[j]) == LastUse(h, rest[j]) < |h|
    {
      assert rest[j] in rest;
    }
    assert LastUse(steps, id) == |h|;
  }

  /** A step that uses nothing leaves the order. */
  lemma {:induction false} OrderStays(h: seq<Step>, a: Step, ids: seq<ContextId>)
    requires ByUse(ids, h) && UsedBy(h + [a], |h|) == None
    ensures ByUse(ids, h + [a])
  {
    assert (h + [a])[..|h|] == h;
  }

  lemma {:induction false} LastIsOldest(ids: seq<ContextId>, all: set<ContextId>, but: Option<ContextId>,
                                        use: ContextId -> int)
    requires forall i, j :: 0 <= i < j < |ids| ==> use(ids[i]) > use(ids[j])
    requires forall u :: u in ids <==> u in all
    ensures forall v: ContextId :: LastOther(ids, but) == Some(v) <==> Oldest(all, but, use, v)
  {
    LastOtherIs(ids, but);
    match LastOther(ids, but)
    case None =>
      forall u | u in all
        ensures Some(u) == but
      {
        assert u in ids;
      }
    case Some(v) =>
      var k :| 0 <= k < |ids| && ids[k] == v && forall i :: k < i < |ids| ==> Some(ids[i]) == but;
      assert ids[k] in ids;
      forall u | u in all && Some(u) != but
        ensures u == v || use(v) < use(u)
      {
        var i :| 0 <= i < |ids| && ids[i] == u;
        assert i <= k;
      }
  }

  /** The victim is the cached document, other than the one shown, that was
      used longest ago; there is none only if just that one is cached. */
  lemma {:induction false} VictimIsOldest(steps: seq<Step>, s: Store)
    requires Tells(steps, s) && Agrees(s)
    ensures forall v: ContextId :: LastOther(s.mru, s.active) == Some(v) <==> IsOldest(steps, v)
  {
    LastIsOldest(s.mru, Cached(steps), Shown(steps), (u: ContextId) => LastUse(steps, u));
  }

  /** The cached documents but the oldest. */
  ghost function Younger(steps: seq<Step>): set<ContextId>
    decreases |steps|, 4
  {
    set u | u in Cached(steps) && !IsOldest(steps, u)
  }

  /** Making room, as the history says. */
  lemma {:induction false} EvictTells(h: seq<Step>, s: Store)
    requires Tells(h, s) && Agrees(s)
    ensures EvictLru(s).documents.Keys == Younger(h) && ByUse(EvictLru(s).mru, h)
    ensures forall id :: id in EvictLru(s).documents ==>
              id in s.documents && EvictLru(s).documents[id] == s.documents[id]
  {
    VictimIsOldest(h, s);
    var victim := LastOther(s.mru, s.active);
    OnlyVictim(h, s.documents.Keys, victim);
    if victim.Some? {
      WithoutByUse(s.mru, victim.value, h);
      assert (s.documents - {victim.value}).Keys == s.documents.Keys - {victim.value};
    }
  }

  lemma {:induction false} OnlyVictim(h: seq<Step>, keys: set<ContextId>, victim: Option<ContextId>)
    requires keys == Cached(h) && forall v: ContextId :: victim == Some(v) <==> IsOldest(h, v)
    ensures Younger(h) == if victim.None? then keys else keys - {victim.value}
  {
    forall u: ContextId
      ensures u in Younger(h) <==> u in keys && victim != Some(u)
    {
      assert victim == Some(u) <==> IsOldest(h, u);
    }
  }

  /** A step that brings in a document. */
  ghost predicate BringsIn(h: seq<Step>, a: Step) {
    a.Insert? || (a.Sync? && a.content.Some? && a.id !in Cached(h))
  }

  lemma {:induction false} CachedAfter(h: seq<Step>, a: Step)
    ensures Cached(h + [a]) ==
            if !BringsIn(h, a) then Cached(h)
            else (if |Cached(h)| < MAX_CACHED then Cached(h) else Younger(h)) + {a.id}
    ensures BringsIn(h, a) ==> UsedBy(h + [a], |h|) == Some(a.id)
  {
    assert (h + [a])[..|h|] == h;
  }

  lemma {:induction false} WrittenAfter(h: seq<Step>, a: Step, x: ContextId)
    requires BringsIn(h, a)
    ensures x != a.id ==> Written(h + [a], x) == Written(h, x) && UpTo(h + [a], x) == UpTo(h, x)
    ensures Written(h + [a], a.id) == if a.Insert? then a.doc.content else a.content.value
    ensures UpTo(h + [a], a.id) == if a.Insert? then a.doc.syncedAt else Generation(h)
    ensures Shown(h + [a]) == Shown(h) && Generation(h + [a]) == Generation(h)
  {
    assert (h + [a])[..|h|] == h;
  }

  function MakeRoom(s: Store): Store {
    if |s.documents| >= MAX_CACHED then EvictLru(s) else s
  }

  lemma {:induction false} RoomTells(h: seq<Step>, s: Store)
    requires Tells(h, s) && Agrees(s)
    ensures var s1 := MakeRoom(s);
            && s1.documents.Keys == (if |Cached(h)| < MAX_CACHED then Cached(h) else Younger(h))
            && ByUse(s1.mru, h) && s1.active == s.active && s1.generation == s.generation
            && forall x :: x in s1.documents ==> s1.documents[x] == Doc(Written(h, x), UpTo(h, x))
  {
    assert |s.documents| == |s.documents.Keys|;
    EvictTells(h, s);
  }

  lemma {:induction false} InsertTells(h: seq<Step>, s: Store, a: Step, doc: Doc)
    requires Tells(h, s) && Agrees(s) && BringsIn(h, a)
    requires doc == if a.Insert? then a.doc else Doc(a.content.value, s.generation)
    ensures Tells(h + [a], InsertDoc(s, a.id, doc))
  {
    RoomTells(h, s);
    var g, r := s.generation, MakeRoom(s);
    assert InsertDoc(s, a.id, doc) == TouchMru(r.(documents := r.documents[a.id := doc]), a.id);
    BroughtInTells(h, r, a, doc, g);
  }

  lemma {:induction false} BroughtInTells(h: seq<Step>, r: Store, a: Step, doc: Doc, g: nat)
    requires BringsIn(h, a) && g == Generation(h) && r.active == Shown(h) && r.generation == g && ByUse(r.mru, h)
    requires doc == if a.Insert? then a.doc else Doc(a.content.value, g)
    requires r.documents.Keys == if |Cached(h)| < MAX_CACHED then Cached(h) else Younger(h)
    requires forall x :: x in r.documents ==> r.documents[x] == Doc(Written(h, x), UpTo(h, x))
    ensures Tells(h + [a], TouchMru(r.(documents := r.documents[a.id := doc]), a.id))
  {
    KeysBroughtIn(h, r.documents, a, doc);
    WrittenAfter(h, a, a.id);
    DocsBroughtIn(h, r.documents, a, doc);
    CachedAfter(h, a);
    UseMovesToFront(h, a, r.mru, a.id);
  }

  lemma {:induction false} KeysBroughtIn(h: seq<Step>, docs: map<ContextId, Doc>, a: Step, doc: Doc)
    requires BringsIn(h, a) && docs.Keys == if |Cached(h)| < MAX_CACHED then Cached(h) else Younger(h)
    ensures docs[a.id := doc].Keys == Cached(h + [a])
  {
    CachedAfter(h, a);
    assert docs[a.id := doc].Keys == docs.Keys + {a.id};
  }

  lemma {:induction false} DocsBroughtIn(h: seq<Step>, docs: map<ContextId, Doc>, a: Step, doc: Doc)
    requires BringsIn(h, a) && doc == if a.Insert? then a.doc else Doc(a.content.value, Generation(h))
    requires forall x :: x in docs ==> docs[x] == Doc(Written(h, x), UpTo(h, x))
    ensures forall x :: x in docs[a.id := doc] ==> docs[a.id := doc][x] == Doc(Written(h + [a], x), UpTo(h + [a], x))
  {
    forall x | x in docs[a.id := doc]
      ensures docs[a.id := doc][x] == Doc(Written(h + [a], x), UpTo(h + [a], x))
    {
      WrittenAfter(h, a, x);
    }
  }

  lemma {:induction false} StepTells(h: seq<Step>, s: Store, a: Step)
    requires Tells(h, s) && Agrees(s) && (a.SetActive? ==> a.id in s.documents)
    ensures Tells(h + [a], Apply(s, a))
  {
    if BringsIn(h, a) {
      InsertTells(h, s, a, if a.Insert? then a.doc else Doc(a.content.value, s.generation));
    } else {
      CachedAfter(h, a);
      OrderTells(h, s, a);
      ActiveTells(h, s, a);
      DocsTell(h, s.documents, s.generation, a, Apply(s, a));
    }
  }

  lemma {:induction false} OrderTells(h: seq<Step>, s: Store, a: Step)
    requires s.documents.Keys == Cached(h) && ByUse(s.mru, h) && !BringsIn(h, a)
    ensures ByUse(Apply(s, a).mru, h + [a])
  {
    assert (h + [a])[..|h|] == h;
    if a.SetActive? {
      UseMovesToFront(h, a, s.mru, a.id);
    } else {
      OrderStays(h, a, s.mru);
    }
  }

  lemma {:induction false} ActiveTells(h: seq<Step>, s: Store, a: Step)
    requires s.documents.Keys == Cached(h) && s.active == Shown(h) && s.generation == Generation(h) && !BringsIn(h, a)
    ensures Apply(s, a).active == Shown(h + [a]) && Apply(s, a).generation == Generation(h + [a])
  {
    assert (h + [a])[..|h|] == h;
  }

  /** The steps that bring in nothing: what the documents hold. */
  lemma {:induction false} DocsTell(h: seq<Step>, docs: map<ContextId, Doc>, g: nat, a: Step, s': Store)
    requires docs.Keys == Cached(h) && g == Generation(h) && !BringsIn(h, a)
    requires exists s: Store :: s.documents == docs && s.generation == g && s' == Apply(s, a)
    requires forall x :: x in docs ==> docs[x] == Doc(Written(h, x), UpTo(h, x))
    ensures s'.documents.Keys == docs.Keys
    ensures forall x :: x in s'.documents ==> s'.documents[x] == Doc(Written(h + [a], x), UpTo(h + [a], x))
  {
    var s: Store :| s.documents == docs && s.generation == g && s' == Apply(s, a);
    assert (h + [a])[..|h|] == h;
    forall x | x in s'.documents
      ensures s'.documents[x] == Doc(Written(h + [a], x), UpTo(h + [a], x))
    {
      assert docs[x] == Doc(Written(h, x), UpTo(h, x));
    }
  }

  /** The store is what the history says, and list and cache agree. */
  ghost predicate Faithful(h: seq<Step>, s: Store) {
    Tells(h, s) && Agrees(s)
  }

  lemma {:induction false} StepFaithful(h: seq<Step>, s: Store, a: Step)
    requires Faithful(h, s) && (a.SetActive? ==> a.id in s.documents)
    ensures Faithful(h + [a], Apply(s, a))
  {
    StepTells(h, s, a);
    StepAgrees(s, a);
  }

  /** What every step keeps every such run keeps. */
  lemma {:induction false} KeptByRun(inv: (seq<Step>, Store) -> bool, h: seq<Step>, s: Store, steps: seq<Step>)
    requires inv(h, s) && OnlyCachedActivated(s, steps)
    requires forall h': seq<Step>, s': Store, a: Step ::
               inv(h', s') && (a.SetActive? ==> a.id in s'.documents) ==> inv(h' + [a], Apply(s', a))
    ensures inv(h + steps, Run(s, steps))
    decreases |steps|
  {
    if steps == [] {
      assert h + steps == h;
    } else {
      KeptByRun(inv, h + [steps[0]], Apply(s, steps[0]), steps[1..]);
      assert h + [steps[0]] + steps[1..] == h + steps;
    }
  }

  lemma {:induction false} RunFaithful(steps: seq<Step>)
    requires OnlyCachedActivated(Empty(), steps)
    ensures Faithful(steps, Run(Empty(), steps))
  {
    var inv := (h: seq<Step>, s: Store) => Faithful(h, s);
    forall h: seq<Step>, s: Store, a: Step | inv(h, s) && (a.SetActive? ==> a.id in s.documents)
      ensures inv(h + [a], Apply(s, a))
    {
      StepFaithful(h, s, a);
    }
    assert inv([], Empty());
    KeptByRun(inv, [], Empty(), steps);
    assert [] + steps == steps;
  }

  /** After any run from the empty store that activates only cached ids, the
      store is what the history says, and the list is the cached ids. */
  lemma {:induction false} LruAfterAnyRun(steps: seq<Step>)
    requires OnlyCachedActivated(Empty(), steps)
    ensures var s := Run(Empty(), steps);
            && Tells(steps, s)
            && (forall id :: id in s.mru <==> id in Cached(steps)) && NoTwice(s.mru)
            && |Cached(steps)| <= MAX_CACHED
            && (Shown(steps).Some? ==> Shown(steps).value in Cached(steps))
  {
    var end := Run(Empty(), steps);
    RunFaithful(steps);
    assert |end.documents.Keys| == |end.documents|;
  }
}
