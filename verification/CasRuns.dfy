/** The store's operations run to their end, step by step, in any state it can
    be in: what is stored, streamed or sealed is there under its hash, what is
    retrieved is what is there, and what is removed is gone. */
module CasRuns {
  import opened Prelude
  import opened CasStore

  /** One operation running alone in a state s: it has the staging file, with
      this content, and has come to w. */
  function Mid(s: State, j: JobId, content: Bytes, w: Job): State {
    s.(names := s.names[Staging(s.nextId) := |s.files|], files := s.files + [content],
       jobs := s.jobs[j := w], nextId := s.nextId + 1)
  }

  predicate Free(s: State, j: JobId) {
    j !in s.jobs && Staging(s.nextId) !in s.names
  }

  function Writing(s: State, hs: Hasher, digest: Digest, hashed: Bytes, data: Bytes, done: nat,
                   goal: Option<Hash>): Job {
    Writer(s.nextId, |s.files|, digest, hashed, hashed, data, done, goal)
  }

  lemma {:induction false} Comes(hs: Hasher, s: State, a: Step, s1: State, rest: seq<Step>, end: State)
    requires Enabled(s, a) && Apply(hs, s, a) == s1 && Run(hs, s1, rest) == Some(end)
    ensures Run(hs, s, [a] + rest) == Some(end)
  {
    RunOne(hs, s, a, rest, end);
  }

  lemma {:induction false} Becomes(s: State, j: JobId, content: Bytes, w: Job, w': Job)
    ensures Become(Mid(s, j, content, w), j, w') == Mid(s, j, content, w')
  {
    assert s.jobs[j := w][j := w'] == s.jobs[j := w'];
  }

  // ------------------------------------------------------------- writing

  lemma {:induction false} Opens(hs: Hasher, s: State, j: JobId, data: Bytes, goal: Option<Hash>)
    ensures OpenStaging(hs, s, j, data, goal) == Mid(s, j, [], Writing(s, hs, hs.init, [], data, 0, goal))
  {
  }

  lemma {:induction false} Appends(hs: Hasher, s: State, j: JobId, digest: Digest, hashed: Bytes, data: Bytes,
                                   goal: Option<Hash>)
    ensures var s0 := Mid(s, j, hashed, Writing(s, hs, digest, hashed, data, 0, goal));
            Enabled(s0, By(j, Append(|data|))) && Apply(hs, s0, By(j, Append(|data|)))
            == Mid(s, j, hashed + data, Writing(s, hs, digest, hashed, data, |data|, goal))
  {
    var w, w' := Writing(s, hs, digest, hashed, data, 0, goal), Writing(s, hs, digest, hashed, data, |data|, goal);
    var s0 := Mid(s, j, hashed, w);
    assert data[0..|data|] == data;
    assert s0.files[|s.files| := hashed + data] == s.files + [hashed + data];
    Becomes(s, j, hashed + data, w, w');
    assert AppendTo(s0, |s.files|, data) == Mid(s, j, hashed + data, w);
  }

  lemma {:induction false} EndsWrite(hs: Hasher, s: State, j: JobId, digest: Digest, hashed: Bytes, data: Bytes,
                                     goal: Option<Hash>)
    ensures var s1 := Mid(s, j, hashed + data, Writing(s, hs, digest, hashed, data, |data|, goal));
            Enabled(s1, By(j, EndWrite)) && Apply(hs, s1, By(j, EndWrite))
            == Mid(s, j, hashed + data, Writing(s, hs, hs.update(digest, data), hashed + data, [], 0, goal))
  {
    Becomes(s, j, hashed + data, Writing(s, hs, digest, hashed, data, |data|, goal),
            Writing(s, hs, hs.update(digest, data), hashed + data, [], 0, goal));
  }

  lemma {:induction false} Writes1(hs: Hasher, s: State, j: JobId, digest: Digest, hashed: Bytes, data: Bytes,
                                   goal: Option<Hash>,
                                   rest: seq<Step>, end: State)
    requires Run(hs, Mid(s, j, hashed + data, Writing(s, hs, hs.update(digest, data), hashed + data, [], 0, goal)),
             rest) == Some(end)
    ensures Run(hs, Mid(s, j, hashed, Writing(s, hs, digest, hashed, data, 0, goal)),
                [By(j, Append(|data|))] + ([By(j, EndWrite)] + rest)) == Some(end)
  {
    var s0 := Mid(s, j, hashed, Writing(s, hs, digest, hashed, data, 0, goal));
    var s1 := Mid(s, j, hashed + data, Writing(s, hs, digest, hashed, data, |data|, goal));
    var s2 := Mid(s, j, hashed + data, Writing(s, hs, hs.update(digest, data), hashed + data, [], 0, goal));
    Appends(hs, s, j, digest, hashed, data, goal);
    EndsWrite(hs, s, j, digest, hashed, data, goal);
    Comes(hs, s1, By(j, EndWrite), s2, rest, end);
    Comes(hs, s0, By(j, Append(|data|)), s1, [By(j, EndWrite)] + rest, end);
  }

  // ------------------------------------------------------------- placing

  /** The operation over, and its object in place. */
  function Placed(s: State, j: JobId, h: Hash, content: Bytes): State {
    s.(names := s.names[Object(h) := |s.files|], files := s.files + [content], jobs := s.jobs[j := Over],
       nextId := s.nextId + 1)
  }

  /** The same through a copy: the staging file unlinked, the copy in place. */
  function Copied(s: State, j: JobId, h: Hash, content: Bytes): State {
    s.(names := s.names[Object(h) := |s.files| + 1], files := s.files + [content, content], jobs := s.jobs[j := Over],
       nextId := s.nextId + 2)
  }

  /** The operation over, and nothing placed. */
  function Dropped(s: State, j: JobId, content: Bytes): State {
    s.(files := s.files + [content], jobs := s.jobs[j := Over], nextId := s.nextId + 1)
  }

  function ByRename(j: JobId): seq<Step> {
    [By(j, CheckSlot)] + ([By(j, RenameOk)] + [])
  }

  function ByCopy(j: JobId, n: nat): seq<Step> {
    [By(j, CheckSlot)] + ([By(j, CrossDevice)] + ([By(j, CopyMore(n))] + ([By(j, CopyDone)]
    + ([By(j, SettleOk)] + ([By(j, Clear)] + [])))))
  }

  function Discard(j: JobId): seq<Step> {
    [By(j, CheckSlot)] + ([By(j, Clear)] + [])
  }

  lemma {:induction false} Checks(hs: Hasher, s: State, j: JobId, content: Bytes, h: Hash)
    ensures var s0 := Mid(s, j, content, Placing(s.nextId, |s.files|, h));
            Enabled(s0, By(j, CheckSlot)) && Apply(hs, s0, By(j, CheckSlot))
            == Mid(s, j, content, if Object(h) in s.names then Clearing(s.nextId) else Renaming(s.nextId, |s.files|, h))
  {
    var w := Placing(s.nextId, |s.files|, h);
    Becomes(s, j, content, w, if Object(h) in s.names then Clearing(s.nextId) else Renaming(s.nextId, |s.files|, h));
  }

  lemma {:induction false} Renames(hs: Hasher, s: State, j: JobId, content: Bytes, h: Hash)
    requires Free(s, j)
    ensures var s0 := Mid(s, j, content, Renaming(s.nextId, |s.files|, h));
            Enabled(s0, By(j, RenameOk)) && Apply(hs, s0, By(j, RenameOk)) == Placed(s, j, h, content)
  {
    var f := |s.files|;
    var names := s.names[Staging(s.nextId) := f];
    assert (names - {Staging(s.nextId)})[Object(h) := f] == s.names[Object(h) := f];
    assert s.jobs[j := Renaming(s.nextId, f, h)][j := Over] == s.jobs[j := Over];
  }

  lemma {:induction false} PlacedByRename(hs: Hasher, s: State, j: JobId, content: Bytes, h: Hash)
    requires Free(s, j) && Object(h) !in s.names
    ensures Run(hs, Mid(s, j, content, Placing(s.nextId, |s.files|, h)), ByRename(j)) == Some(Placed(s, j, h, content))
  {
    var end := Placed(s, j, h, content);
    var s1 := Mid(s, j, content, Renaming(s.nextId, |s.files|, h));
    Checks(hs, s, j, content, h);
    Renames(hs, s, j, content, h);
    Comes(hs, s1, By(j, RenameOk), end, [], end);
    Comes(hs, Mid(s, j, content, Placing(s.nextId, |s.files|, h)), By(j, CheckSlot), s1, [By(j, RenameOk)] + [], end);
  }

  /** A slot already filled keeps what it has. */
  lemma {:induction false} PlacedAlready(hs: Hasher, s: State, j: JobId, content: Bytes, h: Hash)
    requires Free(s, j) && Object(h) in s.names
    ensures Run(hs, Mid(s, j, content, Placing(s.nextId, |s.files|, h)), Discard(j)) == Some(Dropped(s, j, content))
  {
    var end, s1 := Dropped(s, j, content), Mid(s, j, content, Clearing(s.nextId));
    Checks(hs, s, j, content, h);
    assert s.names[Staging(s.nextId) := |s.files|] - {Staging(s.nextId)} == s.names;
    assert s.jobs[j := Clearing(s.nextId)][j := Over] == s.jobs[j := Over];
    assert Apply(hs, s1, By(j, Clear)) == end;
    Comes(hs, s1, By(j, Clear), end, [], end);
    Comes(hs, Mid(s, j, content, Placing(s.nextId, |s.files|, h)), By(j, CheckSlot), s1, [By(j, Clear)] + [], end);
  }

  // A copy in progress: the staging file and the temporary one.

  function Duo(s: State, j: JobId, h: Hash, content: Bytes, copy: Bytes, w: Job): State {
    s.(names := s.names[Staging(s.nextId) := |s.files|][Temp(h, s.nextId + 1) := |s.files| + 1],
       files := s.files + [content, copy], jobs := s.jobs[j := w], nextId := s.nextId + 2)
  }

  lemma {:induction false} DuoBecomes(s: State, j: JobId, h: Hash, content: Bytes, copy: Bytes, w: Job, w': Job)
    ensures Become(Duo(s, j, h, content, copy, w), j, w') == Duo(s, j, h, content, copy, w')
  {
    assert s.jobs[j := w][j := w'] == s.jobs[j := w'];
  }

  lemma {:induction false} StartsCopy(hs: Hasher, s: State, j: JobId, content: Bytes, h: Hash)
    requires Free(s, j)
    ensures var s0 := Mid(s, j, content, Renaming(s.nextId, |s.files|, h));
            Enabled(s0, By(j, CrossDevice)) && Apply(hs, s0, By(j, CrossDevice))
            == Duo(s, j, h, content, [], Copying(s.nextId, |s.files|, h, s.nextId + 1, |s.files| + 1, 0))
  {
    var f := |s.files|;
    assert s.files + [content] + [[]] == s.files + [content, []];
    assert s.jobs[j := Renaming(s.nextId, f, h)][j := Copying(s.nextId, f, h, s.nextId + 1, f + 1, 0)]
           == s.jobs[j := Copying(s.nextId, f, h, s.nextId + 1, f + 1, 0)];
  }

  lemma {:induction false} CopiesAll(hs: Hasher, s: State, j: JobId, content: Bytes, h: Hash)
    ensures var s0 := Duo(s, j, h, content, [], Copying(s.nextId, |s.files|, h, s.nextId + 1, |s.files| + 1, 0));
            Enabled(s0, By(j, CopyMore(|content|))) && Apply(hs, s0, By(j, CopyMore(|content|)))
            == Duo(s, j, h, content, content, Copying(s.nextId, |s.files|, h, s.nextId + 1, |s.files| + 1, |content|))
  {
    var f := |s.files|;
    var w, w' := Copying(s.nextId, f, h, s.nextId + 1, f + 1, 0),
        Copying(s.nextId, f, h, s.nextId + 1, f + 1, |content|);
    var s0 := Duo(s, j, h, content, [], w);
    assert content[0..|content|] == content && [] + content == content;
    assert s0.files[f + 1 := content] == s.files + [content, content];
    assert AppendTo(s0, f + 1, content) == Duo(s, j, h, content, content, w);
    DuoBecomes(s, j, h, content, content, w, w');
  }

  lemma {:induction false} CopySettles(hs: Hasher, s: State, j: JobId, content: Bytes, h: Hash)
    requires |s.files| !in s.dirty
    ensures var s0 := Duo(s, j, h, content, content,
            Copying(s.nextId, |s.files|, h, s.nextId + 1, |s.files| + 1, |content|));
            Enabled(s0, By(j, CopyDone)) && Apply(hs, s0, By(j, CopyDone))
            == Duo(s, j, h, content, content, Settling(s.nextId, h, s.nextId + 1, |s.files| + 1))
  {
    DuoBecomes(s, j, h, content, content, Copying(s.nextId, |s.files|, h, s.nextId + 1, |s.files| + 1, |content|),
               Settling(s.nextId, h, s.nextId + 1, |s.files| + 1));
  }

  function Settled(s: State, j: JobId, h: Hash, content: Bytes): State {
    s.(names := s.names[Staging(s.nextId) := |s.files|][Object(h) := |s.files| + 1],
        files := s.files + [content, content],
       jobs := s.jobs[j := Clearing(s.nextId)], nextId := s.nextId + 2)
  }

  lemma {:induction false} CopyEnds(hs: Hasher, s: State, j: JobId, content: Bytes, h: Hash)
    requires Free(s, j) && Temp(h, s.nextId + 1) !in s.names
    ensures var s0 := Duo(s, j, h, content, content, Settling(s.nextId, h, s.nextId + 1, |s.files| + 1));
            Enabled(s0, By(j, SettleOk)) && Apply(hs, s0, By(j, SettleOk)) == Settled(s, j, h, content)
    ensures var s1 := Settled(s, j, h, content);
            Enabled(s1, By(j, Clear)) && Apply(hs, s1, By(j, Clear)) == Copied(s, j, h, content)
  {
    var f, st, tmp := |s.files|, Staging(s.nextId), Temp(h, s.nextId + 1);
    assert (s.names[st := f][tmp := f + 1] - {tmp})[Object(h) := f + 1] == s.names[st := f][Object(h) := f + 1];
    assert s.names[st := f][Object(h) := f + 1] - {st} == s.names[Object(h) := f + 1];
    assert s.jobs[j := Settling(s.nextId, h, s.nextId + 1, f + 1)][j := Clearing(s.nextId)]
           == s.jobs[j := Clearing(s.nextId)];
    assert s.jobs[j := Clearing(s.nextId)][j := Over] == s.jobs[j := Over];
  }

  lemma {:induction false} PlacedByCopy(hs: Hasher, s: State, j: JobId, content: Bytes, h: Hash)
    requires Free(s, j) && Object(h) !in s.names && Temp(h, s.nextId + 1) !in s.names && |s.files| !in s.dirty
    ensures Run(hs, Mid(s, j, content, Placing(s.nextId, |s.files|, h)), ByCopy(j, |content|))
            == Some(Copied(s, j, h, content))
  {
    var f, end := |s.files|, Copied(s, j, h, content);
    var s1 := Mid(s, j, content, Renaming(s.nextId, f, h));
    var s2 := Duo(s, j, h, content, [], Copying(s.nextId, f, h, s.nextId + 1, f + 1, 0));
    var s3 := Duo(s, j, h, content, content, Copying(s.nextId, f, h, s.nextId + 1, f + 1, |content|));
    var s4, s5 := Duo(s, j, h, content, content, Settling(s.nextId, h, s.nextId + 1, f + 1)), Settled(s, j, h, content);
    Checks(hs, s, j, content, h);
    StartsCopy(hs, s, j, content, h);
    CopiesAll(hs, s, j, content, h);
    CopySettles(hs, s, j, content, h);
    CopyEnds(hs, s, j, content, h);
    var r5 := [By(j, Clear)] + [];
    var r4 := [By(j, SettleOk)] + r5;
    var r3 := [By(j, CopyDone)] + r4;
    var r2 := [By(j, CopyMore(|content|))] + r3;
    Comes(hs, s5, By(j, Clear), end, [], end);
    Comes(hs, s4, By(j, SettleOk), s5, r5, end);
    Comes(hs, s3, By(j, CopyDone), s4, r4, end);
    Comes(hs, s2, By(j, CopyMore(|content|)), s3, r3, end);
    Comes(hs, s1, By(j, CrossDevice), s2, r2, end);
    Comes(hs, Mid(s, j, content, Placing(s.nextId, f, h)), By(j, CheckSlot), s1, [By(j, CrossDevice)] + r2, end);
  }

  /** How an operation whose file is ready ends: by a rename, by a copy if the
      slot is on another device, or with nothing to do if the slot is filled. */
  function Ending(s: State, j: JobId, h: Hash, n: nat, device: bool): seq<Step> {
    if Object(h) in s.names then Discard(j) else if device then ByCopy(j, n) else ByRename(j)
  }

  predicate Roomy(s: State, j: JobId, h: Hash) {
    Free(s, j) && Temp(h, s.nextId + 1) !in s.names && |s.files| !in s.dirty
  }

  /** What is there afterwards. */
  ghost predicate IsThere(s: State, s': State, h: Hash, content: Bytes) {
    && Object(h) in s'.names && s'.names[Object(h)] < |s'.files|
    && (Object(h) in s.names ==> s'.names[Object(h)] == s.names[Object(h)])
    && (Object(h) !in s.names ==> s'.files[s'.names[Object(h)]] == content && s'.names[Object(h)] !in s.dirty)
    && (forall p :: p != Object(h) ==> (p in s'.names <==> p in s.names)
                                       && (p in s.names ==> s'.names[p] == s.names[p]))
    && s.files <= s'.files && s'.dirty == s.dirty
  }

  lemma {:induction false} Ends(hs: Hasher, s: State, j: JobId, content: Bytes, h: Hash, device: bool)
    returns (s': State)
    requires Roomy(s, j, h) && |s.files| + 1 !in s.dirty && (Object(h) in s.names ==> s.names[Object(h)] < |s.files|)
    ensures Run(hs, Mid(s, j, content, Placing(s.nextId, |s.files|, h)), Ending(s, j, h, |content|, device)) == Some(s')
    ensures IsThere(s, s', h, content) && j in s'.jobs && s'.jobs[j] == Over
  {
    if Object(h) in s.names {
      PlacedAlready(hs, s, j, content, h);
      s' := Dropped(s, j, content);
    } else if device {
      PlacedByCopy(hs, s, j, content, h);
      s' := Copied(s, j, h, content);
    } else {
      PlacedByRename(hs, s, j, content, h);
      s' := Placed(s, j, h, content);
    }
  }

  // -------------------------------------------------- the operations

  function StoreSteps(hs: Hasher, s: State, j: JobId, whole: Bytes, device: bool): seq<Step> {
    [StartStore(j, whole)] + ([By(j, Append(|whole|))] + ([By(j, EndWrite)] + ([By(j, Finalize)]
    + Ending(s, j, hs.of(whole), |whole|, device))))
  }

  lemma {:induction false} Finalizes(hs: Hasher, s: State, j: JobId, digest: Digest, whole: Bytes, goal: Option<Hash>)
    ensures var h := if goal.Some? then goal.value else hs.finish(digest);
            var s0 := Mid(s, j, whole, Writing(s, hs, digest, whole, [], 0, goal));
            Enabled(s0, By(j, Finalize)) && Apply(hs, s0, By(j, Finalize))
                == Mid(s, j, whole, Placing(s.nextId, |s.files|, h))
  {
    var h := if goal.Some? then goal.value else hs.finish(digest);
    Becomes(s, j, whole, Writing(s, hs, digest, whole, [], 0, goal), Placing(s.nextId, |s.files|, h));
  }

  /** A store of a new object, run to its end, puts it there under its hash, by
      rename or by copy, and changes nothing else. */
  lemma {:induction false} StoreCompletes(hs: Hasher, s: State, j: JobId, whole: Bytes, device: bool)
    returns (s': State)
    requires Roomy(s, j, hs.of(whole)) && |s.files| + 1 !in s.dirty && Object(hs.of(whole)) !in s.names
    ensures Run(hs, s, StoreSteps(hs, s, j, whole, device)) == Some(s') && IsThere(s, s', hs.of(whole), whole)
    ensures j in s'.jobs && s'.jobs[j] == Over
  {
    var h := hs.of(whole);
    var rest := Ending(s, j, h, |whole|, device);
    s' := Ends(hs, s, j, whole, h, device);
    var digest := hs.update(hs.init, whole);
    Finalizes(hs, s, j, digest, whole, Some(h));
    var ready := Mid(s, j, whole, Writing(s, hs, digest, whole, [], 0, Some(h)));
    Comes(hs, ready, By(j, Finalize), Mid(s, j, whole, Placing(s.nextId, |s.files|, h)), rest, s');
    assert [] + whole == whole;
    Writes1(hs, s, j, hs.init, [], whole, Some(h), [By(j, Finalize)] + rest, s');
    Opens(hs, s, j, whole, Some(h));
    Comes(hs, s, StartStore(j, whole), Mid(s, j, [], Writing(s, hs, hs.init, [], whole, 0, Some(h))),
          [By(j, Append(|whole|))] + ([By(j, EndWrite)] + ([By(j, Finalize)] + rest)), s');
  }

  /** A store of an object that is there does nothing. */
  lemma {:induction false} StoreOfPresent(hs: Hasher, s: State, j: JobId, whole: Bytes)
    requires j !in s.jobs && Object(hs.of(whole)) in s.names
    ensures Run(hs, s, [StartStore(j, whole)] + []) == Some(s.(jobs := s.jobs[j := Over]))
  {
    var end := s.(jobs := s.jobs[j := Over]);
    Comes(hs, s, StartStore(j, whole), end, [], end);
  }

  function Flat(chunks: seq<Bytes>): Bytes {
    if chunks == [] then [] else chunks[0] + Flat(chunks[1..])
  }

  function StreamSteps(j: JobId, chunks: seq<Bytes>, rest: seq<Step>): seq<Step>
    decreases |chunks|
  {
    if chunks == [] then rest
    else
      [By(j, BeginWrite(chunks[0]))]
      + ([By(j, Append(|chunks[0]|))] + ([By(j, EndWrite)] + StreamSteps(j, chunks[1..], rest)))
  }

  lemma {:induction false} Begins(hs: Hasher, s: State, j: JobId, digest: Digest, hashed: Bytes, data: Bytes)
    ensures var s0 := Mid(s, j, hashed, Writing(s, hs, digest, hashed, [], 0, None));
            Enabled(s0, By(j, BeginWrite(data))) && Apply(hs, s0, By(j, BeginWrite(data)))
            == Mid(s, j, hashed, Writing(s, hs, digest, hashed, data, 0, None))
  {
    Becomes(s, j, hashed, Writing(s, hs, digest, hashed, [], 0, None), Writing(s, hs, digest, hashed, data, 0, None));
  }

  lemma {:induction false} Streams(hs: Hasher, s: State, j: JobId, hashed: Bytes, chunks: seq<Bytes>, rest: seq<Step>,
                                   end: State)
    requires Incremental(hs)
    requires Run(hs, Mid(s, j, hashed + Flat(chunks),
             Writing(s, hs, hs.absorb(hashed + Flat(chunks)), hashed + Flat(chunks), [], 0, None)),
                 rest) == Some(end)
    ensures Run(hs, Mid(s, j, hashed, Writing(s, hs, hs.absorb(hashed), hashed, [], 0, None)),
            StreamSteps(j, chunks, rest)) == Some(end)
    decreases |chunks|
  {
    if chunks == [] {
      assert hashed + Flat(chunks) == hashed;
    } else {
      var c, after := chunks[0], StreamSteps(j, chunks[1..], rest);
      assert hashed + c + Flat(chunks[1..]) == hashed + Flat(chunks);
      Streams(hs, s, j, hashed + c, chunks[1..], rest, end);
      assert hs.update(hs.absorb(hashed), c) == hs.absorb(hashed + c);
      Writes1(hs, s, j, hs.absorb(hashed), hashed, c, None, after, end);
      Begins(hs, s, j, hs.absorb(hashed), hashed, c);
      Comes(hs, Mid(s, j, hashed, Writing(s, hs, hs.absorb(hashed), hashed, [], 0, None)), By(j, BeginWrite(c)),
            Mid(s, j, hashed, Writing(s, hs, hs.absorb(hashed), hashed, c, 0, None)),
            [By(j, Append(|c|))] + ([By(j, EndWrite)] + after), end);
    }
  }

  lemma {:induction false} Streamed(hs: Hasher, s: State, j: JobId, chunks: seq<Bytes>, last: seq<Step>, end: State)
    requires Incremental(hs) && Roomy(s, j, hs.of(Flat(chunks)))
    requires Run(hs, Mid(s, j, Flat(chunks), Writing(s, hs, hs.absorb(Flat(chunks)), Flat(chunks), [], 0, None)), last)
             == Some(end)
    ensures Run(hs, s, [StartStream(j)] + StreamSteps(j, chunks, last)) == Some(end)
  {
    assert [] + Flat(chunks) == Flat(chunks);
    Streams(hs, s, j, [], chunks, last, end);
    Opens(hs, s, j, [], None);
    Comes(hs, s, StartStream(j), Mid(s, j, [], Writing(s, hs, hs.init, [], [], 0, None)),
          StreamSteps(j, chunks, last), end);
  }

  /** A stream of any chunks, finalized, is there under the hash of the whole. */
  lemma {:induction false} StreamCompletes(hs: Hasher, s: State, j: JobId, chunks: seq<Bytes>, device: bool)
    returns (s': State)
    requires Incremental(hs) && Roomy(s, j, hs.of(Flat(chunks))) && |s.files| + 1 !in s.dirty
    requires Object(hs.of(Flat(chunks))) in s.names ==> s.names[Object(hs.of(Flat(chunks)))] < |s.files|
    ensures var h := hs.of(Flat(chunks));
            && Run(hs, s, [StartStream(j)] + StreamSteps(j, chunks,
                [By(j, Finalize)] + Ending(s, j, h, |Flat(chunks)|, device))) == Some(s')
            && IsThere(s, s', h, Flat(chunks))
  {
    var whole := Flat(chunks);
    var h, rest := hs.of(whole), Ending(s, j, hs.of(whole), |whole|, device);
    s' := Ends(hs, s, j, whole, h, device);
    Finalizes(hs, s, j, hs.absorb(whole), whole, None);
    assert hs.finish(hs.absorb(whole)) == h;
    Comes(hs, Mid(s, j, whole, Writing(s, hs, hs.absorb(whole), whole, [], 0, None)), By(j, Finalize),
          Mid(s, j, whole, Placing(s.nextId, |s.files|, h)), rest, s');
    Streamed(hs, s, j, chunks, [By(j, Finalize)] + rest, s');
  }

  /** The same with the chunks sealed, the handle kept open. */
  lemma {:induction false} SealCompletes(hs: Hasher, s: State, j: JobId, chunks: seq<Bytes>, device: bool)
    returns (s': State)
    requires Incremental(hs) && Roomy(s, j, hs.of(Flat(chunks))) && |s.files| + 1 !in s.dirty
    requires Object(hs.of(Flat(chunks))) in s.names ==> s.names[Object(hs.of(Flat(chunks)))] < |s.files|
    ensures var h := hs.of(Flat(chunks));
            && Run(hs, s, [StartStream(j)] + StreamSteps(j, chunks,
                [By(j, Seal)] + Ending(s, j, h, |Flat(chunks)|, device))) == Some(s')
            && IsThere(s, s', h, Flat(chunks)) && s'.handles == s.handles + {|s.files|}
  {
    var whole, f := Flat(chunks), |s.files|;
    var h, rest, t := hs.of(whole), Ending(s, j, hs.of(whole), |whole|, device), s.(handles := s.handles + {f});
    s' := Ends(hs, t, j, whole, h, device);
    HandlesKept(hs, t, j, whole, h, device, s');
    var w := Writing(s, hs, hs.absorb(whole), whole, [], 0, None);
    Becomes(t, j, whole, w, Placing(s.nextId, f, h));
    assert Apply(hs, Mid(s, j, whole, w), By(j, Seal)) == Mid(t, j, whole, Placing(s.nextId, f, h));
    Comes(hs, Mid(s, j, whole, w), By(j, Seal), Mid(t, j, whole, Placing(s.nextId, f, h)), rest, s');
    Streamed(hs, s, j, chunks, [By(j, Seal)] + rest, s');
  }

  lemma {:induction false} Abandons(hs: Hasher, s: State, j: JobId, content: Bytes, w: Job)
    requires Free(s, j) && (w.Writer? || w.Broken?) && w.id == s.nextId
    ensures Run(hs, Mid(s, j, content, w), [By(j, Abandon)] + ([By(j, Clear)] + [])) == Some(Dropped(s, j, content))
  {
    var end, s1 := Dropped(s, j, content), Mid(s, j, content, Clearing(s.nextId));
    Becomes(s, j, content, w, Clearing(s.nextId));
    assert s.names[Staging(s.nextId) := |s.files|] - {Staging(s.nextId)} == s.names;
    assert s.jobs[j := Clearing(s.nextId)][j := Over] == s.jobs[j := Over];
    assert Apply(hs, s1, By(j, Clear)) == end;
    Comes(hs, s1, By(j, Clear), end, [], end);
    Comes(hs, Mid(s, j, content, w), By(j, Abandon), s1, [By(j, Clear)] + [], end);
  }

  /** A stream given up after any chunks leaves every path as it was. */
  lemma {:induction false} AbandonedStreamLeavesNothing(hs: Hasher, s: State, j: JobId, chunks: seq<Bytes>)
    requires Incremental(hs) && Roomy(s, j, hs.of(Flat(chunks)))
    ensures var end := Run(hs, s, [StartStream(j)] + StreamSteps(j, chunks, [By(j, Abandon)] + ([By(j, Clear)] + [])));
            end.Some? && end.value.names == s.names && s.files <= end.value.files && end.value.jobs == s.jobs[j := Over]
  {
    var whole := Flat(chunks);
    var w := Writing(s, hs, hs.absorb(whole), whole, [], 0, None);
    Abandons(hs, s, j, whole, w);
    Streamed(hs, s, j, chunks, [By(j, Abandon)] + ([By(j, Clear)] + []), Dropped(s, j, whole));
  }

  /** So does a store of a new object whose write fails after any n of its bytes. */
  lemma {:induction false} FailedStoreLeavesNothing(hs: Hasher, s: State, j: JobId, whole: Bytes, n: nat)
    requires Free(s, j) && Object(hs.of(whole)) !in s.names && n <= |whole|
    ensures var end := Run(hs, s, [StartStore(j, whole)] + ([By(j, Append(n))] + ([By(j, FailWrite)]
                + ([By(j, Abandon)] + ([By(j, Clear)] + [])))));
            end.Some? && end.value.names == s.names && s.files <= end.value.files && end.value.jobs == s.jobs[j := Over]
  {
    var goal, f, last := Some(hs.of(whole)), |s.files|, [By(j, Abandon)] + ([By(j, Clear)] + []);
    var w0, w1 := Writing(s, hs, hs.init, [], whole, 0, goal), Writing(s, hs, hs.init, [], whole, n, goal);
    var s0, s1 := Mid(s, j, [], w0), Mid(s, j, whole[..n], w1);
    var s2 := Mid(s, j, whole[..n], Broken(s.nextId, f));
    Opens(hs, s, j, whole, goal);
    assert whole[0..n] == whole[..n] && [] + whole[..n] == whole[..n];
    assert s0.files[f := whole[..n]] == s.files + [whole[..n]];
    Becomes(s, j, whole[..n], w0, w1);
    assert AppendTo(s0, f, whole[0..n]) == Mid(s, j, whole[..n], w0);
    Becomes(s, j, whole[..n], w1, Broken(s.nextId, f));
    Abandons(hs, s, j, whole[..n], Broken(s.nextId, f));
    Comes(hs, s1, By(j, FailWrite), s2, last, Dropped(s, j, whole[..n]));
    Comes(hs, s0, By(j, Append(n)), s1, [By(j, FailWrite)] + last, Dropped(s, j, whole[..n]));
    Comes(hs, s, StartStore(j, whole), s0, [By(j, Append(n))] + ([By(j, FailWrite)] + last),
          Dropped(s, j, whole[..n]));
  }

  lemma {:induction false} HandlesKept(hs: Hasher, s: State, j: JobId, content: Bytes, h: Hash, device: bool, s': State)
    requires Roomy(s, j, h) && |s.files| + 1 !in s.dirty
    requires Run(hs, Mid(s, j, content, Placing(s.nextId, |s.files|, h)), Ending(s, j, h, |content|, device))
             == Some(s')
    ensures s'.handles == s.handles
  {
    if Object(h) in s.names {
      PlacedAlready(hs, s, j, content, h);
    } else if device {
      PlacedByCopy(hs, s, j, content, h);
    } else {
      PlacedByRename(hs, s, j, content, h);
    }
  }

  // ----------------------------------------------- retrieve and remove

  /** A retrieve, run to its end, gives exactly what is in the slot. */
  lemma {:induction false} RetrieveCompletes(hs: Hasher, s: State, j: JobId, h: Hash)
    requires j !in s.jobs && Object(h) in s.names && s.names[Object(h)] < |s.files|
    ensures var f := s.names[Object(h)];
            Run(hs, s, [StartRetrieve(j, h)] + ([By(j, ReadMore(|s.files[f]|))] + ([By(j, ReadEnd)] + [])))
            == Some(s.(jobs := s.jobs[j := Retrieved(h, Some(s.files[f]), f in s.dirty)]))
  {
    var f := s.names[Object(h)];
    var all := s.files[f];
    var r0, r1 := Reading(h, f, []), Reading(h, f, all);
    var end := s.(jobs := s.jobs[j := Retrieved(h, Some(all), f in s.dirty)]);
    var s1, s2 := s.(jobs := s.jobs[j := r0]), s.(jobs := s.jobs[j := r1]);
    assert [] + all[0..|all|] == all;
    assert s.jobs[j := r0][j := r1] == s.jobs[j := r1];
    assert s.jobs[j := r1][j := Retrieved(h, Some(all), f in s.dirty)] == end.jobs;
    Comes(hs, s2, By(j, ReadEnd), end, [], end);
    Comes(hs, s1, By(j, ReadMore(|all|)), s2, [By(j, ReadEnd)] + [], end);
    Comes(hs, s, StartRetrieve(j, h), s1, [By(j, ReadMore(|all|))] + ([By(j, ReadEnd)] + []), end);
  }

  /** A retrieve of what is not there gives nothing. */
  lemma {:induction false} RetrieveOfAbsent(hs: Hasher, s: State, j: JobId, h: Hash)
    requires j !in s.jobs && Object(h) !in s.names
    ensures Run(hs, s, [StartRetrieve(j, h)] + []) == Some(s.(jobs := s.jobs[j := Retrieved(h, None, false)]))
  {
    var end := s.(jobs := s.jobs[j := Retrieved(h, None, false)]);
    Comes(hs, s, StartRetrieve(j, h), end, [], end);
  }

  /** A remove, run to its end, empties its slot and no other. */
  lemma {:induction false} RemoveCompletes(hs: Hasher, s: State, j: JobId, h: Hash)
    requires j !in s.jobs && Object(h) in s.names
    ensures Run(hs, s, [StartRemove(j, h)] + ([By(j, Unlink)] + []))
            == Some(s.(names := s.names - {Object(h)}, jobs := s.jobs[j := Over]))
  {
    var end := s.(names := s.names - {Object(h)}, jobs := s.jobs[j := Over]);
    var s1 := s.(jobs := s.jobs[j := Removing(h)]);
    assert s.jobs[j := Removing(h)][j := Over] == s.jobs[j := Over];
    Comes(hs, s1, By(j, Unlink), end, [], end);
    Comes(hs, s, StartRemove(j, h), s1, [By(j, Unlink)] + [], end);
  }
}
