/** The content-addressed store as its file operations: writers, sealers,
    removers and readers interleave at create, append, rename, copy and unlink,
    and may stop at any of them. */
module CasStore {
  import opened Prelude

  type Bytes = seq<int>
  type Hash = string
  type Digest = int
  type Inode = nat
  type JobId = nat

  /** The hash function and its incremental form. `absorb` is the digest state
      after some bytes, however they were chunked. */
  datatype Hasher = Hasher(
    of: Bytes -> Hash,
    init: Digest, update: (Digest, Bytes) -> Digest, finish: Digest -> Hash,
    absorb: Bytes -> Digest)

  ghost predicate Incremental(hs: Hasher) {
    && hs.init == hs.absorb([])
    && (forall b, c :: hs.update(hs.absorb(b), c) == hs.absorb(b + c))
    && (forall b :: hs.finish(hs.absorb(b)) == hs.of(b))
  }

  /** The paths of the store: an object slot, a staging file, a temporary file
      beside an object slot. */
  datatype Path = Object(hash: Hash) | Staging(id: nat) | Temp(hash: Hash, id: nat)

  /** One operation in progress. A `Writer` has its staging file open: `hashed`
      is what the digest covers, `staged` what the file holds, which is more when
      a write has failed part-way; `data[..done]` is what the current write has
      put in the file so far; `goal` is the hash `store` computed in advance. A
      `Broken` one is a `store` whose write failed; a stream may go on. */
  datatype Job =
    | Writer(id: nat, file: Inode, digest: Digest, hashed: Bytes, staged: Bytes, data: Bytes, done: nat,
        goal: Option<Hash>)
    | Broken(id: nat, file: Inode)
    | Placing(id: nat, file: Inode, hash: Hash)
    | Renaming(id: nat, file: Inode, hash: Hash)
    | Copying(id: nat, file: Inode, hash: Hash, tmp: nat, copy: Inode, copied: nat)
    | Settling(id: nat, hash: Hash, tmp: nat, copy: Inode)
    | Clearing(id: nat)
    | Removing(hash: Hash)
    | Reading(hash: Hash, file: Inode, got: Bytes)
    | Retrieved(hash: Hash, result: Option<Bytes>, tainted: bool)
    | Over

  /** Names point to files; an open file outlives its name. `handles` are the
      files whose chunk was sealed with its handle still open. `dirty` is a
      history: the files that got bytes no hash covers, directly or by copy. */
  datatype State = State(names: map<Path, Inode>, files: seq<Bytes>, jobs: map<JobId, Job>, nextId: nat,
      handles: set<Inode>, dirty: set<Inode>)

  datatype Step =
    | StartStore(j: JobId, whole: Bytes)
    | StartStream(j: JobId)
    | StartRemove(j: JobId, hash: Hash)
    | StartRetrieve(j: JobId, hash: Hash)
    | Sweep(id: nat)
    | LateWrite(file: Inode, data: Bytes)
    | By(j: JobId, act: Act)

  datatype Act =
    | BeginWrite(data: Bytes) | Append(n: nat) | EndWrite | FailWrite
    | Finalize | Seal | Abandon
    | CheckSlot | RenameOk | RenameFails(clear: bool) | CrossDevice
    | CopyMore(n: nat) | CopyDone | CopyFails | SettleOk | SettleFails | Clear
    | Unlink | ReadMore(n: nat) | ReadEnd
    | Stop

  predicate Ready(s: State, w: Job, act: Act) {
    match act
    case BeginWrite(_) => w.Writer? && w.goal.None? && w.data == []
    case Append(n) => w.Writer? && w.done + n <= |w.data| && w.file < |s.files|
    case EndWrite => w.Writer? && w.done == |w.data|
    case FailWrite => w.Writer? && w.done <= |w.data|
    case Finalize => w.Writer? && w.data == [] && w.file < |s.files|
    case Seal => w.Writer? && w.data == [] && Staging(w.id) in s.names && s.names[Staging(w.id)] < |s.files|
    case Abandon => w.Writer? || w.Broken?
    case CheckSlot => w.Placing?
    case RenameOk => w.Renaming? && Staging(w.id) in s.names
    case RenameFails(_) => w.Renaming?
    case CrossDevice => w.Renaming? && Staging(w.id) in s.names
    case CopyMore(n) => w.Copying? && w.file < |s.files| && w.copy < |s.files| && w.copied + n <= |s.files[w.file]|
    case CopyDone => w.Copying? && w.file < |s.files| && w.copied == |s.files[w.file]|
    case CopyFails => w.Copying?
    case SettleOk => w.Settling? && Temp(w.hash, w.tmp) in s.names
    case SettleFails => w.Settling?
    case Clear => w.Clearing?
    case Unlink => w.Removing?
    case ReadMore(n) => w.Reading? && w.file < |s.files| && |w.got| + n <= |s.files[w.file]|
    case ReadEnd => w.Reading? && w.file < |s.files| && |w.got| == |s.files[w.file]|
    case Stop => true
  }

  predicate Enabled(s: State, a: Step) {
    match a
    case By(j, act) => j in s.jobs && Ready(s, s.jobs[j], act)
    case Sweep(_) => true
    case LateWrite(f, _) => f in s.handles && f < |s.files|
    case StartStore(j, _) => j !in s.jobs
    case StartStream(j) => j !in s.jobs
    case StartRemove(j, _) => j !in s.jobs
    case StartRetrieve(j, _) => j !in s.jobs
  }

  function Become(s: State, j: JobId, w: Job): State {
    s.(jobs := s.jobs[j := w])
  }

  /** A new empty file under a name. */
  function Create(s: State, p: Path): State {
    s.(names := s.names[p := |s.files|], files := s.files + [[]])
  }

  function AppendTo(s: State, f: Inode, data: Bytes): State
    requires f < |s.files|
  {
    s.(files := s.files[f := s.files[f] + data])
  }

  function Rename(s: State, from: Path, to: Path): State
    requires from in s.names
  {
    s.(names := (s.names - {from})[to := s.names[from]])
  }

  function Unlinked(s: State, p: Path): State {
    s.(names := s.names - {p})
  }

  function Soiled(s: State, f: Inode, soils: bool): State {
    if soils then s.(dirty := s.dirty + {f}) else s
  }

  /** The file has bytes the digest does not cover. */
  predicate Unhashed(w: Job) {
    w.Writer? && w.goal.None? && |w.staged| != |w.hashed|
  }

  /** Open a staging file under a fresh id. */
  function OpenStaging(hs: Hasher, s: State, j: JobId, data: Bytes, goal: Option<Hash>): State {
    Become(Create(s, Staging(s.nextId)), j,
        Writer(s.nextId, |s.files|, hs.init, [], [], data, 0, goal)).(nextId := s.nextId + 1)
  }

  function Act1(hs: Hasher, s: State, j: JobId, act: Act): State
    requires j in s.jobs && Ready(s, s.jobs[j], act)
  {
    var w := s.jobs[j];
    match act
    case BeginWrite(data) => Become(s, j, w.(data := data, done := 0))
    case Append(n) => Become(AppendTo(s, w.file, w.data[w.done..w.done + n]), j, w.(done := w.done + n))
    case EndWrite =>
      Become(s, j, w.(digest := hs.update(w.digest, w.data), hashed := w.hashed + w.data, staged := w.staged + w.data,
          data := [], done := 0))
    case FailWrite =>
      Become(s, j, if w.goal.Some? then Broken(w.id, w.file)
          else w.(staged := w.staged + w.data[..w.done], data := [], done := 0))
    case Finalize =>
      var h := if w.goal.Some? then w.goal.value else hs.finish(w.digest);
      Become(Soiled(s, w.file, Unhashed(w)), j, Placing(w.id, w.file, h))
    case Seal =>
      var f := s.names[Staging(w.id)];
      Become(s.(handles := s.handles + {f}), j, Placing(w.id, f, hs.of(s.files[f])))
    case Abandon => Become(s, j, Clearing(w.id))
    case CheckSlot =>
      Become(s, j, if Object(w.hash) in s.names then Clearing(w.id) else Renaming(w.id, w.file, w.hash))
    case RenameOk => Become(Rename(s, Staging(w.id), Object(w.hash)), j, Over)
    case RenameFails(clear) => Become(s, j, if clear then Clearing(w.id) else Over)
    case CrossDevice =>
      var copy := Create(s, Temp(w.hash, s.nextId)).(nextId := s.nextId + 1);
      Become(copy, j, Copying(w.id, w.file, w.hash, s.nextId, |s.files|, 0))
    case CopyMore(n) =>
      Become(AppendTo(s, w.copy, s.files[w.file][w.copied..w.copied + n]), j, w.(copied := w.copied + n))
    case CopyDone =>
      Become(if w.file in s.dirty then s.(dirty := s.dirty + {w.copy}) else s, j, Settling(w.id, w.hash, w.tmp, w.copy))
    case CopyFails => Become(s, j, Over)
    case SettleOk => Become(Rename(s, Temp(w.hash, w.tmp), Object(w.hash)), j, Clearing(w.id))
    case SettleFails => Become(Unlinked(s, Temp(w.hash, w.tmp)), j, Over)
    case Clear => Become(Unlinked(s, Staging(w.id)), j, Over)
    case Unlink => Become(Unlinked(s, Object(w.hash)), j, Over)
    case ReadMore(n) => Become(s, j, w.(got := w.got + s.files[w.file][|w.got|..|w.got| + n]))
    case ReadEnd => Become(s, j, Retrieved(w.hash, Some(w.got), w.file in s.dirty))
    case Stop => s.(jobs := s.jobs - {j})
  }

  function Apply(hs: Hasher, s: State, a: Step): State
    requires Enabled(s, a)
  {
    match a
    case StartStore(j, whole) =>
      var h := hs.of(whole);
      if Object(h) in s.names then Become(s, j, Over) else OpenStaging(hs, s, j, whole, Some(h))
    case StartStream(j) => OpenStaging(hs, s, j, [], None)
    case StartRemove(j, h) => Become(s, j, if Object(h) in s.names then Removing(h) else Over)
    case StartRetrieve(j, h) =>
      Become(s, j, if Object(h) in s.names then Reading(h, s.names[Object(h)], []) else Retrieved(h, None, false))
    case Sweep(id) => Unlinked(s, Staging(id))
    case LateWrite(f, data) => Soiled(AppendTo(s, f, data), f, data != [])
    case By(j, act) => Act1(hs, s, j, act)
  }

  function Run(hs: Hasher, s: State, steps: seq<Step>): Option<State>
    decreases |steps|
  {
    if steps == [] then Some(s)
    else if !Enabled(s, steps[0]) then None
    else Run(hs, Apply(hs, s, steps[0]), steps[1..])
  }

  function Empty(): State {
    State(map[], [], map[], 0, {}, {})
  }

  // ------------------------------------------------------------ invariant

  /** The file a job may still append to. */
  function Writes(w: Job): Option<Inode> {
    match w
    case Writer(_, f, _, _, _, _, _, _) => Some(f)
    case Broken(_, f) => Some(f)
    case Copying(_, _, _, _, c, _) => Some(c)
    case _ => None
  }

  /** No job appends to the file any more. */
  ghost predicate Frozen(s: State, f: Inode) {
    f < |s.files| && forall j :: j in s.jobs ==> Writes(s.jobs[j]) != Some(f)
  }

  /** These bytes have hash h; they are the content, if the file is clean, or fewer. */
  ghost predicate Meant(hs: Hasher, good: Bytes, content: Bytes, h: Hash, dirty: bool) {
    hs.of(good) == h && if dirty then |good| < |content| else good == content
  }

  ghost predicate Kept(hs: Hasher, content: Bytes, h: Hash, dirty: bool) {
    exists good :: Meant(hs, good, content, h, dirty)
  }

  ghost predicate Whole(hs: Hasher, s: State, f: Inode, h: Hash) {
    Frozen(s, f) && Kept(hs, s.files[f], h, f in s.dirty)
  }

  /** A name, while it lasts, leads to this file. */
  ghost predicate Leads(s: State, p: Path, f: Inode) {
    p in s.names ==> s.names[p] == f
  }

  ghost predicate JobOk(hs: Hasher, s: State, w: Job) {
    match w
    case Writer(id, f, digest, hashed, staged, data, done, goal) =>
      && f < |s.files| && id < s.nextId && Leads(s, Staging(id), f) && done <= |data|
      && s.files[f] == staged + data[..done] && digest == hs.absorb(hashed)
      && (hashed == staged || |hashed| < |staged|)
      && (goal.Some? ==> hashed == staged && hs.of(hashed + data) == goal.value)
    case Broken(id, f) => f < |s.files| && id < s.nextId && Leads(s, Staging(id), f)
    case Placing(id, f, h) => id < s.nextId && Leads(s, Staging(id), f) && Whole(hs, s, f, h)
    case Renaming(id, f, h) => id < s.nextId && Leads(s, Staging(id), f) && Whole(hs, s, f, h)
    case Copying(id, f, h, tmp, c, copied) =>
      && id < s.nextId && tmp < s.nextId && Leads(s, Temp(h, tmp), c) && Whole(hs, s, f, h)
      && c < |s.files| && copied <= |s.files[f]| && s.files[c] == s.files[f][..copied]
    case Settling(id, h, tmp, c) => id < s.nextId && tmp < s.nextId && Leads(s, Temp(h, tmp), c) && Whole(hs, s, c, h)
    case Clearing(id) => id < s.nextId
    case Reading(h, f, got) => Whole(hs, s, f, h) && |got| <= |s.files[f]| && got == s.files[f][..|got|]
    case Retrieved(h, result, tainted) => result.Some? ==> Kept(hs, result.value, h, tainted)
    case _ => true
  }

  ghost predicate OneWriter(s: State) {
    forall j, j' :: j in s.jobs && j' in s.jobs && Writes(s.jobs[j]).Some? && Writes(s.jobs[j]) == Writes(s.jobs[j'])
        ==> j == j'
  }

  /** Every file at an object path is accounted for. */
  ghost predicate Objects(hs: Hasher, s: State) {
    forall h :: Object(h) in s.names ==> Whole(hs, s, s.names[Object(h)], h)
  }

  /** Sealed files with open handles, and dirty files, have no writer of their own. */
  ghost predicate Sealed(s: State) {
    forall f :: f in s.handles || f in s.dirty ==> Frozen(s, f)
  }

  ghost predicate Inv(hs: Hasher, s: State) {
    Objects(hs, s) && OneWriter(s) && Sealed(s) && forall j :: j in s.jobs ==> JobOk(hs, s, s.jobs[j])
  }

  // ---------------------------------------------------- one step, one job

  /** What a step of one job may do to everything else: append to its own file,
      open new files, drop staging and temporary names or make them under fresh ids. */
  ghost predicate Quiet(s: State, s': State, j: JobId) {
    && |s.files| <= |s'.files| && s.nextId <= s'.nextId
    && (forall f :: 0 <= f < |s.files| && !(j in s.jobs && Writes(s.jobs[j]) == Some(f)) ==> s'.files[f] == s.files[f])
    && (forall k :: k != j ==> (k in s'.jobs <==> k in s.jobs))
    && (forall k :: k != j && k in s.jobs ==> s'.jobs[k] == s.jobs[k])
    && (j in s'.jobs && Writes(s'.jobs[j]).Some? ==>
          Writes(s'.jobs[j]).value < |s'.files|
          && (Writes(s'.jobs[j]).value < |s.files| ==> j in s.jobs && Writes(s.jobs[j]) == Writes(s'.jobs[j])))
    && (forall p :: p in s'.names && Mine(s, p) ==> p in s.names && s'.names[p] == s.names[p])
    && (forall f :: 0 <= f < |s.files| && !(j in s.jobs && Writes(s.jobs[j]) == Some(f))
                    ==> (f in s'.dirty <==> f in s.dirty))
  }

  /** A staging or temporary name handed out before. */
  predicate Mine(s: State, p: Path) {
    !p.Object? && p.id < s.nextId
  }

  lemma {:induction false} FrozenStays(s: State, s': State, j: JobId, f: Inode)
    requires Quiet(s, s', j) && Frozen(s, f)
    ensures Frozen(s', f) && s'.files[f] == s.files[f] && (f in s'.dirty <==> f in s.dirty)
  {
    forall k | k in s'.jobs
      ensures Writes(s'.jobs[k]) != Some(f)
    {
      if k != j {
        assert s'.jobs[k] == s.jobs[k];
      }
    }
  }

  lemma {:induction false} WholeStays(hs: Hasher, s: State, s': State, j: JobId, f: Inode, h: Hash)
    requires Quiet(s, s', j) && Whole(hs, s, f, h)
    ensures Whole(hs, s', f, h) && s'.files[f] == s.files[f]
  {
    FrozenStays(s, s', j, f);
  }

  lemma {:induction false} LeadsStays(s: State, s': State, j: JobId, p: Path, f: Inode)
    requires Quiet(s, s', j) && Leads(s, p, f) && Mine(s, p)
    ensures Leads(s', p, f)
  {
  }

  /** The other jobs do not notice. */
  lemma {:induction false} OthersOk(hs: Hasher, s: State, s': State, j: JobId, k: JobId)
    requires Inv(hs, s) && Quiet(s, s', j) && k in s.jobs && k != j
    ensures JobOk(hs, s', s.jobs[k])
  {
    var w := s.jobs[k];
    assert JobOk(hs, s, w);
    assert Writes(w).Some? && j in s.jobs ==> Writes(s.jobs[j]) != Writes(w);
    match w
    case Writer(id, f, _, _, _, _, _, _) => LeadsStays(s, s', j, Staging(id), f);
    case Broken(id, f) => LeadsStays(s, s', j, Staging(id), f);
    case Placing(id, f, h) => LeadsStays(s, s', j, Staging(id), f); WholeStays(hs, s, s', j, f, h);
    case Renaming(id, f, h) => LeadsStays(s, s', j, Staging(id), f); WholeStays(hs, s, s', j, f, h);
    case Copying(id, f, h, tmp, c, _) => LeadsStays(s, s', j, Temp(h, tmp), c); WholeStays(hs, s, s', j, f, h);
    case Settling(id, h, tmp, c) => LeadsStays(s, s', j, Temp(h, tmp), c); WholeStays(hs, s, s', j, c, h);
    case Reading(h, f, _) => WholeStays(hs, s, s', j, f, h);
    case _ =>
  }

  lemma {:induction false} WritersStayApart(s: State, s': State, j: JobId)
    requires OneWriter(s) && Quiet(s, s', j)
    requires forall k :: k in s.jobs && Writes(s.jobs[k]).Some? ==> Writes(s.jobs[k]).value < |s.files|
    ensures OneWriter(s')
  {
    forall k, k' | k in s'.jobs && k' in s'.jobs && Writes(s'.jobs[k]).Some?
        && Writes(s'.jobs[k]) == Writes(s'.jobs[k'])
      ensures k == k'
    {
      assert k != j ==> s'.jobs[k] == s.jobs[k];
      assert k' != j ==> s'.jobs[k'] == s.jobs[k'];
    }
  }

  /** A quiet step keeps the invariant when the job itself is still in order
      and any new object name leads to a whole file. */
  lemma {:induction false} QuietKeeps(hs: Hasher, s: State, s': State, j: JobId)
    requires Inv(hs, s) && Quiet(s, s', j)
    requires j in s'.jobs ==> JobOk(hs, s', s'.jobs[j])
    requires forall h :: Object(h) in s'.names ==>
               (Object(h) in s.names && s'.names[Object(h)] == s.names[Object(h)])
                   || Whole(hs, s, s'.names[Object(h)], h)
    requires forall f :: f in s'.handles || f in s'.dirty ==> f in s.handles || f in s.dirty || Frozen(s', f)
    ensures Inv(hs, s')
  {
    forall f | f in s'.handles || f in s'.dirty
      ensures Frozen(s', f)
    {
      if f in s.handles || f in s.dirty {
        FrozenStays(s, s', j, f);
      }
    }
    forall h | Object(h) in s'.names
      ensures Whole(hs, s', s'.names[Object(h)], h)
    {
      WholeStays(hs, s, s', j, s'.names[Object(h)], h);
    }
    forall k | k in s'.jobs
      ensures JobOk(hs, s', s'.jobs[k])
    {
      if k != j {
        assert s'.jobs[k] == s.jobs[k];
        OthersOk(hs, s, s', j, k);
      }
    }
    WritersKnown(hs, s);
    WritersStayApart(s, s', j);
  }

  lemma {:induction false} WritersKnown(hs: Hasher, s: State)
    requires Inv(hs, s)
    ensures forall k :: k in s.jobs && Writes(s.jobs[k]).Some? ==> Writes(s.jobs[k]).value < |s.files|
  {
    forall k | k in s.jobs && Writes(s.jobs[k]).Some?
      ensures Writes(s.jobs[k]).value < |s.files|
    {
      assert JobOk(hs, s, s.jobs[k]);
    }
  }

  // --------------------------------------------------- every kind of step

  /** Steps that only change the job. */
  lemma {:induction false} LocalKeeps(hs: Hasher, s: State, j: JobId, w: Job)
    requires Inv(hs, s) && JobOk(hs, Become(s, j, w), w)
    requires Writes(w).Some? ==> j in s.jobs && Writes(s.jobs[j]) == Writes(w)
    ensures Inv(hs, Become(s, j, w))
  {
    WritersKnown(hs, s);
    QuietKeeps(hs, s, Become(s, j, w), j);
  }

  /** When the one writer of a file stops writing, the file is frozen. */
  lemma {:induction false} StopsWriting(hs: Hasher, s: State, j: JobId, w: Job)
    requires Inv(hs, s) && j in s.jobs && Writes(s.jobs[j]).Some? && Writes(w).None?
    ensures Frozen(Become(s, j, w), Writes(s.jobs[j]).value)
  {
    WritersKnown(hs, s);
  }

  /** Frozen files stay frozen when a job that wrote nothing moves on. */
  lemma {:induction false} StillWhole(hs: Hasher, s: State, j: JobId, w: Job, f: Inode, h: Hash)
    requires Whole(hs, s, f, h) && Writes(w).None?
    ensures Whole(hs, Become(s, j, w), f, h)
  {
    assert Become(s, j, w).files[f] == s.files[f];
  }

  lemma {:induction false} WriterMovesOn(hs: Hasher, s: State, j: JobId, act: Act)
    requires Incremental(hs) && Inv(hs, s) && Enabled(s, By(j, act))
    requires act.BeginWrite? || act.EndWrite? || act.FailWrite? || act.Abandon?
    ensures Inv(hs, Act1(hs, s, j, act))
  {
    var w := s.jobs[j];
    assert JobOk(hs, s, w);
    if act.EndWrite? {
      assert w.staged + w.data[..w.done] == w.staged + w.data;
      assert (w.staged + w.data) + [] == w.staged + w.data && (w.hashed + w.data) + [] == w.hashed + w.data;
    } else if act.BeginWrite? {
      assert w.staged + w.data[..w.done] == w.staged && w.staged + act.data[..0] == w.staged;
    } else if act.FailWrite? {
      assert (w.staged + w.data[..w.done]) + [][..0] == w.staged + w.data[..w.done];
    }
    LocalKeeps(hs, s, j, Act1(hs, s, j, act).jobs[j]);
  }

  /** A file its owner still writes is neither sealed nor dirty. */
  lemma {:induction false} StillClean(s: State, j: JobId)
    requires Sealed(s) && j in s.jobs && Writes(s.jobs[j]).Some?
    ensures Writes(s.jobs[j]).value !in s.dirty && Writes(s.jobs[j]).value !in s.handles
  {
  }

  lemma {:induction false} WholeContent(hs: Hasher, content: Bytes)
    ensures Kept(hs, content, hs.of(content), false)
  {
    assert Meant(hs, content, content, hs.of(content), false);
  }

  /** Finalizing: the file is dirty if a failed write had left bytes in it. */
  lemma {:induction false} WriterFinalizes(hs: Hasher, s: State, j: JobId)
    requires Incremental(hs) && Inv(hs, s) && Enabled(s, By(j, Finalize))
    ensures Inv(hs, Act1(hs, s, j, Finalize))
  {
    var w, s' := s.jobs[j], Act1(hs, s, j, Finalize);
    assert JobOk(hs, s, w);
    assert w.staged + w.data[..w.done] == w.staged && w.hashed + w.data == w.hashed;
    StopsWriting(hs, s, j, s'.jobs[j]);
    StillClean(s, j);
    assert Frozen(s', w.file);
    assert Meant(hs, w.hashed, s'.files[w.file], s'.jobs[j].hash, w.file in s'.dirty);
    QuietKeeps(hs, s, s', j);
  }

  lemma {:induction false} WriterSeals(hs: Hasher, s: State, j: JobId)
    requires Inv(hs, s) && Enabled(s, By(j, Seal))
    ensures Inv(hs, Act1(hs, s, j, Seal))
  {
    var w, s' := s.jobs[j], Act1(hs, s, j, Seal);
    assert JobOk(hs, s, w);
    StopsWriting(hs, s, j, s'.jobs[j]);
    StillClean(s, j);
    WholeContent(hs, s.files[w.file]);
    assert Frozen(s', w.file);
    QuietKeeps(hs, s, s', j);
  }

  lemma {:induction false} PlacerMovesOn(hs: Hasher, s: State, j: JobId, act: Act)
    requires Inv(hs, s) && Enabled(s, By(j, act)) && (act.CheckSlot? || act.RenameFails?)
    ensures Inv(hs, Act1(hs, s, j, act))
  {
    var w := s.jobs[j];
    assert JobOk(hs, s, w);
    var w' := Act1(hs, s, j, act).jobs[j];
    StillWhole(hs, s, j, w', w.file, w.hash);
    LocalKeeps(hs, s, j, w');
  }

  lemma {:induction false} CopierFails(hs: Hasher, s: State, j: JobId)
    requires Inv(hs, s) && Enabled(s, By(j, CopyFails))
    ensures Inv(hs, Act1(hs, s, j, CopyFails))
  {
    LocalKeeps(hs, s, j, Over);
  }

  /** The finished copy is as clean as its source. */
  lemma {:induction false} CopierFinishes(hs: Hasher, s: State, j: JobId)
    requires Inv(hs, s) && Enabled(s, By(j, CopyDone))
    ensures Inv(hs, Act1(hs, s, j, CopyDone))
  {
    var w, s' := s.jobs[j], Act1(hs, s, j, CopyDone);
    assert JobOk(hs, s, w);
    StopsWriting(hs, s, j, s'.jobs[j]);
    StillClean(s, j);
    assert s.files[w.file][..w.copied] == s.files[w.file];
    assert Frozen(s', w.copy);
    assert Kept(hs, s'.files[w.copy], w.hash, w.copy in s'.dirty);
    QuietKeeps(hs, s, s', j);
  }

  lemma {:induction false} ReaderMovesOn(hs: Hasher, s: State, j: JobId, act: Act)
    requires Inv(hs, s) && Enabled(s, By(j, act)) && (act.ReadMore? || act.ReadEnd?)
    ensures Inv(hs, Act1(hs, s, j, act))
  {
    var w := s.jobs[j];
    assert JobOk(hs, s, w);
    var w' := Act1(hs, s, j, act).jobs[j];
    StillWhole(hs, s, j, w', w.file, w.hash);
    var all := s.files[w.file];
    if act.ReadMore? {
      assert all[..|w.got|] + all[|w.got|..|w.got| + act.n] == all[..|w.got| + act.n];
    } else {
      assert all[..|w.got|] == all;
    }
    LocalKeeps(hs, s, j, w');
  }

  lemma {:induction false} AppendKeeps(hs: Hasher, s: State, j: JobId, n: nat)
    requires Inv(hs, s) && Enabled(s, By(j, Append(n)))
    ensures Inv(hs, Act1(hs, s, j, Append(n)))
  {
    var w := s.jobs[j];
    assert JobOk(hs, s, w);
    assert w.staged + w.data[..w.done] + w.data[w.done..w.done + n] == w.staged + w.data[..w.done + n];
    QuietKeeps(hs, s, Act1(hs, s, j, Append(n)), j);
  }

  lemma {:induction false} CopyMoreKeeps(hs: Hasher, s: State, j: JobId, n: nat)
    requires Inv(hs, s) && Enabled(s, By(j, CopyMore(n)))
    ensures Inv(hs, Act1(hs, s, j, CopyMore(n)))
  {
    var w := s.jobs[j];
    var s' := Act1(hs, s, j, CopyMore(n));
    assert JobOk(hs, s, w);
    var from := s.files[w.file];
    assert from[..w.copied] + from[w.copied..w.copied + n] == from[..w.copied + n];
    assert w.file != w.copy by {
      assert Writes(s.jobs[j]) == Some(w.copy);
    }
    assert Quiet(s, s', j);
    WholeStays(hs, s, s', j, w.file, w.hash);
    QuietKeeps(hs, s, s', j);
  }

  lemma {:induction false} UnlinkKeeps(hs: Hasher, s: State, p: Path)
    requires Inv(hs, s)
    ensures Inv(hs, Unlinked(s, p))
  {
    var s' := Unlinked(s, p);
    forall j | j in s'.jobs
      ensures JobOk(hs, s', s'.jobs[j])
    {
      assert JobOk(hs, s, s.jobs[j]);
    }
    assert forall f, h :: Whole(hs, s, f, h) ==> Whole(hs, s', f, h);
  }

  /** Renaming a whole file into its slot. */
  lemma {:induction false} RenameKeeps(hs: Hasher, s: State, j: JobId, from: Path, h: Hash, w: Job)
    requires Inv(hs, s) && j in s.jobs && from in s.names && !from.Object? && Whole(hs, s, s.names[from], h)
    requires Writes(w).None? && JobOk(hs, Become(Rename(s, from, Object(h)), j, w), w)
    ensures Inv(hs, Become(Rename(s, from, Object(h)), j, w))
  {
    QuietKeeps(hs, s, Become(Rename(s, from, Object(h)), j, w), j);
  }

  lemma {:induction false} CrossDeviceKeeps(hs: Hasher, s: State, j: JobId)
    requires Inv(hs, s) && Enabled(s, By(j, CrossDevice))
    ensures Inv(hs, Act1(hs, s, j, CrossDevice))
  {
    var w := s.jobs[j];
    var s' := Act1(hs, s, j, CrossDevice);
    assert JobOk(hs, s, w);
    assert Quiet(s, s', j);
    WholeStays(hs, s, s', j, w.file, w.hash);
    QuietKeeps(hs, s, s', j);
  }

  lemma {:induction false} OpenKeeps(hs: Hasher, s: State, j: JobId, data: Bytes, goal: Option<Hash>)
    requires Incremental(hs) && Inv(hs, s) && j !in s.jobs && (goal.Some? ==> hs.of(data) == goal.value)
    ensures Inv(hs, OpenStaging(hs, s, j, data, goal))
  {
    assert [] + data == data && [] + data[..0] == [];
    QuietKeeps(hs, s, OpenStaging(hs, s, j, data, goal), j);
  }

  lemma {:induction false} StopKeeps(hs: Hasher, s: State, j: JobId)
    requires Inv(hs, s) && Enabled(s, By(j, Stop))
    ensures Inv(hs, Act1(hs, s, j, Stop))
  {
    QuietKeeps(hs, s, Act1(hs, s, j, Stop), j);
  }

  /** The steps that only move or drop names. */
  lemma {:induction false} NamesMove(hs: Hasher, s: State, j: JobId, act: Act)
    requires Inv(hs, s) && Enabled(s, By(j, act))
    requires act.RenameOk? || act.SettleOk? || act.SettleFails? || act.Clear? || act.Unlink?
    ensures Inv(hs, Act1(hs, s, j, act))
  {
    var w := s.jobs[j];
    if act.RenameOk? || act.SettleOk? {
      PlacesWhole(hs, s, j, act);
    } else {
      var p := if act.SettleFails? then Temp(w.hash, w.tmp) else if act.Clear? then Staging(w.id) else Object(w.hash);
      UnlinkKeeps(hs, s, p);
      LocalKeeps(hs, Unlinked(s, p), j, Over);
    }
  }

  lemma {:induction false} PlacesWhole(hs: Hasher, s: State, j: JobId, act: Act)
    requires Inv(hs, s) && Enabled(s, By(j, act)) && (act.RenameOk? || act.SettleOk?)
    ensures Inv(hs, Act1(hs, s, j, act))
  {
    var w := s.jobs[j];
    assert JobOk(hs, s, w);
    if act.RenameOk? {
      RenameKeeps(hs, s, j, Staging(w.id), w.hash, Over);
    } else {
      RenameKeeps(hs, s, j, Temp(w.hash, w.tmp), w.hash, Clearing(w.id));
    }
  }

  lemma {:induction false} ActKeeps(hs: Hasher, s: State, j: JobId, act: Act)
    requires Incremental(hs) && Inv(hs, s) && Enabled(s, By(j, act))
    ensures Inv(hs, Act1(hs, s, j, act))
  {
    match act
    case BeginWrite(_) => WriterMovesOn(hs, s, j, act);
    case Append(n) => AppendKeeps(hs, s, j, n);
    case EndWrite => WriterMovesOn(hs, s, j, act);
    case FailWrite => WriterMovesOn(hs, s, j, act);
    case Finalize => WriterFinalizes(hs, s, j);
    case Seal => WriterSeals(hs, s, j);
    case Abandon => WriterMovesOn(hs, s, j, act);
    case CheckSlot => PlacerMovesOn(hs, s, j, act);
    case RenameFails(_) => PlacerMovesOn(hs, s, j, act);
    case CrossDevice => CrossDeviceKeeps(hs, s, j);
    case CopyMore(n) => CopyMoreKeeps(hs, s, j, n);
    case CopyDone => CopierFinishes(hs, s, j);
    case CopyFails => CopierFails(hs, s, j);
    case ReadMore(_) => ReaderMovesOn(hs, s, j, act);
    case ReadEnd => ReaderMovesOn(hs, s, j, act);
    case Stop => StopKeeps(hs, s, j);
    case _ => NamesMove(hs, s, j, act);
  }

  /** More bytes at the end leave what was meant as it was. */
  lemma {:induction false} KeptLonger(hs: Hasher, content: Bytes, h: Hash, dirty: bool, data: Bytes)
    requires Kept(hs, content, h, dirty)
    ensures Kept(hs, content + data, h, dirty || data != [])
  {
    var good :| Meant(hs, good, content, h, dirty);
    assert data == [] ==> content + data == content;
    assert Meant(hs, good, content + data, h, dirty || data != []);
  }

  lemma {:induction false} WholeLate(hs: Hasher, s: State, f: Inode, data: Bytes, g: Inode, h: Hash)
    requires f in s.handles && f < |s.files| && Whole(hs, s, g, h)
    ensures Whole(hs, Apply(hs, s, LateWrite(f, data)), g, h)
  {
    KeptLonger(hs, s.files[g], h, g in s.dirty, data);
  }

  lemma {:induction false} LateJobOk(hs: Hasher, s: State, f: Inode, data: Bytes, j: JobId)
    requires Inv(hs, s) && Enabled(s, LateWrite(f, data)) && j in s.jobs
    ensures JobOk(hs, Apply(hs, s, LateWrite(f, data)), s.jobs[j])
  {
    var w := s.jobs[j];
    assert JobOk(hs, s, w);
    assert Frozen(s, f);
    match w
    case Placing(_, g, h) => WholeLate(hs, s, f, data, g, h);
    case Renaming(_, g, h) => WholeLate(hs, s, f, data, g, h);
    case Copying(_, g, h, _, c, copied) =>
      WholeLate(hs, s, f, data, g, h);
      assert (s.files[g] + data)[..copied] == s.files[g][..copied];
    case Settling(_, h, _, c) => WholeLate(hs, s, f, data, c, h);
    case Reading(h, g, got) =>
      WholeLate(hs, s, f, data, g, h);
      assert (s.files[g] + data)[..|got|] == s.files[g][..|got|];
    case _ =>
  }

  lemma {:induction false} LateKeeps(hs: Hasher, s: State, f: Inode, data: Bytes)
    requires Inv(hs, s) && Enabled(s, LateWrite(f, data))
    ensures Inv(hs, Apply(hs, s, LateWrite(f, data)))
  {
    var s' := Apply(hs, s, LateWrite(f, data));
    forall j | j in s'.jobs
      ensures JobOk(hs, s', s'.jobs[j])
    {
      LateJobOk(hs, s, f, data, j);
    }
    forall h | Object(h) in s'.names
      ensures Whole(hs, s', s'.names[Object(h)], h)
    {
      WholeLate(hs, s, f, data, s.names[Object(h)], h);
    }
    forall g | g in s'.handles || g in s'.dirty
      ensures Frozen(s', g)
    {
      assert Frozen(s, f) && (g in s.handles || g in s.dirty ==> Frozen(s, g));
    }
  }

  lemma {:induction false} StepKeeps(hs: Hasher, s: State, a: Step)
    requires Incremental(hs) && Inv(hs, s) && Enabled(s, a)
    ensures Inv(hs, Apply(hs, s, a))
  {
    match a
    case StartStore(j, whole) =>
      if Object(hs.of(whole)) in s.names {
        LocalKeeps(hs, s, j, Over);
      } else {
        OpenKeeps(hs, s, j, whole, Some(hs.of(whole)));
      }
    case StartStream(j) => OpenKeeps(hs, s, j, [], None);
    case StartRemove(j, h) => LocalKeeps(hs, s, j, Apply(hs, s, a).jobs[j]);
    case StartRetrieve(j, h) =>
      var w := Apply(hs, s, a).jobs[j];
      if Object(h) in s.names {
        StillWhole(hs, s, j, w, s.names[Object(h)], h);
      }
      LocalKeeps(hs, s, j, w);
    case Sweep(id) => UnlinkKeeps(hs, s, Staging(id));
    case LateWrite(f, data) => LateKeeps(hs, s, f, data);
    case By(j, act) => ActKeeps(hs, s, j, act);
  }

  lemma {:induction false} RunKeeps(hs: Hasher, s: State, steps: seq<Step>)
    requires Incremental(hs) && Inv(hs, s) && Run(hs, s, steps).Some?
    ensures Inv(hs, Run(hs, s, steps).value)
    decreases |steps|
  {
    if steps != [] {
      StepKeeps(hs, s, steps[0]);
      RunKeeps(hs, Apply(hs, s, steps[0]), steps[1..]);
    }
  }

  predicate HoldsHash(hs: Hasher, s: State, h: Hash) {
    Object(h) in s.names && s.names[Object(h)] < |s.files| && hs.of(s.files[s.names[Object(h)]]) == h
  }

  /** No two contents have one hash. */
  ghost predicate CollisionFree(hs: Hasher) {
    forall a, b :: hs.of(a) == hs.of(b) ==> a == b
  }

  lemma {:induction false} KeptExactly(hs: Hasher, content: Bytes, h: Hash, dirty: bool)
    requires Kept(hs, content, h, dirty)
    ensures !dirty ==> hs.of(content) == h
    ensures CollisionFree(hs) && dirty ==> hs.of(content) != h
  {
    var good :| Meant(hs, good, content, h, dirty);
  }

  /** What is torn, in every run: with a hash free of collisions, an object's
      file hashes to its path exactly when it is not dirty, and a retrieve gave
      bytes of its hash exactly when the file it read was not. */
  lemma {:induction false} TornExactly(hs: Hasher, steps: seq<Step>, s: State)
    requires Incremental(hs) && CollisionFree(hs) && Run(hs, Empty(), steps) == Some(s)
    ensures forall h :: Object(h) in s.names ==> (HoldsHash(hs, s, h) <==> s.names[Object(h)] !in s.dirty)
    ensures forall j :: j in s.jobs && s.jobs[j].Retrieved? && s.jobs[j].result.Some? ==>
              (hs.of(s.jobs[j].result.value) == s.jobs[j].hash <==> !s.jobs[j].tainted)
  {
    RunKeeps(hs, Empty(), steps);
    forall h | Object(h) in s.names
      ensures HoldsHash(hs, s, h) <==> s.names[Object(h)] !in s.dirty
    {
      var f := s.names[Object(h)];
      KeptExactly(hs, s.files[f], h, f in s.dirty);
    }
    forall j | j in s.jobs && s.jobs[j].Retrieved? && s.jobs[j].result.Some?
      ensures hs.of(s.jobs[j].result.value) == s.jobs[j].hash <==> !s.jobs[j].tainted
    {
      assert JobOk(hs, s, s.jobs[j]);
      KeptExactly(hs, s.jobs[j].result.value, s.jobs[j].hash, s.jobs[j].tainted);
    }
  }

  /** A step that puts in a byte no hash covers: a write through the handle of
      a sealed chunk, or finalizing a stream after a write that failed part-way,
      whatever was written since. */
  predicate PutsAByte(s: State, a: Step)
    requires Enabled(s, a)
  {
    match a
    case LateWrite(_, data) => data != []
    case By(j, Finalize) => Unhashed(s.jobs[j])
    case _ => false
  }

  /** No step of the run does. */
  predicate Careful(hs: Hasher, s: State, steps: seq<Step>)
    requires Run(hs, s, steps).Some?
    decreases |steps|
  {
    steps == [] || (!PutsAByte(s, steps[0]) && Careful(hs, Apply(hs, s, steps[0]), steps[1..]))
  }

  ghost predicate Untainted(s: State) {
    s.dirty == {} && forall j :: j in s.jobs && s.jobs[j].Retrieved? ==> !s.jobs[j].tainted
  }

  lemma {:induction false} StepDirties(hs: Hasher, s: State, a: Step)
    requires Enabled(s, a)
    ensures s.dirty <= Apply(hs, s, a).dirty
    ensures PutsAByte(s, a) ==> Apply(hs, s, a).dirty != {}
    ensures Untainted(s) && !PutsAByte(s, a) ==> Untainted(Apply(hs, s, a))
  {
    var s' := Apply(hs, s, a);
    if a.LateWrite? && a.data != [] {
      assert a.file in s'.dirty;
    } else if a.By? && a.act.Finalize? && Unhashed(s.jobs[a.j]) {
      assert s.jobs[a.j].file in s'.dirty;
    }
  }

  lemma {:induction false} DirtyStays(hs: Hasher, s: State, steps: seq<Step>)
    requires Run(hs, s, steps).Some?
    ensures s.dirty <= Run(hs, s, steps).value.dirty
    decreases |steps|
  {
    if steps != [] {
      StepDirties(hs, s, steps[0]);
      DirtyStays(hs, Apply(hs, s, steps[0]), steps[1..]);
    }
  }

  /** A run makes no file dirty exactly when no step of it puts in such a byte. */
  lemma {:induction false} CleanExactly(hs: Hasher, s: State, steps: seq<Step>)
    requires Untainted(s) && Run(hs, s, steps).Some?
    ensures Careful(hs, s, steps) ==> Untainted(Run(hs, s, steps).value)
    ensures !Careful(hs, s, steps) ==> Run(hs, s, steps).value.dirty != {}
    decreases |steps|
  {
    if steps != [] {
      var s1 := Apply(hs, s, steps[0]);
      StepDirties(hs, s, steps[0]);
      if PutsAByte(s, steps[0]) {
        DirtyStays(hs, s1, steps[1..]);
      } else {
        CleanExactly(hs, s1, steps[1..]);
      }
    }
  }

  /** Never torn: in every careful run, whatever interleaved and wherever jobs
      were stopped, every object file hashes to its path, and every retrieve
      that returned gave nothing or bytes of the requested hash. */
  lemma {:induction false} NothingTorn(hs: Hasher, steps: seq<Step>, s: State)
    requires Incremental(hs) && Run(hs, Empty(), steps) == Some(s) && Careful(hs, Empty(), steps)
    ensures forall h :: Object(h) in s.names ==> HoldsHash(hs, s, h)
    ensures forall j :: j in s.jobs && s.jobs[j].Retrieved? && s.jobs[j].result.Some?
                        ==> hs.of(s.jobs[j].result.value) == s.jobs[j].hash
  {
    RunKeeps(hs, Empty(), steps);
    CleanExactly(hs, Empty(), steps);
    forall h | Object(h) in s.names
      ensures HoldsHash(hs, s, h)
    {
      KeptExactly(hs, s.files[s.names[Object(h)]], h, false);
    }
    forall j | j in s.jobs && s.jobs[j].Retrieved? && s.jobs[j].result.Some?
      ensures hs.of(s.jobs[j].result.value) == s.jobs[j].hash
    {
      assert JobOk(hs, s, s.jobs[j]);
      KeptExactly(hs, s.jobs[j].result.value, s.jobs[j].hash, false);
    }
  }

  // ------------------------------------------------- what the proof needs

  lemma {:induction false} RunOne(hs: Hasher, s: State, a: Step, rest: seq<Step>, end: State)
    requires Enabled(s, a) && Run(hs, Apply(hs, s, a), rest) == Some(end)
    ensures Run(hs, s, [a] + rest) == Some(end)
  {
    assert ([a] + rest)[1..] == rest;
  }

  /** A store with one job and one file. */
  function Solo(names: map<Path, Inode>, content: Bytes, w: Job): State {
    State(names, [content], map[0 := w], 1, {}, {})
  }

  /** The same, sealed with the handle open. */
  function SoloSealed(names: map<Path, Inode>, content: Bytes, w: Job, dirty: set<Inode>): State {
    State(names, [content], map[0 := w], 1, {0}, dirty)
  }

  /** One writer streams `a` in one chunk and seals it. */
  function SealRun(a: Bytes): seq<Step> {
    [StartStream(0)] + ([By(0, BeginWrite(a))] + ([By(0, Append(|a|))] + ([By(0, EndWrite)]
    + ([By(0, Seal)] + ([By(0, CheckSlot)] + ([By(0, RenameOk)] + []))))))
  }

  lemma {:induction false} SoloMove(names: map<Path, Inode>, content: Bytes, w: Job, w': Job)
    ensures Become(Solo(names, content, w), 0, w') == Solo(names, content, w')
  {
    assert map[0 := w][0 := w'] == map[0 := w'];
  }

  lemma {:induction false} SealRunPlaces(hs: Hasher, a: Bytes, rest: seq<Step>, end: State)
    requires Run(hs, SoloSealed(map[Object(hs.of(a)) := 0], a, Over, {}), rest) == Some(end)
    ensures Run(hs, SoloSealed(map[Staging(0) := 0], a, Placing(0, 0, hs.of(a)), {}),
            [By(0, CheckSlot)] + ([By(0, RenameOk)] + rest)) == Some(end)
  {
    var h, names := hs.of(a), map[Staging(0) := 0];
    var s0 := SoloSealed(names, a, Placing(0, 0, h), {});
    var s1 := SoloSealed(names, a, Renaming(0, 0, h), {});
    var s2 := SoloSealed(map[Object(h) := 0], a, Over, {});
    assert s0.jobs[0 := Renaming(0, 0, h)] == s1.jobs && s1.jobs[0 := Over] == s2.jobs;
    assert (names - {Staging(0)})[Object(h) := 0] == map[Object(h) := 0];
    assert Apply(hs, s0, By(0, CheckSlot)) == s1 && Apply(hs, s1, By(0, RenameOk)) == s2;
    RunOne(hs, s1, By(0, RenameOk), rest, end);
    RunOne(hs, s0, By(0, CheckSlot), [By(0, RenameOk)] + rest, end);
  }

  lemma {:induction false} SealRunSeals(hs: Hasher, a: Bytes, rest: seq<Step>, end: State)
    requires Run(hs, SoloSealed(map[Staging(0) := 0], a, Placing(0, 0, hs.of(a)), {}), rest) == Some(end)
    ensures Run(hs, Solo(map[Staging(0) := 0], a, Writer(0, 0, hs.init, [], [], a, |a|, None)),
            [By(0, EndWrite)] + ([By(0, Seal)] + rest)) == Some(end)
  {
    var names := map[Staging(0) := 0];
    var w0 := Writer(0, 0, hs.init, [], [], a, |a|, None);
    var w1 := Writer(0, 0, hs.update(hs.init, a), [] + a, [] + a, [], 0, None);
    var s0, s1, s2 := Solo(names, a, w0), Solo(names, a, w1), SoloSealed(names, a, Placing(0, 0, hs.of(a)), {});
    assert s0.jobs[0 := w1] == s1.jobs && s1.jobs[0 := Placing(0, 0, hs.of(a))] == s2.jobs && {} + {0} == {0};
    assert Apply(hs, s0, By(0, EndWrite)) == s1;
    assert Apply(hs, s1, By(0, Seal)) == s2;
    RunOne(hs, s1, By(0, Seal), rest, end);
    RunOne(hs, s0, By(0, EndWrite), [By(0, Seal)] + rest, end);
  }

  lemma {:induction false} SealRunWrites(hs: Hasher, a: Bytes, rest: seq<Step>, end: State)
    requires Run(hs, Solo(map[Staging(0) := 0], a, Writer(0, 0, hs.init, [], [], a, |a|, None)), rest) == Some(end)
    ensures Run(hs, Empty(), [StartStream(0)] + ([By(0, BeginWrite(a))] + ([By(0, Append(|a|))] + rest))) == Some(end)
  {
    var names := map[Staging(0) := 0];
    var w0 := Writer(0, 0, hs.init, [], [], [], 0, None);
    var w1 := Writer(0, 0, hs.init, [], [], a, 0, None);
    var w2 := Writer(0, 0, hs.init, [], [], a, |a|, None);
    var s0, s1, s2 := Solo(names, [], w0), Solo(names, [], w1), Solo(names, a, w2);
    assert Apply(hs, Empty(), StartStream(0)) == s0;
    SoloMove(names, [], w0, w1);
    SoloMove(names, a, w1, w2);
    assert Apply(hs, s0, By(0, BeginWrite(a))) == s1;
    assert a[0..|a|] == a && [] + a == a;
    assert AppendTo(s1, 0, a) == Solo(names, a, w1);
    assert Apply(hs, s1, By(0, Append(|a|))) == s2;
    RunOne(hs, s1, By(0, Append(|a|)), rest, end);
    RunOne(hs, s0, By(0, BeginWrite(a)), [By(0, Append(|a|))] + rest, end);
    RunOne(hs, Empty(), StartStream(0), [By(0, BeginWrite(a))] + ([By(0, Append(|a|))] + rest), end);
  }

  /** Sealing moves the file itself: a byte written through the handle kept
      open lands in the object, which no longer hashes to its path. */
  lemma {:induction false} WriteAfterSealTears(hs: Hasher, a: Bytes, c: Bytes) returns (s: State)
    requires CollisionFree(hs) && c != []
    ensures Run(hs, Empty(), SealRun(a) + [LateWrite(0, c)]) == Some(s) && Object(hs.of(a)) in s.names
            && !HoldsHash(hs, s, hs.of(a))
  {
    var h := hs.of(a);
    var placed := SoloSealed(map[Object(h) := 0], a, Over, {});
    s := SoloSealed(map[Object(h) := 0], a + c, Over, {0});
    assert {} + {0} == {0} && [a][0 := a + c] == [a + c];
    assert Apply(hs, placed, LateWrite(0, c)) == s;
    RunOne(hs, placed, LateWrite(0, c), [], s);
    var last := [LateWrite(0, c)] + [];
    SealRunPlaces(hs, a, last, s);
    SealRunSeals(hs, a, [By(0, CheckSlot)] + ([By(0, RenameOk)] + last), s);
    SealRunWrites(hs, a, [By(0, EndWrite)] + ([By(0, Seal)] + ([By(0, CheckSlot)] + ([By(0, RenameOk)] + last))), s);
    SealRunThen(a, last);
    assert last == [LateWrite(0, c)] && |a + c| != |a|;
  }

  lemma {:induction false} SealRunThen(a: Bytes, last: seq<Step>)
    ensures SealRun(a) + last == [StartStream(0)] + ([By(0, BeginWrite(a))] + ([By(0, Append(|a|))] + ([By(0, EndWrite)]
                                 + ([By(0, Seal)] + ([By(0, CheckSlot)] + ([By(0, RenameOk)] + last))))))
  {
  }
}
