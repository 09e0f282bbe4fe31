/** The file store's operations run to completion on a disk, and the streaming
    writer with its staging chunk. */
module CasFiles {
  import opened Prelude
  import opened CasStore

  /** What the paths show: a path and the bytes under it. */
  type View = map<Path, Bytes>

  /** A file moved into an object slot: kept out if the slot is taken. */
  function PlacedAt(v: View, from: Path, to: Path): View
    requires from in v
  {
    if to in v then v - {from} else (v - {from})[to := v[from]]
  }

  function StoredIn(hs: Hasher, v: View, data: Bytes): View {
    if Object(hs.of(data)) in v then v else v[Object(hs.of(data)) := data]
  }

  /** Reading back what was stored gives the bytes, or what was there before
      under the same hash. */
  lemma {:induction false} StoreThenRetrieve(hs: Hasher, v: View, data: Bytes)
    requires forall h :: Object(h) in v ==> hs.of(v[Object(h)]) == h
    ensures var p, v' := Object(hs.of(data)), StoredIn(hs, v, data);
            && p in v' && hs.of(v'[p]) == hs.of(data)
            && ((forall b :: hs.of(b) == hs.of(data) ==> b == data) ==> v'[p] == data)
            && (forall h :: Object(h) in v' ==> hs.of(v'[Object(h)]) == h)
            && forall q :: q in v ==> q in v' && v'[q] == v[q]
  {
  }

  class Disk {
    var names: map<Path, Inode>
    var files: seq<Bytes>

    ghost predicate Valid()
      reads this
    {
      && (forall p :: p in names ==> names[p] < |files|)
      && (forall p, q :: p in names && q in names && names[p] == names[q] ==> p == q)
    }

    ghost function Show(): View
      requires Valid()
      reads this
    {
      map p | p in names :: files[names[p]]
    }

    constructor ()
      ensures Valid() && Show() == map[]
    {
      names, files := map[], [];
    }

    /** A new empty file under a name not in use. */
    method CreateFile(p: Path) returns (f: Inode)
      requires Valid() && p !in names
      modifies this
      ensures Valid() && p in names && names[p] == f && Show() == old(Show())[p := []]
      ensures f == |old(files)| && names == old(names)[p := f]
    {
      f := |files|;
      names, files := names[p := f], files + [[]];
    }

    method AppendBytes(p: Path, data: Bytes)
      requires Valid() && p in names
      modifies this`files
      ensures Valid() && Show() == old(Show())[p := old(Show())[p] + data]
    {
      var f := names[p];
      files := files[f := files[f] + data];
    }

    method RenameFile(from: Path, to: Path)
      requires Valid() && from in names && from != to
      modifies this`names
      ensures Valid() && Show() == (old(Show()) - {from})[to := old(Show())[from]]
    {
      var f := names[from];
      names := (names - {from})[to := f];
    }

    method UnlinkFile(p: Path)
      requires Valid()
      modifies this`names
      ensures Valid() && Show() == old(Show()) - {p}
    {
      names := names - {p};
    }
  }

  lemma {:induction false} AcrossIsPlaced(v: View, staging: Path, obj: Path, tmp: Path)
    requires staging in v && obj !in v && tmp !in v && staging != obj && staging != tmp && obj != tmp
    ensures var v1 := v[tmp := []];
            var v2 := v1[tmp := v1[tmp] + v[staging]];
            (v2 - {tmp})[obj := v2[tmp]] - {staging} == PlacedAt(v, staging, obj)
  {
    assert [] + v[staging] == v[staging];
  }

  /** The move across file systems: copy beside the slot, rename, drop the staging file. */
  method CopyAcross(disk: Disk, staging: Path, obj: Path, tmp: Path)
    requires disk.Valid() && staging in disk.names && obj !in disk.names && tmp !in disk.names
    requires staging != obj && staging != tmp && obj != tmp
    modifies disk
    ensures disk.Valid() && disk.Show() == PlacedAt(old(disk.Show()), staging, obj)
  {
    ghost var v := disk.Show();
    var data := disk.files[disk.names[staging]];
    var _ := disk.CreateFile(tmp);
    disk.AppendBytes(tmp, data);
    disk.RenameFile(tmp, obj);
    disk.UnlinkFile(staging);
    AcrossIsPlaced(v, staging, obj, tmp);
  }

  /** The move into the object slot; `crossDevice` is what the rename reports.
      Either way the paths end up the same. */
  method PlaceObject(disk: Disk, staging: Path, obj: Path, tmp: Path, crossDevice: bool)
    requires disk.Valid() && staging in disk.names && obj.Object? && staging.Staging? && tmp.Temp? && tmp !in disk.names
    modifies disk
    ensures disk.Valid() && disk.Show() == PlacedAt(old(disk.Show()), staging, obj)
  {
    if obj in disk.names {
      disk.UnlinkFile(staging);
    } else if !crossDevice {
      disk.RenameFile(staging, obj);
    } else {
      CopyAcross(disk, staging, obj, tmp);
    }
  }

  /** `store`: hash, skip if present, else stage, write, and place. */
  method StoreBytes(disk: Disk, hs: Hasher, data: Bytes, id: nat, tmp: nat, crossDevice: bool) returns (h: Hash)
    requires disk.Valid() && Staging(id) !in disk.names && Temp(hs.of(data), tmp) !in disk.names
    modifies disk
    ensures disk.Valid() && h == hs.of(data) && disk.Show() == StoredIn(hs, old(disk.Show()), data)
  {
    ghost var v := disk.Show();
    h := hs.of(data);
    var obj := Object(h);
    if obj !in disk.names {
      var _ := disk.CreateFile(Staging(id));
      disk.AppendBytes(Staging(id), data);
      ghost var v1 := disk.Show();
      PlaceObject(disk, Staging(id), obj, Temp(h, tmp), crossDevice);
      StagedIsStored(hs, v, v1, data, id);
    }
  }

  lemma {:induction false} StagedIsStored(hs: Hasher, v: View, v1: View, data: Bytes, id: nat)
    requires Staging(id) !in v && Object(hs.of(data)) !in v && v1 == v[Staging(id) := []][Staging(id) := [] + data]
    ensures PlacedAt(v1, Staging(id), Object(hs.of(data))) == StoredIn(hs, v, data)
  {
    assert [] + data == data;
    assert v1 - {Staging(id)} == v;
  }

  method Retrieve(disk: Disk, h: Hash) returns (r: Option<Bytes>)
    requires disk.Valid()
    ensures r == if Object(h) in disk.Show() then Some(disk.Show()[Object(h)]) else None
  {
    if Object(h) in disk.names {
      r := Some(disk.files[disk.names[Object(h)]]);
    } else {
      r := None;
    }
  }

  method RemoveObject(disk: Disk, h: Hash) returns (removed: bool)
    requires disk.Valid()
    modifies disk
    ensures disk.Valid() && removed == (Object(h) in old(disk.Show())) && disk.Show() == old(disk.Show()) - {Object(h)}
  {
    removed := Object(h) in disk.names;
    disk.UnlinkFile(Object(h));
  }

  /** The streaming writer: hashes what it stages, chunk by chunk. */
  class StreamingWriter {
    const disk: Disk
    const hs: Hasher
    const id: nat
    var open: bool
    var done: bool
    var bytesWritten: nat
    var digest: Digest
    ghost var streamed: Bytes

    /** The staged file holds exactly what was streamed, and the digest covers exactly that. */
    ghost predicate Valid()
      reads this, disk
    {
      && disk.Valid() && Incremental(hs) && (open ==> !done)
      && digest == hs.absorb(streamed) && bytesWritten == |streamed|
      && (!done ==> Staging(id) in disk.names && disk.files[disk.names[Staging(id)]] == streamed)
    }

    constructor (disk: Disk, hs: Hasher, id: nat)
      requires disk.Valid() && Incremental(hs) && Staging(id) !in disk.names
      modifies disk
      ensures this.disk == disk && this.hs == hs && this.id == id
      ensures Valid() && open && !done && streamed == [] && disk.Show() == old(disk.Show())[Staging(id) := []]
    {
      this.disk, this.hs, this.id := disk, hs, id;
      open, done, bytesWritten, digest, streamed := true, false, 0, hs.init, [];
      new;
      var _ := disk.CreateFile(Staging(id));
      assert disk.Show()[Staging(id)] == [];
    }

    /** A closed writer refuses; an open one stages and hashes the chunk. */
    method Write(data: Bytes) returns (ok: bool)
      requires Valid()
      modifies this, disk
      ensures Valid() && ok == old(open) && open == old(open) && done == old(done)
      ensures streamed == if ok then old(streamed) + data else old(streamed)
      ensures disk.Show() == if ok then old(disk.Show())[Staging(id) := streamed] else old(disk.Show())
    {
      if !open {
        return false;
      }
      assert disk.Show()[Staging(id)] == streamed;
      disk.AppendBytes(Staging(id), data);
      assert disk.Show()[Staging(id)] == streamed + data;
      digest := hs.update(digest, data);
      bytesWritten := bytesWritten + |data|;
      streamed := streamed + data;
      ok := true;
    }

    /** Finalizing places everything that was streamed under its hash. A flush,
        sync or rename that fails leaves the paths as they were and the writer
        unfinished, for `Drop` to clean up. */
    method Finalize(tmp: nat, crossDevice: bool, fails: bool) returns (r: Option<(Hash, nat)>)
      requires Valid() && open && Temp(hs.of(streamed), tmp) !in disk.names
      modifies this, disk
      ensures Valid() && !open && streamed == old(streamed) && done == !fails
      ensures fails ==> r == None && disk.Show() == old(disk.Show())
      ensures !fails ==> r == Some((hs.of(streamed), |streamed|))
      ensures !fails ==> disk.Show() == PlacedAt(old(disk.Show()), Staging(id), Object(hs.of(streamed)))
    {
      open := false;
      if fails {
        return None;
      }
      var h := hs.finish(digest);
      PlaceObject(disk, Staging(id), Object(h), Temp(h, tmp), crossDevice);
      done := true;
      r := Some((h, bytesWritten));
    }

    /** A writer dropped before it finished leaves no staging file. */
    method Drop()
      requires Valid()
      modifies this, disk
      ensures Valid() && done && disk.Show() == if old(done) then old(disk.Show()) else old(disk.Show()) - {Staging(id)}
    {
      if !done {
        disk.UnlinkFile(Staging(id));
        open, done := false, true;
      }
    }
  }
}
