/** The checkpoint store: manifests, the content store and the disk, and the
    collection of what nothing keeps any more. */
module CheckpointStore {
  import opened Wrappers
  import opened FileTree
  import opened Cas
  import opened Checkpoint

  type Id = string

  datatype Manifest = Manifest(id: Id, files: seq<Entry>)

  predicate ValidId(id: Id) {
    && id != ""
    && '/' !in id && '\\' !in id
    && !(exists i | 0 <= i < |id| - 1 :: id[i] == '.' && id[i + 1] == '.')
  }

  // ---------------------------------------------------------------- collection, on values

  datatype Lookup = Found(ids: seq<Id>) | Failed

  /** The database's side: which blobs each manifest is registered with, the
      answers to the five retention queries, and whether the later calls work. */
  datatype Database = Database(
    registered: map<Id, set<Hash>>,
    active: Lookup,
    pinned: Lookup,
    unfinished: Lookup,
    recent: Lookup,
    window: Lookup,
    deletes: bool,
    answers: bool)

  function Marks(db: Database): seq<Lookup> {
    [db.active, db.pinned, db.unfinished, db.recent, db.window]
  }

  predicate AllFound(db: Database) {
    forall l <- Marks(db) :: l.Found?
  }

  function Kept(marks: seq<Lookup>): set<Id> {
    set l, id | l in marks && l.Found? && id in l.ids :: id
  }

  /** Some retention query names the manifest. */
  ghost predicate Retained(db: Database, id: Id) {
    || (db.active.Found? && id in db.active.ids)
    || (db.pinned.Found? && id in db.pinned.ids)
    || (db.unfinished.Found? && id in db.unfinished.ids)
    || (db.recent.Found? && id in db.recent.ids)
    || (db.window.Found? && id in db.window.ids)
  }

  ghost predicate QueryFailed(db: Database) {
    db.active.Failed? || db.pinned.Failed? || db.unfinished.Failed? || db.recent.Failed? || db.window.Failed?
  }

  /** The marks are the answers of all five queries. */
  lemma MarksAreTheQueries(db: Database, id: Id)
    ensures id in Kept(Marks(db)) <==> Retained(db, id)
    ensures AllFound(db) <==> !QueryFailed(db)
  {
    AskedIsMarked(db);
  }

  lemma AskedIsMarked(db: Database)
    ensures db.active in Marks(db) && db.pinned in Marks(db) && db.unfinished in Marks(db)
    ensures db.recent in Marks(db) && db.window in Marks(db)
    ensures forall l <- Marks(db) ::
              l == db.active || l == db.pinned || l == db.unfinished || l == db.recent || l == db.window
  {
    var marks := Marks(db);
    assert marks[0] == db.active && marks[1] == db.pinned && marks[2] == db.unfinished;
    assert marks[3] == db.recent && marks[4] == db.window;
  }

  ghost predicate PartAt(id: Id, i: int, part: string) {
    0 <= i <= |id| - |part| && id[i..i + |part|] == part
  }

  lemma HasChar(id: Id, c: char)
    ensures c in id <==> exists i :: PartAt(id, i, [c])
  {
    if c in id {
      var i :| 0 <= i < |id| && id[i] == c;
      assert PartAt(id, i, [c]);
    }
    if i :| PartAt(id, i, [c]) {
      assert id[i] == [c][0];
    }
  }

  lemma HasPair(id: Id, c: char)
    ensures (exists i | 0 <= i < |id| - 1 :: id[i] == c && id[i + 1] == c) <==> exists i :: PartAt(id, i, [c, c])
  {
    if i :| 0 <= i < |id| - 1 && id[i] == c && id[i + 1] == c {
      assert PartAt(id, i, [c, c]);
    }
    if i :| PartAt(id, i, [c, c]) {
      assert id[i] == [c, c][0] && id[i + 1] == [c, c][1];
    }
  }

  /** A usable name has no separator and no step to the parent directory. */
  lemma ValidIdIff(id: Id)
    ensures ValidId(id) <==>
      id != "" && forall i :: !PartAt(id, i, "/") && !PartAt(id, i, "\\") && !PartAt(id, i, "..")
  {
    HasChar(id, '/');
    HasChar(id, '\\');
    HasPair(id, '.');
    assert ['/'] == "/" && ['\\'] == "\\" && ['.', '.'] == "..";
  }

  function Referenced(registered: map<Id, set<Hash>>): set<Hash> {
    set id, h | id in registered && h in registered[id] :: h
  }

  datatype Holdings = Holdings(manifests: map<Id, Manifest>, blobs: Blobs, registered: map<Id, set<Hash>>)

  function Doomed(manifests: map<Id, Manifest>, kept: set<Id>): set<Id> {
    set id | id in manifests && ValidId(id) && id !in kept
  }

  /** What holds however far a collection got. */
  ghost predicate SweptSafely(before: Holdings, after: Holdings, kept: set<Id>) {
    && after.manifests.Keys <= before.manifests.Keys
    && (forall id <- after.manifests :: after.manifests[id] == before.manifests[id])
    && (forall id <- before.manifests :: id !in Doomed(before.manifests, kept) ==> id in after.manifests)
    && (after.registered == before.registered
        || after.registered == before.registered - Doomed(before.manifests, kept))
    && after.blobs.Keys <= before.blobs.Keys
    && (forall h <- after.blobs :: after.blobs[h] == before.blobs[h])
    && (forall h <- before.blobs :: h in Referenced(after.registered) ==> h in after.blobs)
  }

  /** What holds when it finished. */
  ghost predicate SweptFully(before: Holdings, after: Holdings, kept: set<Id>) {
    && SweptSafely(before, after, kept)
    && after.manifests.Keys == before.manifests.Keys - Doomed(before.manifests, kept)
    && after.registered == before.registered - Doomed(before.manifests, kept)
    && after.blobs.Keys == before.blobs.Keys * Referenced(after.registered)
  }

  /** The database knows every blob the manifest may ask for. */
  ghost predicate Registered(h: Holdings, id: Id) {
    id in h.manifests && id in h.registered && HashesOf(h.manifests[id].files) <= h.registered[id]
  }

  /** A kept manifest survives any collection, finished or broken off, and
      restores exactly as before: same writes, same conflicts, same errors, same
      disk, same references handed out. */
  lemma KeptRestoresAsBefore(before: Holdings, after: Holdings, kept: set<Id>, id: Id, t: Tree, opts: Options,
                             broken: set<Path>, now: nat)
    requires SweptSafely(before, after, kept) && id in kept && Registered(before, id)
    ensures id in after.manifests && after.manifests[id] == before.manifests[id]
    ensures RestoreAll(t, after.manifests[id].files, opts, after.blobs, broken, now)
         == RestoreAll(t, before.manifests[id].files, opts, before.blobs, broken, now)
    ensures Registered(after, id)
  {
    var files := before.manifests[id].files;
    assert id in after.registered;
    forall h <- HashesOf(files) ensures Get(before.blobs, h) == Get(after.blobs, h) {
      assert h in Referenced(after.registered);
    }
    RestoreNeedsOnlyItsBlobs(t, files, opts, before.blobs, after.blobs, broken, now);
  }

  /** A blob outlives a finished collection exactly when a registration that is
      left names it; what a capture has stored but not registered is lost. */
  lemma BlobSurvivesIff(before: Holdings, after: Holdings, kept: set<Id>, h: Hash)
    requires SweptFully(before, after, kept) && Intact(before.blobs, h)
    ensures Intact(after.blobs, h) <==> exists id <- before.registered ::
        id !in Doomed(before.manifests, kept) && h in before.registered[id]
    ensures !Intact(after.blobs, h) ==> Get(after.blobs, h) == Absent
  {
    if Intact(after.blobs, h) {
      assert h in Referenced(after.registered);
      var id :| id in after.registered && h in after.registered[id];
      assert id in before.registered;
    }
    if id :| id in before.registered && id !in Doomed(before.manifests, kept) && h in before.registered[id] {
      assert id in after.registered;
      assert h in Referenced(after.registered);
    }
  }

  /** A second collection with the same marks finds nothing to do. */
  lemma CollectionSettles(before: Holdings, after: Holdings, again: Holdings, kept: set<Id>)
    requires SweptFully(before, after, kept) && SweptFully(after, again, kept)
    ensures again == after
  {
    assert Doomed(after.manifests, kept) == {};
    assert again.registered == after.registered;
    assert again.manifests.Keys == after.manifests.Keys;
    assert again.manifests == after.manifests;
    assert again.blobs.Keys == after.blobs.Keys;
    assert again.blobs == after.blobs;
  }

  /** What a query names keeps its file, its registration and its blobs. */
  ghost predicate KeepsRetained(db: Database, before: Holdings, after: Holdings) {
    && (forall id <- before.manifests :: Retained(db, id) ==>
          id in after.manifests && after.manifests[id] == before.manifests[id])
    && (forall id <- before.registered :: Retained(db, id) ==>
          && id in after.registered && after.registered[id] == before.registered[id]
          && forall h <- before.registered[id] :: h in before.blobs ==>
               h in after.blobs && after.blobs[h] == before.blobs[h])
  }

  /** What no query names is gone, if its name is usable; and with it every blob
      that no registration is left to name. */
  ghost predicate KeepsNothingElse(db: Database, before: Holdings, after: Holdings) {
    && (forall id <- after.manifests :: Retained(db, id) || !ValidId(id))
    && (forall h <- after.blobs :: exists id <- after.registered :: h in after.registered[id])
    && (forall id <- after.registered :: Retained(db, id) || id !in before.manifests || !ValidId(id))
  }

  ghost predicate ManifestStuck(db: Database, manifests: map<Id, Manifest>, stuck: set<Id>) {
    exists id <- manifests :: ValidId(id) && !Retained(db, id) && (!db.deletes || id in stuck)
  }

  ghost predicate BlobStuck(blobs: Blobs, registered: map<Id, set<Hash>>, stuck: set<Hash>) {
    exists h <- blobs :: h in stuck && forall id <- registered :: h !in registered[id]
  }

  lemma SweptByQueries(db: Database, before: Holdings, after: Holdings)
    requires SweptSafely(before, after, Kept(Marks(db)))
    ensures KeepsRetained(db, before, after)
    ensures SweptFully(before, after, Kept(Marks(db))) ==> KeepsNothingElse(db, before, after)
  {
    forall id ensures id in Kept(Marks(db)) <==> Retained(db, id) {
      MarksAreTheQueries(db, id);
    }
    forall id | id in before.registered && Retained(db, id)
      ensures id in after.registered && after.registered[id] <= Referenced(after.registered)
    {
    }
  }

  ghost predicate DroppedAll(db: Database, doomed: set<Id>, stuck: set<Id>) {
    doomed == {} || (db.deletes && forall id <- doomed :: id !in stuck)
  }

  lemma DroppedAllIff(db: Database, manifests: map<Id, Manifest>, stuck: set<Id>)
    ensures DroppedAll(db, Doomed(manifests, Kept(Marks(db))), stuck) <==> !ManifestStuck(db, manifests, stuck)
  {
    var doomed := Doomed(manifests, Kept(Marks(db)));
    forall id ensures id in doomed <==> id in manifests && ValidId(id) && !Retained(db, id) {
      MarksAreTheQueries(db, id);
    }
    if doomed != {} {
      var id :| id in doomed;
    }
  }

  lemma BlobStuckIff(blobs: Blobs, registered: map<Id, set<Hash>>, stuck: set<Hash>)
    ensures BlobStuck(blobs, registered, stuck) <==> exists h <- blobs :: h !in Referenced(registered) && h in stuck
  {
  }

  /** The two phases put together: registrations and files, then blobs. */
  lemma PhasesAreSafe(before: Holdings, after: Holdings, kept: set<Id>)
    requires after.manifests.Keys <= before.manifests.Keys
    requires forall id <- after.manifests :: after.manifests[id] == before.manifests[id]
    requires forall id <- before.manifests :: id !in Doomed(before.manifests, kept) ==> id in after.manifests
    requires after.registered == before.registered
          || after.registered == before.registered - Doomed(before.manifests, kept)
    requires after.blobs == before.blobs
    ensures SweptSafely(before, after, kept)
  {
  }

  lemma BlobPhaseIsSafe(before: Holdings, mid: Holdings, after: Holdings, kept: set<Id>)
    requires SweptSafely(before, mid, kept) && mid.blobs == before.blobs
    requires after == mid.(blobs := after.blobs)
    requires after.blobs.Keys <= mid.blobs.Keys
    requires forall h <- after.blobs :: after.blobs[h] == mid.blobs[h]
    requires forall h <- mid.blobs :: h in Referenced(mid.registered) ==> h in after.blobs
    ensures SweptSafely(before, after, kept)
  {
  }

  // ---------------------------------------------------------------- the store

  ghost predicate DistinctPaths(files: seq<Entry>) {
    forall i, j | 0 <= i < j < |files| :: files[i].path != files[j].path
  }

  lemma {:induction false} CaptureStops(t: Tree, broken: set<Path>, full: set<Hash>, blobs: Blobs, paths: seq<Path>, n: nat)
    requires n <= |paths| && CaptureAll(t, broken, full, blobs, paths[..n]).Err?
    ensures CaptureAll(t, broken, full, blobs, paths) == CaptureAll(t, broken, full, blobs, paths[..n])
  {
    if n < |paths| {
      assert paths[..|paths| - 1][..n] == paths[..n];
      CaptureStops(t, broken, full, blobs, paths[..|paths| - 1], n);
    } else {
      assert paths[..n] == paths;
    }
  }

  lemma CaptureExtends(t: Tree, broken: set<Path>, full: set<Hash>, blobs: Blobs, paths: seq<Path>, i: nat, files: seq<Entry>)
    requires i < |paths| && CaptureAll(t, broken, full, blobs, paths[..i]) == Ok(files)
    ensures var one := CaptureOne(t, broken, full, PutAll(blobs, files), paths[i]);
      CaptureAll(t, broken, full, blobs, paths[..i + 1]) == if one.Err? then Err(one.path) else Ok(files + [one.value])
  {
    assert paths[..i + 1][..i] == paths[..i];
  }

  lemma PutOneMore(blobs: Blobs, files: seq<Entry>, e: Entry)
    ensures PutAll(blobs, files + [e]) == PutAll(PutAll(blobs, files), [e])
    ensures (files + [e])[..|files|] == files
  {
    assert (files + [e])[..|files|] == files;
    assert [e][..0] == [];
    assert PutAll(PutAll(blobs, files), []) == PutAll(blobs, files);
  }

  function Elements<T(!new)>(s: seq<T>): (r: set<T>)
    ensures forall x :: x in r <==> x in s
  {
    set x | x in s
  }

  lemma {:induction false} DistinctCount<T(!new)>(s: seq<T>)
    requires forall i, j :: 0 <= i < j < |s| ==> s[i] != s[j]
    ensures |Elements(s)| == |s|
  {
    if s != [] {
      DistinctCount(s[1..]);
      assert Elements(s) == {s[0]} + Elements(s[1..]);
    }
  }

  datatype Report =
    | Aborted
    | Collected(marked: nat, swept: seq<Id>, sweptBlobs: nat, freed: nat, remainingBlobs: nat, remainingBytes: nat)

  class Store {
    const cas: Cas.Store
    var disk: Tree
    var manifests: map<Id, Manifest>

    constructor (cas: Cas.Store, disk: Tree)
      ensures this.cas == cas && this.disk == disk && manifests == map[]
    {
      this.cas := cas;
      this.disk := disk;
      manifests := map[];
    }

    /** One file: its fingerprint, and its content in the store. */
    method CaptureEntry(path: Path, broken: set<Path>, full: set<Hash>) returns (r: Result<Entry>)
      modifies cas
      ensures r == CaptureOne(disk, broken, full, old(cas.blobs), path)
      ensures cas.blobs == match r case Ok(e) => PutAll(old(cas.blobs), [e]) case Err(_) => old(cas.blobs)
    {
      var fp := FingerprintOf(disk, broken, path);
      if fp.Err? {
        return Err(fp.path);
      }
      ghost var empty: seq<Entry> := [];
      assert PutAll(cas.blobs, empty) == cas.blobs;
      if !fp.value.present {
        r := Ok(Entry(path, NoRef, fp.value));
        assert [r.value][..0] == empty;
        return;
      }
      var content := disk[path].content;
      var kept := cas.Keep(content, disk[path].mode, Sha(content) !in full);
      if kept.None? {
        return Err(path);
      }
      r := Ok(Entry(path, kept.value, fp.value));
      assert [r.value][..0] == empty;
    }

    /** One snapshot of many files. What was stored before a path that cannot be
        read or kept ends it stays stored; and the manifest is written last, or
        not at all. */
    method Capture(id: Id, paths: seq<Path>, broken: set<Path>, full: set<Hash>, writable: bool)
      returns (r: Result<Manifest>, saved: bool)
      modifies this`manifests, cas
      ensures match CaptureAll(disk, broken, full, old(cas.blobs), paths)
              case Ok(es) =>
                && r == Ok(Manifest(id, es)) && saved == writable && cas.blobs == PutAll(old(cas.blobs), es)
                && manifests == (if writable then old(manifests)[id := r.value] else old(manifests))
              case Err(p) =>
                && r == Err(p) && !saved && manifests == old(manifests)
                && exists k :: 0 <= k < |paths| && CapturedUpTo(paths, broken, full, old(cas.blobs), k)
    {
      var files: seq<Entry> := [];
      saved := false;
      for i := 0 to |paths|
        invariant CaptureAll(disk, broken, full, old(cas.blobs), paths[..i]) == Ok(files)
        invariant cas.blobs == PutAll(old(cas.blobs), files)
        invariant manifests == old(manifests)
      {
        CaptureExtends(disk, broken, full, old(cas.blobs), paths, i, files);
        var e := CaptureEntry(paths[i], broken, full);
        if e.Err? {
          CaptureStops(disk, broken, full, old(cas.blobs), paths, i + 1);
          assert CapturedUpTo(paths, broken, full, old(cas.blobs), i);
          return Err(e.path), false;
        }
        PutOneMore(old(cas.blobs), files, e.value);
        files := files + [e.value];
      }
      assert paths[..|paths|] == paths;
      r := Ok(Manifest(id, files));
      if writable {
        manifests := manifests[id := r.value];
        saved := true;
      }
    }

    /** The store holds what the first `k` paths put into it. */
    ghost predicate CapturedUpTo(paths: seq<Path>, broken: set<Path>, full: set<Hash>, before: Blobs, k: nat)
      requires k <= |paths|
      reads this, cas
    {
      var part := CaptureAll(disk, broken, full, before, paths[..k]);
      part.Ok? && cas.blobs == PutAll(before, part.value)
    }

    /** Before a tool changes a file: only the first version of a path is kept. */
    method CaptureFile(m: Manifest, path: Path, broken: set<Path>, full: set<Hash>) returns (r: Result<Manifest>)
      modifies cas
      ensures (exists f <- m.files :: f.path == path) ==> r == Ok(m) && cas.blobs == old(cas.blobs)
      ensures !(exists f <- m.files :: f.path == path) ==>
          match CaptureOne(disk, broken, full, old(cas.blobs), path)
          case Ok(e) => r == Ok(m.(files := m.files + [e])) && cas.blobs == PutAll(old(cas.blobs), [e])
          case Err(p) => r == Err(p) && cas.blobs == old(cas.blobs)
      ensures r.Ok? && DistinctPaths(m.files) ==> DistinctPaths(r.value.files)
    {
      for i := 0 to |m.files|
        invariant forall j :: 0 <= j < i ==> m.files[j].path != path
      {
        if m.files[i].path == path {
          return Ok(m);
        }
      }
      var e := CaptureEntry(path, broken, full);
      if e.Err? {
        return Err(e.path);
      }
      return Ok(m.(files := m.files + [e.value]));
    }

    method Load(id: Id) returns (r: Option<Manifest>)
      ensures r == if ValidId(id) && id in manifests then Some(manifests[id]) else None
    {
      if !ValidId(id) || id !in manifests {
        return None;
      }
      return Some(manifests[id]);
    }

    method RestoreTo(id: Id, opts: Options, broken: set<Path>, now: nat) returns (r: Option<Outcome>)
      modifies this`disk
      ensures r.Some? <==> ValidId(id) && id in manifests
      ensures r.None? ==> disk == old(disk)
      ensures r.Some? ==> r.value == RestoreAll(old(disk), manifests[id].files, opts, cas.blobs, broken, now)
      ensures r.Some? ==> disk == r.value.tree
    {
      var loaded := Load(id);
      if loaded.None? {
        return None;
      }
      var files := loaded.value.files;
      var o := Begin(disk);
      for i := 0 to |files|
        invariant o == RestoreAll(old(disk), files[..i], opts, cas.blobs, broken, now)
        invariant disk == o.tree
      {
        assert files[..i + 1][..i] == files[..i];
        var f := files[i];
        if opts.only != {} && f.path !in opts.only {
          continue;
        }
        if !opts.force {
          var current := FingerprintOf(disk, broken, f.path);
          if current.Err? {
            o := o.(errors := o.errors + [f.path]);
            continue;
          }
          if FingerprintConflict(f.fp, current.value) {
            o := o.(conflicts := o.conflicts + [Conflict(f.path, f.fp, current.value)]);
            continue;
          }
        }
        if !f.fp.present {
          var removal := Remove(disk, broken, f.path);
          disk := removal.0;
          o := o.(tree := disk);
          if !removal.1 {
            o := o.(errors := o.errors + [f.path]);
            continue;
          }
          o := o.(deleted := o.deleted + [f.path]);
          continue;
        }
        var fetched := cas.GetByHash(f.ref.hash);
        if !fetched.Content? {
          o := o.(errors := o.errors + [f.path]);
          continue;
        }
        var writing := Write(disk, broken, f.path, fetched.content, f.ref.mode, now);
        disk := writing.0;
        o := o.(tree := disk);
        if !writing.1 {
          o := o.(errors := o.errors + [f.path]);
          continue;
        }
        o := o.(written := o.written + [f.path]);
      }
      assert files[..|files|] == files;
      r := Some(o);
    }

    /** The references of a manifest, each checked against its blob. */
    method Restore(id: Id) returns (r: Option<seq<BlobRef>>)
      ensures r.Some? <==> ValidId(id) && id in manifests && forall e <- manifests[id].files :: Verified(cas.blobs, e.ref)
      ensures r.Some? ==> |r.value| == |manifests[id].files|
      ensures r.Some? ==> forall i :: 0 <= i < |r.value| ==> r.value[i] == manifests[id].files[i].ref
    {
      var loaded := Load(id);
      if loaded.None? {
        return None;
      }
      var files := loaded.value.files;
      var refs := [];
      for i := 0 to |files|
        invariant |refs| == i
        invariant forall j :: 0 <= j < i ==> Verified(cas.blobs, files[j].ref) && refs[j] == files[j].ref
      {
        var ok := cas.Verify(files[i].ref);
        if !ok {
          assert files[i] in files;
          return None;
        }
        refs := refs + [files[i].ref];
      }
      r := Some(refs);
    }

    /** Every readable manifest once. */
    method List() returns (ids: seq<Id>)
      ensures forall id :: id in ids <==> id in manifests && ValidId(id)
      ensures forall i, j :: 0 <= i < j < |ids| ==> ids[i] != ids[j]
    {
      ids := [];
      var left := manifests.Keys;
      while left != {}
        invariant left <= manifests.Keys
        invariant forall id :: id in ids <==> id in manifests && ValidId(id) && id !in left
        invariant forall i, j :: 0 <= i < j < |ids| ==> ids[i] != ids[j]
        decreases left
      {
        var id :| id in left;
        if ValidId(id) {
          ids := ids + [id];
        }
        left := left - {id};
      }
    }

    ghost function Held(db: Database): Holdings
      reads this, cas
    {
      Holdings(manifests, cas.blobs, db.registered)
    }

    /** Mark: five queries; one failure ends the collection before it starts. */
    method Mark(db: Database) returns (keep: set<Id>, ok: bool)
      ensures ok <==> AllFound(db)
      ensures ok ==> keep == Kept(Marks(db))
      ensures ok <==> !QueryFailed(db)
      ensures ok ==> forall id :: id in keep <==> Retained(db, id)
    {
      forall id ensures id in Kept(Marks(db)) <==> Retained(db, id) {
        MarksAreTheQueries(db, id);
      }
      MarksAreTheQueries(db, "");
      keep := {};
      var marks := Marks(db);
      for i := 0 to |marks|
        invariant forall j :: 0 <= j < i ==> marks[j].Found?
        invariant keep == Kept(marks[..i])
      {
        if marks[i].Failed? {
          assert marks[i] in marks;
          return {}, false;
        }
        keep := keep + Elements(marks[i].ids);
        assert marks[..i + 1] == marks[..i] + [marks[i]];
      }
      assert marks[..|marks|] == marks;
      ok := true;
    }

    /** Delete manifest files until one cannot be deleted. */
    method SweepManifests(doomed: seq<Id>, stuck: set<Id>) returns (ok: bool)
      modifies this`manifests
      ensures manifests.Keys <= old(manifests).Keys
      ensures forall id <- manifests :: manifests[id] == old(manifests)[id]
      ensures forall id <- old(manifests) :: id !in doomed ==> id in manifests
      ensures ok ==> manifests == old(manifests) - Elements(doomed)
      ensures ok <==> forall id <- doomed :: id !in stuck
    {
      for i := 0 to |doomed|
        invariant manifests == old(manifests) - Elements(doomed[..i])
        invariant forall j :: 0 <= j < i ==> doomed[j] !in stuck
      {
        if doomed[i] in stuck {
          return false;
        }
        manifests := manifests - {doomed[i]};
        assert doomed[..i + 1] == doomed[..i] + [doomed[i]];
      }
      assert doomed[..|doomed|] == doomed;
      ok := true;
    }

    /** The blobs outside `referenced`, each once. */
    method FindOrphans(referenced: set<Hash>) returns (orphans: seq<Hash>)
      ensures Elements(orphans) == cas.blobs.Keys - referenced
      ensures forall i, j :: 0 <= i < j < |orphans| ==> orphans[i] != orphans[j]
    {
      var onDisk := cas.ListHashes();
      orphans := [];
      for i := 0 to |onDisk|
        invariant forall h :: h in orphans <==> h in onDisk[..i] && h !in referenced
        invariant forall j, k :: 0 <= j < k < |orphans| ==> orphans[j] != orphans[k]
      {
        if onDisk[i] !in referenced {
          orphans := orphans + [onDisk[i]];
        }
      }
      assert onDisk[..|onDisk|] == onDisk;
    }

    method Weigh(orphans: seq<Hash>) returns (freed: nat)
      requires forall h <- orphans :: h in cas.blobs
      requires forall i, j :: 0 <= i < j < |orphans| ==> orphans[i] != orphans[j]
      ensures freed + Total(Without(cas.blobs, Elements(orphans))) == Total(cas.blobs)
    {
      freed := 0;
      assert Without(cas.blobs, Elements(orphans[..0])) == cas.blobs;
      for i := 0 to |orphans|
        invariant freed + Total(Without(cas.blobs, Elements(orphans[..i]))) == Total(cas.blobs)
      {
        ghost var gone := Elements(orphans[..i]);
        assert orphans[..i + 1] == orphans[..i] + [orphans[i]];
        assert Elements(orphans[..i + 1]) == gone + {orphans[i]};
        assert Without(cas.blobs, gone + {orphans[i]}) == Without(Without(cas.blobs, gone), {orphans[i]});
        TotalSplits(Without(cas.blobs, gone), orphans[i]);
        freed := freed + |cas.blobs[orphans[i]]|;
      }
      assert orphans[..|orphans|] == orphans;
    }

    method DeleteOrphans(orphans: seq<Hash>, ghost referenced: set<Hash>, stuck: set<Hash>) returns (ok: bool)
      requires Elements(orphans) == cas.blobs.Keys - referenced
      modifies cas
      ensures cas.blobs.Keys <= old(cas.blobs).Keys
      ensures forall h <- cas.blobs :: cas.blobs[h] == old(cas.blobs)[h]
      ensures forall h <- old(cas.blobs) :: h in referenced ==> h in cas.blobs
      ensures ok ==> cas.blobs == Without(old(cas.blobs), Elements(orphans))
      ensures ok ==> cas.blobs.Keys == old(cas.blobs).Keys * referenced
      ensures ok ==> |cas.blobs| == |old(cas.blobs)| - |Elements(orphans)|
      ensures ok <==> forall h <- orphans :: h !in stuck
    {
      var done := cas.Delete(orphans, stuck);
      assert forall h :: h in orphans[..done] ==> h in Elements(orphans);
      ok := done == |orphans|;
      assert forall h <- orphans :: h in Elements(orphans);
      if ok {
        assert orphans[..done] == orphans;
        assert |cas.blobs.Keys| == |old(cas.blobs).Keys| - |Elements(orphans)|;
      }
    }

    /** Delete the blobs outside `referenced`, unless one of them is stuck. */
    method SweepBlobs(referenced: set<Hash>, stuck: set<Hash>)
      returns (ok: bool, swept: nat, freed: nat, remaining: nat, bytes: nat)
      modifies cas
      ensures cas.blobs.Keys <= old(cas.blobs).Keys
      ensures forall h <- cas.blobs :: cas.blobs[h] == old(cas.blobs)[h]
      ensures forall h <- old(cas.blobs) :: h in referenced ==> h in cas.blobs
      ensures ok ==> cas.blobs.Keys == old(cas.blobs).Keys * referenced
      ensures ok <==> forall h <- old(cas.blobs) :: h !in referenced ==> h !in stuck
      ensures ok ==> swept + remaining == |old(cas.blobs)| && remaining == |cas.blobs|
      ensures ok ==> freed + bytes == Total(old(cas.blobs)) && bytes == Total(cas.blobs)
    {
      var orphans := FindOrphans(referenced);
      freed := Weigh(orphans);
      swept := |orphans|;
      DistinctCount(orphans);
      assert forall h :: h in orphans <==> h in Elements(orphans);
      remaining, bytes := 0, 0;
      ok := DeleteOrphans(orphans, referenced, stuck);
      if !ok {
        return;
      }
      var left := cas.ListHashes();
      DistinctCount(left);
      assert Elements(left) == cas.blobs.Keys;
      remaining := |left|;
      bytes := cas.TotalSize();
    }

    /** The manifests nothing marked. */
    method Condemned(keep: set<Id>) returns (ids: seq<Id>)
      ensures Elements(ids) == Doomed(manifests, keep)
      ensures |ids| == |Doomed(manifests, keep)|
    {
      var all := List();
      ids := [];
      for i := 0 to |all|
        invariant forall id :: id in ids <==> id in all[..i] && id !in keep
        invariant forall j, k :: 0 <= j < k < |ids| ==> ids[j] != ids[k]
      {
        if all[i] !in keep {
          ids := ids + [all[i]];
        }
      }
      assert all[..|all|] == all;
      DistinctCount(ids);
    }

    /** The registrations go first, then the files. */
    method DropManifests(db: Database, ids: seq<Id>, stuck: set<Id>) returns (ok: bool, now: Database)
      modifies this`manifests
      ensures now == if ids == [] || !db.deletes then db else db.(registered := db.registered - Elements(ids))
      ensures manifests.Keys <= old(manifests).Keys
      ensures forall id <- manifests :: manifests[id] == old(manifests)[id]
      ensures forall id <- old(manifests) :: id !in ids ==> id in manifests
      ensures ok ==> now.registered == db.registered - Elements(ids)
      ensures ok <==> ids == [] || (db.deletes && forall id <- ids :: id !in stuck)
      ensures ok ==> manifests == old(manifests) - Elements(ids)
      ensures ok && |Elements(ids)| == |ids| && Elements(ids) <= old(manifests).Keys ==>
          |ids| + |manifests| == |old(manifests)|
    {
      assert Elements(ids) <= manifests.Keys ==>
          |(manifests - Elements(ids)).Keys| == |manifests.Keys| - |Elements(ids)|;
      now := db;
      ok := true;
      if |ids| > 0 {
        if !db.deletes {
          return false, now;
        }
        now := now.(registered := now.registered - Elements(ids));
        ok := SweepManifests(ids, stuck);
      }
    }

    /** Sweep the manifests, then the blobs. A call that fails ends the sweep
        where it is. */
    method Sweep(db: Database, keep: set<Id>, stuckFiles: set<Id>, stuckBlobs: set<Hash>)
      returns (report: Report, now: Database)
      modifies this`manifests, cas
      ensures SweptSafely(old(Held(db)), Held(now), keep)
      ensures report.Collected? ==> SweptFully(old(Held(db)), Held(now), keep)
      ensures report.Collected? ==>
          && report.marked == |keep|
          && Elements(report.swept) == Doomed(old(manifests), keep)
          && |report.swept| + |manifests| == |old(manifests)|
          && report.sweptBlobs + report.remainingBlobs == |old(cas.blobs)|
          && report.remainingBlobs == |cas.blobs|
          && report.freed + report.remainingBytes == Total(old(cas.blobs))
          && report.remainingBytes == Total(cas.blobs)
      ensures report.Collected? <==>
          && DroppedAll(db, Doomed(old(manifests), keep), stuckFiles) && db.answers
          && !BlobStuck(old(cas.blobs), now.registered, stuckBlobs)
    {
      now := db;
      ghost var before := Held(db);
      var toDelete := Condemned(keep);
      ghost var doomed := Doomed(manifests, keep);
      assert forall id :: id in toDelete <==> id in doomed;
      assert toDelete == [] <==> doomed == {} by {
        assert toDelete != [] ==> toDelete[0] in toDelete;
      }
      var dropped;
      dropped, now := DropManifests(db, toDelete, stuckFiles);
      ghost var mid := Held(now);
      PhasesAreSafe(before, mid, keep);
      if !dropped || !db.answers {
        return Aborted, now;
      }
      BlobStuckIff(mid.blobs, now.registered, stuckBlobs);
      var swept, sweptBlobs, freed, remaining, bytes := SweepBlobs(Referenced(now.registered), stuckBlobs);
      BlobPhaseIsSafe(before, mid, Held(now), keep);
      if !swept {
        return Aborted, now;
      }
      return Collected(|keep|, toDelete, sweptBlobs, freed, remaining, bytes), now;
    }

    /** Mark, sweep the manifests, sweep the blobs. A call that fails ends the
        collection where it is. */
    method GC(db: Database, stuckFiles: set<Id>, stuckBlobs: set<Hash>) returns (report: Report, now: Database)
      modifies this`manifests, cas
      ensures !AllFound(db) ==> report == Aborted && now == db && Held(now) == old(Held(db))
      ensures SweptSafely(old(Held(db)), Held(now), Kept(Marks(db)))
      ensures report.Collected? ==> SweptFully(old(Held(db)), Held(now), Kept(Marks(db)))
      ensures report.Collected? ==>
          && report.marked == |Kept(Marks(db))|
          && Elements(report.swept) == Doomed(old(manifests), Kept(Marks(db)))
          && |report.swept| + |manifests| == |old(manifests)|
          && report.sweptBlobs + report.remainingBlobs == |old(cas.blobs)|
          && report.remainingBlobs == |cas.blobs|
          && report.freed + report.remainingBytes == Total(old(cas.blobs))
          && report.remainingBytes == Total(cas.blobs)
      ensures QueryFailed(db) ==> report == Aborted && now == db && Held(now) == old(Held(db))
      ensures KeepsRetained(db, old(Held(db)), Held(now))
      ensures report.Collected? ==> KeepsNothingElse(db, old(Held(db)), Held(now))
      ensures report.Aborted? <==>
          || QueryFailed(db) || !db.answers
          || ManifestStuck(db, old(manifests), stuckFiles)
          || BlobStuck(old(cas.blobs), now.registered, stuckBlobs)
    {
      now := db;
      ghost var before := Held(db);
      var keep, marked := Mark(db);
      if !marked {
        return Aborted, now;
      }
      DroppedAllIff(db, manifests, stuckFiles);
      report, now := Sweep(db, keep, stuckFiles, stuckBlobs);
      SweptByQueries(db, before, Held(now));
    }
  }
}
