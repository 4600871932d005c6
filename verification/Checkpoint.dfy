/** Snapshots of files into the content store, and their restoration with
    conflict detection. */
module Checkpoint {
  import opened FileTree
  import opened Cas

  datatype Fingerprint = Fingerprint(path: Path, size: nat, mtime: nat, sha: Hash, present: bool)

  datatype Entry = Entry(path: Path, ref: BlobRef, fp: Fingerprint)

  datatype Result<T> = Ok(value: T) | Err(path: Path)

  const NoRef: BlobRef := BlobRef(Unset, 0, 0)

  function FingerprintOf(t: Tree, broken: set<Path>, p: Path): Result<Fingerprint> {
    match Stat(t, broken, p)
    case Denied => Err(p)
    case Folder => Err(p)
    case Missing => Ok(Fingerprint(p, 0, 0, Unset, false))
    case Regular(c, _, mtime) => Ok(Fingerprint(p, |c|, mtime, Sha(c), true))
  }

  /** The modification time plays no part. */
  function FingerprintConflict(expected: Fingerprint, current: Fingerprint): bool {
    if expected.present != current.present then true
    else if !expected.present then false
    else if expected.size != current.size then true
    else expected.sha != current.sha
  }

  // ---------------------------------------------------------------- capture

  /** The blobs in `full` cannot be written. */
  predicate CannotKeep(blobs: Blobs, full: set<Hash>, content: string) {
    Sha(content) in full && NeedsWrite(blobs, content)
  }

  function CaptureOne(t: Tree, broken: set<Path>, full: set<Hash>, blobs: Blobs, p: Path): Result<Entry> {
    match FingerprintOf(t, broken, p)
    case Err(q) => Err(q)
    case Ok(fp) =>
      if !fp.present then Ok(Entry(p, NoRef, fp))
      else if CannotKeep(blobs, full, t[p].content) then Err(p)
      else Ok(Entry(p, BlobRef(fp.sha, fp.size, t[p].mode), fp))
  }

  /** The first path that cannot be read or kept ends the capture. */
  function CaptureAll(t: Tree, broken: set<Path>, full: set<Hash>, blobs: Blobs, paths: seq<Path>): (r: Result<seq<Entry>>) {
    if paths == [] then Ok([])
    else
      match CaptureAll(t, broken, full, blobs, paths[..|paths| - 1])
      case Err(q) => Err(q)
      case Ok(done) =>
        match CaptureOne(t, broken, full, PutAll(blobs, done), paths[|paths| - 1])
        case Err(q) => Err(q)
        case Ok(e) => Ok(done + [e])
  }

  function PutAll(blobs: Blobs, entries: seq<Entry>): Blobs {
    if entries == [] then blobs
    else
      var done := PutAll(blobs, entries[..|entries| - 1]);
      var e := entries[|entries| - 1];
      if e.fp.present && e.ref.hash.Sha? then Put(done, e.ref.hash.content) else done
  }

  /** The entry is a true record of the file. */
  ghost predicate Records(t: Tree, e: Entry) {
    if e.path in t
    then t[e.path].File? && e.fp.present && e.ref == BlobRef(Sha(t[e.path].content), |t[e.path].content|, t[e.path].mode)
         && e.fp.sha == e.ref.hash && e.fp.size == e.ref.size
    else !e.fp.present && e.ref == NoRef
  }

  predicate Capturable(t: Tree, broken: set<Path>, full: set<Hash>, blobs: Blobs, p: Path) {
    match Stat(t, broken, p)
    case Missing => true
    case Regular(c, _, _) => !CannotKeep(blobs, full, c)
    case _ => false
  }

  /** What cannot be written stays as it was. */
  ghost predicate FullKept(blobs: Blobs, after: Blobs, full: set<Hash>) {
    forall h <- full :: (h in blobs <==> h in after) && (h in blobs ==> after[h] == blobs[h])
  }

  /** A capture succeeds exactly when every path is absent or a readable file
      whose content is there or can be written, and then holds one true record
      per path, in order. */
  lemma {:induction false} CaptureExact(t: Tree, broken: set<Path>, full: set<Hash>, blobs: Blobs, paths: seq<Path>)
    ensures var r := CaptureAll(t, broken, full, blobs, paths);
      && (r.Ok? <==> forall p <- paths :: Capturable(t, broken, full, blobs, p))
      && (r.Ok? ==> |r.value| == |paths| && FullKept(blobs, PutAll(blobs, r.value), full))
      && (r.Ok? ==> forall i :: 0 <= i < |paths| ==> r.value[i].path == paths[i] && Records(t, r.value[i]))
  {
    if paths != [] {
      var init, p := paths[..|paths| - 1], paths[|paths| - 1];
      CaptureExact(t, broken, full, blobs, init);
      assert paths == init + [p];
      var before := CaptureAll(t, broken, full, blobs, init);
      if before.Ok? {
        CaptureStep(t, broken, full, blobs, before.value, p);
      }
    }
  }

  lemma CaptureStep(t: Tree, broken: set<Path>, full: set<Hash>, blobs: Blobs, done: seq<Entry>, p: Path)
    requires FullKept(blobs, PutAll(blobs, done), full)
    ensures var r := CaptureOne(t, broken, full, PutAll(blobs, done), p);
      && (r.Ok? <==> Capturable(t, broken, full, blobs, p))
      && (r.Ok? ==> r.value.path == p && Records(t, r.value) && FullKept(blobs, PutAll(blobs, done + [r.value]), full))
  {
    var r := CaptureOne(t, broken, full, PutAll(blobs, done), p);
    if r.Ok? {
      assert (done + [r.value])[..|done|] == done;
    }
  }

  /** After a capture a content can be read back unless a damaged blob of its
      size was already there; blobs that were good stay good. */
  lemma {:induction false} CapturedBlobs(blobs: Blobs, entries: seq<Entry>, h: Hash)
    ensures Intact(blobs, h) ==> Intact(PutAll(blobs, entries), h)
    ensures h.Sha? ==> (Masked(blobs, h.content) <==> Masked(PutAll(blobs, entries), h.content))
    ensures forall e <- entries :: e.fp.present && e.ref.hash == h && h.Sha? ==>
        (Intact(PutAll(blobs, entries), h) <==> !Masked(blobs, h.content))
  {
    if entries != [] {
      var init := entries[..|entries| - 1];
      var e := entries[|entries| - 1];
      CapturedBlobs(blobs, init, h);
      assert entries == init + [e];
      if e.fp.present && e.ref.hash.Sha? {
        PutElsewhere(PutAll(blobs, init), e.ref.hash.content, h);
        PutGetIff(PutAll(blobs, init), e.ref.hash.content);
      }
    }
  }

  // ---------------------------------------------------------------- restore

  datatype Conflict = Conflict(path: Path, expected: Fingerprint, current: Fingerprint)

  datatype Options = Options(only: set<Path>, force: bool)

  datatype Outcome = Outcome(
    tree: Tree,
    written: seq<Path>,
    deleted: seq<Path>,
    conflicts: seq<Conflict>,
    errors: seq<Path>)

  function Begin(t: Tree): Outcome {
    Outcome(t, [], [], [], [])
  }

  predicate Picked(e: Entry, opts: Options) {
    opts.only == {} || e.path in opts.only
  }

  /** The write-back itself, conflicts aside. */
  function PutBack(o: Outcome, e: Entry, blobs: Blobs, broken: set<Path>, now: nat): Outcome {
    if !e.fp.present then
      var (t, ok) := Remove(o.tree, broken, e.path);
      if ok then o.(tree := t, deleted := o.deleted + [e.path]) else o.(errors := o.errors + [e.path])
    else
      match Get(blobs, e.ref.hash)
      case Content(c) =>
        var (t, ok) := Write(o.tree, broken, e.path, c, e.ref.mode, now);
        if ok then o.(tree := t, written := o.written + [e.path]) else o.(tree := t, errors := o.errors + [e.path])
      case _ => o.(errors := o.errors + [e.path])
  }

  function RestoreEntry(o: Outcome, e: Entry, opts: Options, blobs: Blobs, broken: set<Path>, now: nat): Outcome {
    if !Picked(e, opts) then o
    else if opts.force then PutBack(o, e, blobs, broken, now)
    else
      match FingerprintOf(o.tree, broken, e.path)
      case Err(_) => o.(errors := o.errors + [e.path])
      case Ok(current) =>
        if FingerprintConflict(e.fp, current) then o.(conflicts := o.conflicts + [Conflict(e.path, e.fp, current)])
        else PutBack(o, e, blobs, broken, now)
  }

  function RestoreAll(t: Tree, entries: seq<Entry>, opts: Options, blobs: Blobs, broken: set<Path>, now: nat): Outcome {
    if entries == [] then Begin(t)
    else RestoreEntry(RestoreAll(t, entries[..|entries| - 1], opts, blobs, broken, now),
                      entries[|entries| - 1], opts, blobs, broken, now)
  }

  // ---------------------------------------------------------------- a forced restore

  /** The disk is as the entry says. */
  ghost predicate Settled(t: Tree, e: Entry) {
    if e.fp.present
    then e.path in t && t[e.path].File? && Sha(t[e.path].content) == e.ref.hash && t[e.path].mode == e.ref.mode
    else e.path !in t
  }

  /** Bringing back `later` puts a directory where `e` says there is nothing. */
  predicate Overbuilds(later: Entry, e: Entry, opts: Options) {
    Picked(later, opts) && later.fp.present && !e.fp.present && Above(e.path, later.path)
  }

  lemma StepForced(o: Outcome, e: Entry, opts: Options, blobs: Blobs, broken: set<Path>, now: nat, k: Entry)
    requires opts.force && RestoreEntry(o, e, opts, blobs, broken, now).errors == []
    ensures o.errors == []
    ensures var t := RestoreEntry(o, e, opts, blobs, broken, now).tree;
      && (Picked(e, opts) ==> Settled(t, e))
      && (k.path != e.path ==> (Settled(t, k) <==> Settled(o.tree, k) && !Overbuilds(e, k, opts)))
  {
    if Picked(e, opts) && e.fp.present {
      var c := Get(blobs, e.ref.hash).content;
      WriteEffect(o.tree, broken, e.path, c, e.ref.mode, now, k.path);
      WriteEffect(o.tree, broken, e.path, c, e.ref.mode, now, e.path);
      GetIsHonest(blobs, e.ref.hash);
    }
  }

  /** Nothing after the entry is put back beneath it where it should be absent. */
  ghost predicate NoneOverbuilds(entries: seq<Entry>, k: nat, opts: Options)
    requires k < |entries|
  {
    forall j :: k < j < |entries| ==> !Overbuilds(entries[j], entries[k], opts)
  }

  lemma OverbuildsSnoc(entries: seq<Entry>, k: nat, opts: Options)
    requires k < |entries| - 1
    ensures var n := |entries| - 1;
      NoneOverbuilds(entries, k, opts) <==>
        NoneOverbuilds(entries[..n], k, opts) && !Overbuilds(entries[n], entries[k], opts)
  {
    var init := entries[..|entries| - 1];
    assert forall j :: 0 <= j < |init| ==> init[j] == entries[j];
  }

  /** From any disk: after a forced restore without errors, what the last entry
      for a path says holds of the disk, unless a later file was put back
      beneath a path that should be absent. */
  lemma {:induction false} ForcedSettlesIff(t: Tree, entries: seq<Entry>, opts: Options, blobs: Blobs,
                                            broken: set<Path>, now: nat, k: nat)
    requires opts.force && k < |entries| && Picked(entries[k], opts)
    requires forall j :: k < j < |entries| ==> entries[j].path != entries[k].path
    requires RestoreAll(t, entries, opts, blobs, broken, now).errors == []
    ensures Settled(RestoreAll(t, entries, opts, blobs, broken, now).tree, entries[k])
       <==> NoneOverbuilds(entries, k, opts)
  {
    var n := |entries| - 1;
    var init := entries[..n];
    StepForced(RestoreAll(t, init, opts, blobs, broken, now), entries[n], opts, blobs, broken, now, entries[k]);
    if k < n {
      OverbuildsSnoc(entries, k, opts);
      ForcedSettlesIff(t, init, opts, blobs, broken, now, k);
    }
  }

  /** The last entry for a path. */
  lemma {:induction false} LastFor(entries: seq<Entry>, k: nat) returns (m: nat)
    requires k < |entries|
    ensures k <= m < |entries| && entries[m].path == entries[k].path
    ensures forall j :: m < j < |entries| ==> entries[j].path != entries[m].path
    decreases |entries| - k
  {
    m := k;
    if j :| k < j < |entries| && entries[j].path == entries[k].path {
      m := LastFor(entries, j);
    }
  }

  /** Same presence, same content, same mode. */
  ghost predicate SameFile(a: Tree, b: Tree, p: Path) {
    && (p in a <==> p in b)
    && (p in a ==> a[p].File? && b[p].File? && a[p].content == b[p].content && a[p].mode == b[p].mode)
  }

  /** The round trip. Files are captured; then the disk becomes anything at
      all; a forced restore that reports no error brings back every captured
      path it was asked for. */
  lemma CaptureEditRestore(t: Tree, paths: seq<Path>, broken: set<Path>, full: set<Hash>, before: Blobs,
                           edited: Tree, opts: Options, blobs: Blobs, brokenThen: set<Path>, now: nat, i: nat)
    requires WellFormed(t) && CaptureAll(t, broken, full, before, paths).Ok?
    requires opts.force && i < |paths| && (opts.only == {} || paths[i] in opts.only)
    requires RestoreAll(edited, CaptureAll(t, broken, full, before, paths).value, opts, blobs, brokenThen, now).errors == []
    ensures SameFile(t, RestoreAll(edited, CaptureAll(t, broken, full, before, paths).value, opts, blobs, brokenThen, now).tree, paths[i])
  {
    var entries := CaptureAll(t, broken, full, before, paths).value;
    CaptureExact(t, broken, full, before, paths);
    var m := LastFor(entries, i);
    forall j | m < j < |entries| ensures !Overbuilds(entries[j], entries[m], opts) {
      assert Records(t, entries[j]) && Records(t, entries[m]);
    }
    ForcedSettlesIff(edited, entries, opts, blobs, brokenThen, now, m);
    assert Records(t, entries[m]);
  }

  /** What a snapshot built file by file can hold that a single capture cannot:
      first `a` is absent, and later a file stands beneath it. */
  lemma OverbuiltExample()
    ensures var a := Entry(["a"], NoRef, Fingerprint(["a"], 0, 0, Unset, false));
      var b := Entry(["a", "b"], BlobRef(Sha("x"), 1, 0), Fingerprint(["a", "b"], 1, 0, Sha("x"), true));
      var o := RestoreAll(map[], [a, b], Options({}, true), map[Sha("x") := "x"], {}, 0);
      o.errors == [] && !Settled(o.tree, a) && Settled(o.tree, b)
  {
    var a := Entry(["a"], NoRef, Fingerprint(["a"], 0, 0, Unset, false));
    var b := Entry(["a", "b"], BlobRef(Sha("x"), 1, 0), Fingerprint(["a", "b"], 1, 0, Sha("x"), true));
    var opts := Options({}, true);
    var blobs := map[Sha("x") := "x"];
    assert [a, b][..1] == [a] && [a][..0] == [];
    var nothing: Tree := map[];
    assert nothing - {["a"]} == nothing;
    assert PutBack(Begin(nothing), a, blobs, {}, 0) == Outcome(nothing, [], [["a"]], [], []);
    assert RestoreAll(nothing, [a], opts, blobs, {}, 0) == Outcome(nothing, [], [["a"]], [], []);
    WriteEffect(map[], {}, ["a", "b"], "x", 0, 0, ["a"]);
    assert Above(["a"], ["a", "b"]);
  }

  // ---------------------------------------------------------------- an unforced restore

  /** The fingerprint belongs to the content the entry refers to. */
  ghost predicate Proper(e: Entry) {
    e.fp.present ==> e.fp.sha.Sha? && e.fp.sha == e.ref.hash && e.fp.size == |e.fp.sha.content|
  }

  /** The disk says something else than the entry; a directory, or a path that
      cannot be looked at, is an error instead. */
  predicate Differs(t: Tree, broken: set<Path>, e: Entry) {
    match Stat(t, broken, e.path)
    case Missing => e.fp.present
    case Regular(c, _, _) => !e.fp.present || Sha(c) != e.fp.sha
    case _ => false
  }

  predicate Unreadable(t: Tree, broken: set<Path>, p: Path) {
    Stat(t, broken, p).Denied? || Stat(t, broken, p).Folder?
  }

  /** A conflict is a difference in existence or content, nothing else. */
  lemma ConflictIffDiffers(t: Tree, broken: set<Path>, e: Entry)
    requires Proper(e)
    ensures FingerprintOf(t, broken, e.path).Err? <==> Unreadable(t, broken, e.path)
    ensures FingerprintOf(t, broken, e.path).Ok? ==>
        (FingerprintConflict(e.fp, FingerprintOf(t, broken, e.path).value) <==> Differs(t, broken, e))
  {
  }

  /** Same paths and contents; only files in `written` may have another mode or
      time. */
  ghost predicate SameContents(a: Tree, b: Tree, written: seq<Path>) {
    && a.Keys == b.Keys
    && forall p <- a ::
         && a[p].File? == b[p].File?
         && (a[p].File? ==> a[p].content == b[p].content)
         && (p !in written ==> a[p] == b[p])
  }

  lemma SameSeen(a: Tree, b: Tree, written: seq<Path>, broken: set<Path>, e: Entry)
    requires SameContents(a, b, written)
    ensures Unreadable(a, broken, e.path) == Unreadable(b, broken, e.path)
    ensures Differs(a, broken, e) == Differs(b, broken, e)
    ensures Stat(a, broken, e.path).Missing? == Stat(b, broken, e.path).Missing?
  {
    assert forall q <- Ancestors(e.path) :: (q in a && a[q].File?) == (q in b && b[q].File?);
  }

  function ConflictingPaths(t: Tree, entries: seq<Entry>, opts: Options, broken: set<Path>): seq<Path> {
    if entries == [] then []
    else
      var e := entries[|entries| - 1];
      ConflictingPaths(t, entries[..|entries| - 1], opts, broken)
      + if Picked(e, opts) && Differs(t, broken, e) then [e.path] else []
  }

  function PathsOf(conflicts: seq<Conflict>): (ps: seq<Path>)
    ensures |ps| == |conflicts|
  {
    seq(|conflicts|, i requires 0 <= i < |conflicts| => conflicts[i].path)
  }

  lemma StepUnforced(t: Tree, o: Outcome, e: Entry, opts: Options, blobs: Blobs, broken: set<Path>, now: nat)
    requires WellFormed(t) && !opts.force && Proper(e)
    requires SameContents(t, o.tree, o.written)
    ensures var o' := RestoreEntry(o, e, opts, blobs, broken, now);
      && SameContents(t, o'.tree, o'.written)
      && PathsOf(o'.conflicts) == PathsOf(o.conflicts) + (if Picked(e, opts) && Differs(t, broken, e) then [e.path] else [])
      && (o'.written == o.written || (o'.written == o.written + [e.path] && !Differs(t, broken, e)))
  {
    SameSeen(t, o.tree, o.written, broken, e);
    ConflictIffDiffers(o.tree, broken, e);
    if Picked(e, opts) && !Unreadable(t, broken, e.path) && !Differs(t, broken, e) && Intact(blobs, e.ref.hash) {
      GetIsHonest(blobs, e.ref.hash);
      if e.fp.present {
        assert e.path in t;
        assert MakeDirectories(o.tree, e.path) == o.tree;
      }
    }
  }

  /** Without force nothing on the disk changes its content, comes or goes: an
      entry that differs is left alone and listed, in order, as a conflict, and
      all a write-back does is reset the mode and time of a file that already
      has the captured content. */
  lemma {:induction false} UnforcedChangesNothing(t: Tree, entries: seq<Entry>, opts: Options, blobs: Blobs,
                                                  broken: set<Path>, now: nat)
    requires WellFormed(t) && !opts.force && forall e <- entries :: Proper(e)
    ensures var o := RestoreAll(t, entries, opts, blobs, broken, now);
      && SameContents(t, o.tree, o.written)
      && PathsOf(o.conflicts) == ConflictingPaths(t, entries, opts, broken)
      && (forall p <- o.written :: exists e <- entries :: e.path == p && !Differs(t, broken, e))
  {
    if entries != [] {
      var n := |entries| - 1;
      UnforcedChangesNothing(t, entries[..n], opts, blobs, broken, now);
      StepUnforced(t, RestoreAll(t, entries[..n], opts, blobs, broken, now), entries[n], opts, blobs, broken, now);
      assert forall e <- entries[..n] :: e in entries;
    }
  }

  /** So a snapshot can be rolled back without force only when there is nothing
      to roll back: an unforced restore settles an entry's content exactly when
      the disk already had it. */
  lemma UnforcedRollsBackNothing(t: Tree, entries: seq<Entry>, opts: Options, blobs: Blobs,
                                 broken: set<Path>, now: nat, e: Entry)
    requires WellFormed(t) && !opts.force && forall x <- entries :: Proper(x)
    ensures Differs(t, broken, e) <==> Differs(RestoreAll(t, entries, opts, blobs, broken, now).tree, broken, e)
  {
    UnforcedChangesNothing(t, entries, opts, blobs, broken, now);
    var o := RestoreAll(t, entries, opts, blobs, broken, now);
    SameSeen(t, o.tree, o.written, broken, e);
  }

  // ---------------------------------------------------------------- what stays as it was

  /** The hashes a write-back may ask for. */
  function HashesOf(entries: seq<Entry>): set<Hash> {
    set e | e in entries && e.fp.present :: e.ref.hash
  }

  /** A restore depends on nothing but the blobs its entries name. */
  lemma {:induction false} RestoreNeedsOnlyItsBlobs(t: Tree, entries: seq<Entry>, opts: Options, blobs: Blobs,
                                                    other: Blobs, broken: set<Path>, now: nat)
    requires forall h <- HashesOf(entries) :: Get(blobs, h) == Get(other, h)
    ensures RestoreAll(t, entries, opts, blobs, broken, now) == RestoreAll(t, entries, opts, other, broken, now)
  {
    if entries != [] {
      var n := |entries| - 1;
      assert forall e <- entries[..n] :: e in entries;
      RestoreNeedsOnlyItsBlobs(t, entries[..n], opts, blobs, other, broken, now);
      assert entries[n].fp.present ==> entries[n].ref.hash in HashesOf(entries);
    }
  }

  lemma StepElsewhere(o: Outcome, e: Entry, opts: Options, blobs: Blobs, broken: set<Path>, now: nat, q: Path)
    requires q == e.path ==> !Picked(e, opts)
    ensures var t := RestoreEntry(o, e, opts, blobs, broken, now).tree;
      && (q in o.tree ==> q in t && t[q] == o.tree[q])
      && (q !in o.tree && q in t ==> t[q] == Directory && e.fp.present && Picked(e, opts) && Above(q, e.path))
  {
  }

  /** Paths nobody asked for keep what they have, errors or not; the most that
      appears is a directory above a file that is put back. */
  lemma {:induction false} RestoreElsewhere(t: Tree, entries: seq<Entry>, opts: Options, blobs: Blobs,
                                            broken: set<Path>, now: nat, q: Path)
    requires forall e <- entries :: Picked(e, opts) ==> e.path != q
    ensures var t' := RestoreAll(t, entries, opts, blobs, broken, now).tree;
      && (q in t ==> q in t' && t'[q] == t[q])
      && (q !in t && q in t' ==>
            t'[q] == Directory && exists e <- entries :: e.fp.present && Picked(e, opts) && Above(q, e.path))
  {
    if entries != [] {
      var n := |entries| - 1;
      assert forall e <- entries[..n] :: e in entries;
      RestoreElsewhere(t, entries[..n], opts, blobs, broken, now, q);
      StepElsewhere(RestoreAll(t, entries[..n], opts, blobs, broken, now), entries[n], opts, blobs, broken, now, q);
    }
  }

  /** What becomes of one entry. */
  datatype Fate = Passed | Conflicting | Erred | Removed | Restored

  function FateOf(t: Tree, e: Entry, opts: Options, blobs: Blobs, broken: set<Path>, now: nat): Fate {
    if !Picked(e, opts) then Passed
    else if !opts.force && Unreadable(t, broken, e.path) then Erred
    else if !opts.force && FingerprintConflict(e.fp, FingerprintOf(t, broken, e.path).value) then Conflicting
    else if !e.fp.present then if Remove(t, broken, e.path).1 then Removed else Erred
    else match Get(blobs, e.ref.hash)
      case Content(c) => if Write(t, broken, e.path, c, e.ref.mode, now).1 then Restored else Erred
      case _ => Erred
  }

  /** The fate of each entry on the disk as the entries before it left it. */
  function Fates(t: Tree, entries: seq<Entry>, opts: Options, blobs: Blobs, broken: set<Path>, now: nat): (f: seq<Fate>)
    ensures |f| == |entries|
  {
    if entries == [] then []
    else
      var n := |entries| - 1;
      Fates(t, entries[..n], opts, blobs, broken, now)
      + [FateOf(RestoreAll(t, entries[..n], opts, blobs, broken, now).tree, entries[n], opts, blobs, broken, now)]
  }

  /** The paths of the entries with a given fate, in order. */
  function PathsWith(entries: seq<Entry>, fates: seq<Fate>, fate: Fate): seq<Path>
    requires |fates| == |entries|
  {
    if entries == [] then []
    else
      var n := |entries| - 1;
      PathsWith(entries[..n], fates[..n], fate) + if fates[n] == fate then [entries[n].path] else []
  }

  /** Each list holds the paths of the entries with its fate. */
  ghost predicate Reports(o: Outcome, entries: seq<Entry>, fates: seq<Fate>) {
    && |fates| == |entries|
    && o.written == PathsWith(entries, fates, Restored) && o.deleted == PathsWith(entries, fates, Removed)
    && PathsOf(o.conflicts) == PathsWith(entries, fates, Conflicting) && o.errors == PathsWith(entries, fates, Erred)
  }

  /** What each fate means for the disk. A path that was not asked for is passed
      over; a conflict is a readable difference that force would override, and
      touches nothing; a restored or removed path is as the entry says; and an
      error changes no file. */
  lemma FateMeans(o: Outcome, e: Entry, opts: Options, blobs: Blobs, broken: set<Path>, now: nat)
    requires Proper(e)
    ensures var fate := FateOf(o.tree, e, opts, blobs, broken, now);
      var after := RestoreEntry(o, e, opts, blobs, broken, now).tree;
      var seen := Stat(o.tree, broken, e.path);
      var asked := opts.only == {} || e.path in opts.only;
      && (fate == Passed <==> !asked)
      && (fate == Passed || fate == Conflicting ==> after == o.tree)
      && (fate == Conflicting <==>
            asked && !opts.force &&
            ((seen == Missing && e.fp.present)
             || (seen.Regular? && (!e.fp.present || Sha(seen.content) != e.fp.sha))))
      && (fate == Restored ==> e.fp.present && Settled(after, e))
      && (fate == Removed ==> !e.fp.present && Settled(after, e))
      && (fate == Erred ==> forall q <- o.tree :: q in after && after[q] == o.tree[q])
  {
    ConflictIffDiffers(o.tree, broken, e);
  }

  /** A file that could not be written leaves the directories made for it. */
  lemma FailedWriteLeavesDirectories(o: Outcome, e: Entry, opts: Options, blobs: Blobs, broken: set<Path>, now: nat)
    requires opts.force && (opts.only == {} || e.path in opts.only) && e.fp.present && Intact(blobs, e.ref.hash)
    ensures var (t, ok) := Write(o.tree, broken, e.path, Get(blobs, e.ref.hash).content, e.ref.mode, now);
      var after := RestoreEntry(o, e, opts, blobs, broken, now);
      after.tree == t && (ok <==> after.errors == o.errors) && (!ok ==> after.errors == o.errors + [e.path])
  {
  }

  /** When putting back fails: an absent path that cannot be removed, a content
      that is missing or damaged, or a file that cannot be written; and without
      force a path that cannot be looked at. */
  lemma ErredIff(t: Tree, e: Entry, opts: Options, blobs: Blobs, broken: set<Path>, now: nat)
    ensures FateOf(t, e, opts, blobs, broken, now) == Erred <==>
      && (opts.only == {} || e.path in opts.only)
      && (opts.force || !(Stat(t, broken, e.path).Regular? || Stat(t, broken, e.path).Missing?)
          || !FingerprintConflict(e.fp, FingerprintOf(t, broken, e.path).value))
      && (|| (!opts.force && !(Stat(t, broken, e.path).Regular? || Stat(t, broken, e.path).Missing?))
          || (if e.fp.present
              then !Intact(blobs, e.ref.hash) || !Write(t, broken, e.path, Get(blobs, e.ref.hash).content, e.ref.mode, now).1
              else !Remove(t, broken, e.path).1))
  {
  }

  /** The entry is added to the list of its fate and to no other. */
  ghost predicate ReportsOne(o: Outcome, o': Outcome, e: Entry, fate: Fate) {
    && o'.written == (if fate == Restored then o.written + [e.path] else o.written)
    && o'.deleted == (if fate == Removed then o.deleted + [e.path] else o.deleted)
    && PathsOf(o'.conflicts) == (if fate == Conflicting then PathsOf(o.conflicts) + [e.path] else PathsOf(o.conflicts))
    && o'.errors == (if fate == Erred then o.errors + [e.path] else o.errors)
  }

  lemma StepReported(o: Outcome, e: Entry, opts: Options, blobs: Blobs, broken: set<Path>, now: nat)
    ensures ReportsOne(o, RestoreEntry(o, e, opts, blobs, broken, now), e, FateOf(o.tree, e, opts, blobs, broken, now))
  {
  }

  lemma PathsWithSnoc(entries: seq<Entry>, fates: seq<Fate>, e: Entry, f: Fate, fate: Fate)
    requires |fates| == |entries|
    ensures PathsWith(entries + [e], fates + [f], fate) ==
      if f == fate then PathsWith(entries, fates, fate) + [e.path] else PathsWith(entries, fates, fate)
  {
    assert (entries + [e])[..|entries|] == entries && (fates + [f])[..|fates|] == fates;
  }

  lemma ReportsSnoc(o: Outcome, o': Outcome, entries: seq<Entry>, fates: seq<Fate>, e: Entry, f: Fate)
    requires Reports(o, entries, fates) && ReportsOne(o, o', e, f)
    ensures Reports(o', entries + [e], fates + [f])
  {
    PathsWithSnoc(entries, fates, e, f, Restored);
    PathsWithSnoc(entries, fates, e, f, Removed);
    PathsWithSnoc(entries, fates, e, f, Conflicting);
    PathsWithSnoc(entries, fates, e, f, Erred);
  }

  lemma ReportedNext(o: Outcome, entries: seq<Entry>, fates: seq<Fate>, e: Entry, opts: Options, blobs: Blobs,
                     broken: set<Path>, now: nat)
    requires Reports(o, entries, fates)
    ensures Reports(RestoreEntry(o, e, opts, blobs, broken, now), entries + [e],
                    fates + [FateOf(o.tree, e, opts, blobs, broken, now)])
  {
    StepReported(o, e, opts, blobs, broken, now);
    ReportsSnoc(o, RestoreEntry(o, e, opts, blobs, broken, now), entries, fates, e,
                FateOf(o.tree, e, opts, blobs, broken, now));
  }

  lemma {:induction false} UnaskedPass(t: Tree, entries: seq<Entry>, opts: Options, blobs: Blobs, broken: set<Path>, now: nat)
    ensures forall i :: 0 <= i < |entries| ==>
      (Fates(t, entries, opts, blobs, broken, now)[i] == Passed <==> !Picked(entries[i], opts))
  {
    if entries != [] {
      UnaskedPass(t, entries[..|entries| - 1], opts, blobs, broken, now);
    }
  }

  /** Every entry asked for, and no other, ends in exactly one of the four lists:
      each entry has one fate, and the lists are the paths with theirs, in
      order. */
  lemma EveryEntryReported(t: Tree, entries: seq<Entry>, opts: Options, blobs: Blobs, broken: set<Path>, now: nat)
    ensures Reports(RestoreAll(t, entries, opts, blobs, broken, now), entries, Fates(t, entries, opts, blobs, broken, now))
    ensures forall i :: 0 <= i < |entries| ==>
      (Fates(t, entries, opts, blobs, broken, now)[i] == Passed <==> !Picked(entries[i], opts))
  {
    UnaskedPass(t, entries, opts, blobs, broken, now);
    AllReported(t, entries, opts, blobs, broken, now);
  }

  lemma {:induction false} AllReported(t: Tree, entries: seq<Entry>, opts: Options, blobs: Blobs, broken: set<Path>, now: nat)
    ensures Reports(RestoreAll(t, entries, opts, blobs, broken, now), entries, Fates(t, entries, opts, blobs, broken, now))
  {
    if entries != [] {
      var n := |entries| - 1;
      var init, e := entries[..n], entries[n];
      AllReported(t, init, opts, blobs, broken, now);
      ReportedNext(RestoreAll(t, init, opts, blobs, broken, now), init, Fates(t, init, opts, blobs, broken, now), e,
                   opts, blobs, broken, now);
      assert entries == init + [e];
    }
  }

  // ---------------------------------------------------------------- the references of a manifest

  predicate Verified(blobs: Blobs, ref: BlobRef) {
    Intact(blobs, ref.hash) && (ref.size > 0 ==> |Get(blobs, ref.hash).content| == ref.size)
  }

  /** Handing out a captured manifest's references fails as soon as it records
      an absent file: the empty reference is looked for like any other. */
  lemma AbsentFilesCannotBeHandedOut(t: Tree, entries: seq<Entry>, blobs: Blobs)
    requires forall e <- entries :: Records(t, e)
    ensures (forall e <- entries :: Verified(blobs, e.ref)) <==>
            (forall e <- entries :: e.path in t && Intact(blobs, e.ref.hash))
  {
    forall e <- entries ensures Verified(blobs, e.ref) <==> e.path in t && Intact(blobs, e.ref.hash) {
      GetIsHonest(blobs, e.ref.hash);
    }
  }

  /** So a manifest that records one absent file is never handed out. */
  lemma OneAbsentFileIsEnough(blobs: Blobs)
    ensures var e := Entry(["a"], NoRef, Fingerprint(["a"], 0, 0, Unset, false));
      CaptureAll(map[], {}, {}, blobs, [["a"]]) == Ok([e]) && !Verified(blobs, e.ref)
  {
    var p := ["a"];
    var e := Entry(p, NoRef, Fingerprint(p, 0, 0, Unset, false));
    assert [p][..0] == [];
    assert CaptureAll(map[], {}, {}, blobs, []) == Ok([]);
    assert Stat(map[], {}, p) == Missing;
    assert CaptureOne(map[], {}, {}, PutAll(blobs, []), p) == Ok(e);
    assert [] + [e] == [e];
  }
}
