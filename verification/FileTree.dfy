/** The disk as the checkpoint store meets it: paths are sequences of
    components, and the file calls fail the way a POSIX system makes them. */
module FileTree {

  type Path = seq<string>

  datatype Node = File(content: string, mode: nat, mtime: nat) | Directory

  type Tree = map<Path, Node>

  datatype Seen = Missing | Denied | Folder | Regular(content: string, mode: nat, mtime: nat)

  predicate Above(q: Path, p: Path) {
    0 < |q| < |p| && p[..|q|] == q
  }

  /** The places a path has above it. */
  function Ancestors(p: Path): (s: set<Path>)
    ensures forall q :: q in s <==> Above(q, p)
  {
    var s := set k | 0 < k < |p| :: p[..k];
    assert forall q :: Above(q, p) ==> q == p[..|q|];
    s
  }

  /** Something above the path is a file. */
  predicate Blocked(t: Tree, p: Path) {
    exists q <- Ancestors(p) :: q in t && t[q].File?
  }

  /** A path in `broken` fails for reasons of its own: permissions, a device. */
  function Stat(t: Tree, broken: set<Path>, p: Path): Seen {
    if p in broken || Blocked(t, p) then Denied
    else if p !in t then Missing
    else match t[p]
         case Directory => Folder
         case File(c, m, time) => Regular(c, m, time)
  }

  function MakeDirectories(t: Tree, p: Path): Tree {
    t + map q | q in Ancestors(p) && q !in t :: Directory
  }

  /** Create the directories, then replace the file as a whole. */
  function Write(t: Tree, broken: set<Path>, p: Path, content: string, mode: nat, now: nat): (r: (Tree, bool)) {
    if Blocked(t, p) || p == [] then (t, false)
    else
      var t1 := MakeDirectories(t, p);
      if p in broken || (p in t1 && t1[p].Directory?) then (t1, false)
      else (t1[p := File(content, mode, now)], true)
  }

  /** A missing file counts as removed; a directory goes only when empty. */
  function Remove(t: Tree, broken: set<Path>, p: Path): (r: (Tree, bool)) {
    if p in broken || Blocked(t, p) then (t, false)
    else if p in t && t[p].Directory? && exists q <- t :: Above(p, q) then (t, false)
    else (t - {p}, true)
  }

  /** Everything stands in directories. */
  ghost predicate WellFormed(t: Tree) {
    [] !in t && forall p, q | p in t && Above(q, p) :: q in t && t[q].Directory?
  }

  /** What a write does to every path, its own and the others. */
  lemma WriteEffect(t: Tree, broken: set<Path>, p: Path, content: string, mode: nat, now: nat, q: Path)
    requires Write(t, broken, p, content, mode, now).1
    ensures var t' := Write(t, broken, p, content, mode, now).0;
      && (q == p ==> q in t' && t'[q] == File(content, mode, now))
      && (q != p && q in t ==> q in t' && t'[q] == t[q])
      && (q != p && q !in t ==> (q in t' <==> Above(q, p)))
      && (Above(q, p) ==> q in t' && t'[q].Directory?)
  {
  }

  /** A proper beginning of the path is a file. */
  ghost predicate BehindFile(t: Tree, p: Path) {
    exists k :: 0 < k < |p| && p[..k] in t && t[p[..k]].File?
  }

  lemma BlockedIff(t: Tree, p: Path)
    ensures Blocked(t, p) <==> BehindFile(t, p)
  {
    if Blocked(t, p) {
      var q :| q in Ancestors(p) && q in t && t[q].File?;
      assert q == p[..|q|];
    }
    if k :| 0 < k < |p| && p[..k] in t && t[p[..k]].File? {
      assert p[..k] in Ancestors(p);
    }
  }

  /** What a look at a path shows, and when the file calls fail. */
  lemma CallsByTree(t: Tree, broken: set<Path>, p: Path, content: string, mode: nat, now: nat)
    ensures var seen := Stat(t, broken, p);
      && (seen == Denied <==> p in broken || BehindFile(t, p))
      && (seen == Missing <==> p !in broken && !BehindFile(t, p) && p !in t)
      && (seen == Folder <==> p !in broken && !BehindFile(t, p) && p in t && t[p].Directory?)
      && (seen.Regular? ==> p in t && t[p] == File(seen.content, seen.mode, seen.mtime))
    ensures Write(t, broken, p, content, mode, now).1 <==>
      p != [] && p !in broken && !BehindFile(t, p) && !(p in t && t[p].Directory?)
    ensures Remove(t, broken, p).1 <==>
      p !in broken && !BehindFile(t, p) && !(p in t && t[p].Directory? && exists q <- t :: Above(p, q))
  {
    BlockedIff(t, p);
  }

  /** A failing write changes no file and takes nothing away; a failing removal
      changes nothing at all. */
  lemma FailuresSpareFiles(t: Tree, broken: set<Path>, p: Path, content: string, mode: nat, now: nat, q: Path)
    ensures var (t', ok) := Write(t, broken, p, content, mode, now);
      !ok ==> (q in t ==> q in t' && t'[q] == t[q]) && (q in t' && q !in t ==> t'[q].Directory? && Above(q, p))
    ensures var (t', ok) := Remove(t, broken, p);
      if ok then t' == t - {p} else t' == t
  {
  }

  /** File calls keep the tree a tree. */
  lemma WriteKeepsWellFormed(t: Tree, broken: set<Path>, p: Path, content: string, mode: nat, now: nat)
    requires WellFormed(t)
    ensures WellFormed(Write(t, broken, p, content, mode, now).0)
  {
    var t1 := MakeDirectories(t, p);
    if !Blocked(t, p) && p != [] {
      forall a, q | a in t1 && Above(q, a) ensures q in t1 && t1[q].Directory? {
        if a !in t {
          assert Above(q, p);
        }
      }
      if !(p in broken || (p in t1 && t1[p].Directory?)) {
        forall a, q | a in t1[p := File(content, mode, now)] && Above(q, a)
          ensures q in t1 && t1[q].Directory? && q != p
        {
          if a == p {
            assert q in Ancestors(p);
          } else {
            assert a in t1;
          }
        }
      }
    }
  }

  lemma RemoveKeepsWellFormed(t: Tree, broken: set<Path>, p: Path)
    requires WellFormed(t)
    ensures WellFormed(Remove(t, broken, p).0)
  {
    forall a, q | a in t - {p} && Above(q, a) && q == p && t[p].Directory?
      ensures exists b <- t :: Above(p, b)
    {
      assert a in t;
    }
  }
}
