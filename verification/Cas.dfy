/** The content-addressed store. `Sha` stands for a hash without collisions;
    `Unset` is the zero hash, which no content has. */
module Cas {
  import opened Wrappers

  datatype Hash = Unset | Sha(content: string)

  datatype BlobRef = BlobRef(hash: Hash, size: nat, mode: nat)

  type Blobs = map<Hash, string>

  datatype Fetched = Content(content: string) | Absent | Corrupt

  function Get(blobs: Blobs, h: Hash): Fetched {
    if h !in blobs then Absent
    else if Sha(blobs[h]) != h then Corrupt
    else Content(blobs[h])
  }

  /** A blob of the right size is taken to be the right one. */
  function Put(blobs: Blobs, content: string): Blobs {
    if NeedsWrite(blobs, content) then blobs[Sha(content) := content] else blobs
  }

  /** Whether putting the content has to write it. */
  predicate NeedsWrite(blobs: Blobs, content: string) {
    !(Sha(content) in blobs && |blobs[Sha(content)]| == |content|)
  }

  predicate Intact(blobs: Blobs, h: Hash) {
    Get(blobs, h).Content?
  }

  /** A damaged blob that kept its size. */
  predicate Masked(blobs: Blobs, content: string) {
    Sha(content) in blobs && |blobs[Sha(content)]| == |content| && blobs[Sha(content)] != content
  }

  /** What is put can be got back, unless a damaged blob of the same size stands
      in its place: it is not rewritten, and every later read reports it. */
  lemma PutGetIff(blobs: Blobs, content: string)
    ensures Get(Put(blobs, content), Sha(content)) == Content(content) <==> !Masked(blobs, content)
    ensures Masked(blobs, content) ==> Get(Put(blobs, content), Sha(content)) == Corrupt
  {
  }

  /** For instance, damage that turned one letter into another stays. */
  lemma DamageStays()
    ensures Get(Put(map[Sha("a") := "b"], "a"), Sha("a")) == Corrupt
  {
  }

  /** A wrong content is never handed out, whatever happened to the files. */
  lemma GetIsHonest(blobs: Blobs, h: Hash)
    ensures Get(blobs, h).Content? ==> h == Sha(Get(blobs, h).content)
    ensures Get(blobs, h).Content? <==> h.Sha? && h in blobs && blobs[h] == h.content
  {
  }

  lemma PutElsewhere(blobs: Blobs, content: string, h: Hash)
    ensures Intact(blobs, h) ==> Get(Put(blobs, content), h) == Get(blobs, h)
    ensures h != Sha(content) ==> Get(Put(blobs, content), h) == Get(blobs, h)
    ensures h.Sha? ==> (Masked(blobs, h.content) <==> Masked(Put(blobs, content), h.content))
    ensures blobs.Keys <= Put(blobs, content).Keys
  {
  }

  function Without(blobs: Blobs, hashes: set<Hash>): (r: Blobs)
    ensures r.Keys == blobs.Keys - hashes
    ensures forall h :: h in r ==> r[h] == blobs[h]
  {
    map h | h in blobs && h !in hashes :: blobs[h]
  }

  /** The bytes of a set of blobs. */
  ghost function Total(blobs: Blobs): nat
    decreases |blobs|
  {
    if blobs == map[] then 0
    else
      var h :| h in blobs;
      assert |Without(blobs, {h}).Keys| == |blobs.Keys| - 1;
      |blobs[h]| + Total(Without(blobs, {h}))
  }

  /** The sum does not depend on the order the blobs are visited in. */
  lemma {:induction false} TotalSplits(blobs: Blobs, h: Hash)
    requires h in blobs
    ensures Total(blobs) == |blobs[h]| + Total(Without(blobs, {h}))
    decreases |blobs|
  {
    var k :| k in blobs && Total(blobs) == |blobs[k]| + Total(Without(blobs, {k}));
    if k != h {
      WithoutSmaller(blobs, k);
      WithoutSmaller(blobs, h);
      TotalSplits(Without(blobs, {k}), h);
      TotalSplits(Without(blobs, {h}), k);
      WithoutBoth(blobs, h, k);
    }
  }

  lemma WithoutBoth(blobs: Blobs, h: Hash, k: Hash)
    ensures Without(Without(blobs, {k}), {h}) == Without(Without(blobs, {h}), {k})
  {
  }

  lemma WithoutSmaller(blobs: Blobs, h: Hash)
    requires h in blobs
    ensures |Without(blobs, {h})| == |blobs| - 1
  {
    assert |Without(blobs, {h}).Keys| == |blobs.Keys| - 1;
  }

  class Store {
    var blobs: Blobs

    constructor (found: Blobs)
      ensures blobs == found
    {
      blobs := found;
    }

    /** A blob that must be written and cannot be is an error; nothing half
        written is left. */
    method Keep(content: string, mode: nat, writable: bool) returns (kept: Option<BlobRef>)
      modifies this
      ensures kept.None? <==> NeedsWrite(old(blobs), content) && !writable
      ensures kept.Some? ==> kept.value == BlobRef(Sha(content), |content|, mode) && blobs == Put(old(blobs), content)
      ensures kept.None? ==> blobs == old(blobs)
    {
      var ref := BlobRef(Sha(content), |content|, mode);
      if ref.hash in blobs {
        if |blobs[ref.hash]| == ref.size {
          return Some(ref);
        }
      }
      if !writable {
        return None;
      }
      blobs := blobs[ref.hash := content];
      return Some(ref);
    }

    method GetByHash(h: Hash) returns (r: Fetched)
      ensures r == Get(blobs, h)
      ensures r == Absent <==> h !in blobs
      ensures r == Corrupt <==> h in blobs && Sha(blobs[h]) != h
      ensures r.Content? ==> Sha(r.content) == h && r.content == blobs[h]
    {
      if h !in blobs {
        return Absent;
      }
      var content := blobs[h];
      if Sha(content) != h {
        return Corrupt;
      }
      return Content(content);
    }

    /** The size is only compared when the reference has one. */
    method Verify(ref: BlobRef) returns (ok: bool)
      ensures ok <==> Intact(blobs, ref.hash) && (ref.size > 0 ==> |Get(blobs, ref.hash).content| == ref.size)
    {
      if ref.hash !in blobs {
        return false;
      }
      if Sha(blobs[ref.hash]) != ref.hash {
        return false;
      }
      if ref.size > 0 && |blobs[ref.hash]| != ref.size {
        return false;
      }
      return true;
    }

    /** Blobs go one by one; the first that is there and cannot be removed ends
        it. */
    method Delete(hashes: seq<Hash>, stuck: set<Hash>) returns (done: nat)
      modifies this
      ensures done <= |hashes|
      ensures blobs == Without(old(blobs), set h | h in hashes[..done])
      ensures forall i :: 0 <= i < done ==> !(hashes[i] in old(blobs) && hashes[i] in stuck)
      ensures done < |hashes| ==> hashes[done] in blobs && hashes[done] in stuck
    {
      done := 0;
      while done < |hashes|
        invariant done <= |hashes|
        invariant blobs == Without(old(blobs), set h | h in hashes[..done])
        invariant forall i :: 0 <= i < done ==> !(hashes[i] in old(blobs) && hashes[i] in stuck)
      {
        if hashes[done] in blobs && hashes[done] in stuck {
          return;
        }
        blobs := blobs - {hashes[done]};
        assert hashes[..done + 1] == hashes[..done] + [hashes[done]];
        done := done + 1;
      }
    }

    /** Every blob once. */
    method ListHashes() returns (listed: seq<Hash>)
      ensures forall h :: h in listed <==> h in blobs
      ensures forall i, j :: 0 <= i < j < |listed| ==> listed[i] != listed[j]
    {
      listed := [];
      var left := blobs.Keys;
      while left != {}
        invariant left <= blobs.Keys
        invariant forall h :: h in listed <==> h in blobs && h !in left
        invariant forall i, j :: 0 <= i < j < |listed| ==> listed[i] != listed[j]
        decreases left
      {
        var h :| h in left;
        listed := listed + [h];
        left := left - {h};
      }
    }

    method TotalSize() returns (total: nat)
      ensures total == Total(blobs)
    {
      total := 0;
      var rest := blobs;
      while rest != map[]
        invariant forall h :: h in rest ==> h in blobs && rest[h] == blobs[h]
        invariant total + Total(rest) == Total(blobs)
        decreases |rest|
      {
        var h :| h in rest;
        TotalSplits(rest, h);
        assert rest - {h} == Without(rest, {h});
        assert |(rest - {h}).Keys| == |rest.Keys| - 1;
        total := total + |rest[h]|;
        rest := rest - {h};
      }
    }
  }
}
