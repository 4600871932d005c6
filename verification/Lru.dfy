/** The bounded LRU cache: a map, a recency list and two counters, with an
    entry cap, a byte cap and a time to live. */
module Lru {
  import opened Wrappers

  /** `expiresAt` is absent when entries do not expire. */
  datatype Entry = Entry(value: seq<string>, size: nat, expiresAt: Option<int>)

  /** One element of the linked list, most recently used first. */
  datatype Item = Item(key: string, entry: Entry)

  function EstimateBytes(v: seq<string>): nat {
    if v == [] then 0 else 24 + SumLengths(v)
  }

  function SumLengths(v: seq<string>): nat {
    if v == [] then 0 else SumLengths(v[..|v| - 1]) + ByteLength(v[|v| - 1]) + 16
  }

  /** The length of a string in UTF-8, which is what is counted. */
  function ByteLength(s: string): nat {
    if s == "" then 0 else ByteLength(s[..|s| - 1]) + Width(s[|s| - 1])
  }

  function Width(c: char): nat {
    var n := c as int;
    if n < 0x80 then 1 else if n < 0x800 then 2 else if n < 0x10000 then 3 else 4
  }

  predicate Expired(e: Entry, now: int) {
    e.expiresAt.Some? && now > e.expiresAt.value
  }

  function Expiry(ttl: int, now: int): Option<int> {
    if ttl <= 0 then None else Some(now + ttl)
  }

  /** An entry is gone once the clock has passed its time, and never without a
      time to live. */
  lemma ExpiredIff(value: seq<string>, size: nat, ttl: int, written: int, now: int)
    ensures Expired(Entry(value, size, Expiry(ttl, written)), now) <==> ttl > 0 && now > written + ttl
  {
  }

  /** A string costs 16 bytes and its UTF-8 length, and a non-empty slice 24
      bytes besides; so sizes add up. */
  lemma {:induction false} SizesAdd(v: seq<string>, w: seq<string>)
    ensures SumLengths(v + w) == SumLengths(v) + SumLengths(w)
    ensures v != [] && w != [] ==> EstimateBytes(v + w) == EstimateBytes(v) + EstimateBytes(w) - 24
  {
    if w == [] {
      assert v + w == v;
    } else {
      var init := w[..|w| - 1];
      SizesAdd(v, init);
      assert (v + w)[..|v + w| - 1] == v + init;
    }
  }

  lemma SizeOfOne(s: string)
    ensures EstimateBytes([]) == 0 && EstimateBytes([s]) == 40 + ByteLength(s)
  {
    assert [s][..0] == [];
  }

  lemma {:induction false} LengthsAdd(s: string, t: string)
    ensures ByteLength(s + t) == ByteLength(s) + ByteLength(t)
  {
    if t == "" {
      assert s + t == s;
    } else {
      LengthsAdd(s, t[..|t| - 1]);
      assert (s + t)[..|s + t| - 1] == s + t[..|t| - 1];
    }
  }

  /** A character takes one to four bytes, by its code point. */
  lemma LengthOfOne(c: char)
    ensures ByteLength("") == 0
    ensures ByteLength([c]) ==
      if c <= '\U{7F}' then 1 else if c <= '\U{7FF}' then 2 else if c <= '\U{FFFF}' then 3 else 4
  {
    assert [c][..0] == "";
  }

  // ---------------------------------------------------------------- the recency sequence

  function Bytes(items: seq<Item>): nat {
    if items == [] then 0 else items[0].entry.size + Bytes(items[1..])
  }

  function Without(items: seq<Item>, key: string): seq<Item> {
    if items == [] then []
    else if items[0].key == key then Without(items[1..], key)
    else [items[0]] + Without(items[1..], key)
  }

  function Fresh(items: seq<Item>, now: int): seq<Item> {
    if items == [] then []
    else if Expired(items[0].entry, now) then Fresh(items[1..], now)
    else [items[0]] + Fresh(items[1..], now)
  }

  /** The map that holds the same entries as the sequence. */
  function ToMap(items: seq<Item>): map<string, Entry> {
    if items == [] then map[] else ToMap(items[1..])[items[0].key := items[0].entry]
  }

  predicate NoDup(items: seq<Item>) {
    items != [] ==> items[0].key !in ToMap(items[1..]) && NoDup(items[1..])
  }

  predicate Fits(items: seq<Item>, maxEntries: int, maxBytes: int) {
    && (maxEntries > 0 ==> |items| <= maxEntries)
    && (maxBytes > 0 ==> Bytes(items) <= maxBytes)
  }

  function Trimmed(items: seq<Item>, maxEntries: int, maxBytes: int): seq<Item> {
    if Fits(items, maxEntries, maxBytes) then items
    else Trimmed(items[..|items| - 1], maxEntries, maxBytes)
  }

  lemma {:induction false} PrefixBytes(items: seq<Item>, n: nat)
    requires n <= |items|
    ensures Bytes(items[..n]) <= Bytes(items)
  {
    if n > 0 {
      assert items[..n][1..] == items[1..][..n - 1];
      PrefixBytes(items[1..], n - 1);
    }
  }

  /** The trimmed sequence is the longest most-recently-used prefix that fits
      both caps: a prefix fits exactly when it is no longer than that. */
  lemma {:induction false} TrimmedIsLongest(items: seq<Item>, maxEntries: int, maxBytes: int)
    ensures Trimmed(items, maxEntries, maxBytes) <= items
    ensures forall n :: 0 <= n <= |items| ==>
      (Fits(items[..n], maxEntries, maxBytes) <==> n <= |Trimmed(items, maxEntries, maxBytes)|)
  {
    if Fits(items, maxEntries, maxBytes) {
      forall n | 0 <= n <= |items| ensures Fits(items[..n], maxEntries, maxBytes) {
        PrefixBytes(items, n);
      }
    } else {
      var init := items[..|items| - 1];
      TrimmedIsLongest(init, maxEntries, maxBytes);
      assert items[..|items|] == items;
      forall n | 0 <= n < |items| ensures items[..n] == init[..n] {
      }
    }
  }

  /** The caps, read off the items: sizes add up, and trimming stops at the
      first length within both. */
  lemma {:induction false} BytesAdd(a: seq<Item>, b: seq<Item>)
    ensures Bytes(a + b) == Bytes(a) + Bytes(b)
  {
    if a == [] {
      assert a + b == b;
    } else {
      BytesAdd(a[1..], b);
      assert (a + b)[1..] == a[1..] + b;
    }
  }

  lemma TrimmedByCaps(items: seq<Item>, maxEntries: int, maxBytes: int)
    ensures var kept := Trimmed(items, maxEntries, maxBytes);
      && kept <= items
      && (maxEntries > 0 ==> |kept| <= maxEntries)
      && (maxBytes > 0 ==> Bytes(kept) <= maxBytes)
      && (kept != items ==>
            || (maxEntries > 0 && |kept| == maxEntries)
            || (maxBytes > 0 && Bytes(kept) + items[|kept|].entry.size > maxBytes))
  {
    TrimmedIsLongest(items, maxEntries, maxBytes);
    var kept := Trimmed(items, maxEntries, maxBytes);
    assert items[..|kept|] == kept;
    if kept != items {
      var n := |kept|;
      assert items[..n + 1] == kept + [items[n]];
      BytesAdd(kept, [items[n]]);
      assert !Fits(items[..n + 1], maxEntries, maxBytes);
    }
  }

  /** What was just written survives its own eviction unless it alone is over
      the byte cap. */
  lemma FrontSurvivesIff(x: Item, rest: seq<Item>, maxEntries: int, maxBytes: int)
    ensures var kept := Trimmed([x] + rest, maxEntries, maxBytes);
      kept != [] && kept[0] == x <==> maxBytes <= 0 || x.entry.size <= maxBytes
  {
    TrimmedIsLongest([x] + rest, maxEntries, maxBytes);
    assert ([x] + rest)[..1] == [x];
    assert Bytes([x]) == x.entry.size;
  }

  /** Removing a key takes its one item out and keeps the order of the others. */
  lemma {:induction false} WithoutAt(items: seq<Item>, i: nat)
    requires NoDup(items) && i < |items|
    ensures Without(items, items[i].key) == items[..i] + items[i + 1..]
  {
    if i == 0 {
      WithoutAbsent(items[1..], items[0].key);
    } else {
      WithoutAt(items[1..], i - 1);
      KeyAt(items[1..], i - 1);
      assert items[..i] + items[i + 1..] == [items[0]] + (items[1..][..i - 1] + items[1..][i..]);
    }
  }

  lemma {:induction false} KeyAt(items: seq<Item>, i: nat)
    requires i < |items|
    ensures items[i].key in ToMap(items)
  {
    if i > 0 {
      KeyAt(items[1..], i - 1);
    }
  }

  /** Purging keeps exactly the items that have no time or have not reached it. */
  lemma {:induction false} FreshMembers(items: seq<Item>, now: int)
    ensures forall x :: x in Fresh(items, now) <==>
              x in items && (x.entry.expiresAt.None? || now <= x.entry.expiresAt.value)
  {
    if items != [] {
      FreshMembers(items[1..], now);
    }
  }

  // ---------------------------------------------------------------- map and sequence

  lemma {:induction false} LookupLength(items: seq<Item>)
    requires NoDup(items)
    ensures |ToMap(items)| == |items|
  {
    if items != [] {
      LookupLength(items[1..]);
      var m := ToMap(items[1..]);
      assert ToMap(items).Keys == m.Keys + {items[0].key};
      assert |ToMap(items).Keys| == |m.Keys| + 1;
    }
  }

  lemma {:induction false} WithoutAbsent(items: seq<Item>, key: string)
    requires key !in ToMap(items)
    ensures Without(items, key) == items
  {
    if items != [] {
      WithoutAbsent(items[1..], key);
    }
  }

  /** Removing a key from the list is removing it from the map, and costs
      exactly the entry's bytes. */
  lemma {:induction false} WithoutMap(items: seq<Item>, key: string)
    requires NoDup(items)
    ensures ToMap(Without(items, key)) == ToMap(items) - {key}
    ensures NoDup(Without(items, key))
    ensures key in ToMap(items) ==>
      |Without(items, key)| == |items| - 1 &&
      Bytes(Without(items, key)) == Bytes(items) - ToMap(items)[key].size
  {
    if items != [] {
      WithoutMap(items[1..], key);
      if items[0].key == key {
        WithoutAbsent(items[1..], key);
      } else {
        var rest := Without(items[1..], key);
        assert ([items[0]] + rest)[1..] == rest;
      }
    }
  }

  lemma {:induction false} DropLast(items: seq<Item>)
    requires NoDup(items) && items != []
    ensures Without(items, items[|items| - 1].key) == items[..|items| - 1]
    ensures items[|items| - 1].key in ToMap(items)
  {
    if |items| == 1 {
      assert items[1..] == [];
    } else {
      DropLast(items[1..]);
      assert items[0].key != items[|items| - 1].key;
      assert items[..|items| - 1] == [items[0]] + items[1..][..|items| - 2];
    }
  }

  lemma {:induction false} FreshWithout(items: seq<Item>, key: string, now: int)
    requires NoDup(items) && key in ToMap(items) && Expired(ToMap(items)[key], now)
    ensures Fresh(Without(items, key), now) == Fresh(items, now)
  {
    if items[0].key == key {
      WithoutAbsent(items[1..], key);
    } else {
      FreshWithout(items[1..], key, now);
      var rest := Without(items[1..], key);
      assert ([items[0]] + rest)[1..] == rest;
    }
  }

  lemma {:induction false} FreshAll(items: seq<Item>, now: int)
    requires NoDup(items)
    requires forall k :: k in ToMap(items) ==> !Expired(ToMap(items)[k], now)
    ensures Fresh(items, now) == items
  {
    if items != [] {
      assert forall k :: k in ToMap(items[1..]) ==> k in ToMap(items) && ToMap(items)[k] == ToMap(items[1..])[k];
      FreshAll(items[1..], now);
      assert items[0].key in ToMap(items);
    }
  }

  // ---------------------------------------------------------------- the cache

  class Cache {
    var entries: map<string, Entry>
    /** The linked list, front first. */
    var list: seq<Item>
    var maxEntries: int
    var maxBytes: int
    var ttl: int
    var curBytes: int
    var curEntries: int

    /** Map and list hold the same entries, each key once, and both counters
        are exact. */
    ghost predicate Valid()
      reads this
    {
      && NoDup(list)
      && entries == ToMap(list)
      && curEntries == |list|
      && curBytes == Bytes(list)
    }

    constructor (maxEntries: int, maxBytes: int, ttl: int)
      ensures Valid() && list == []
      ensures this.maxEntries == maxEntries && this.maxBytes == maxBytes && this.ttl == ttl
    {
      entries, list := map[], [];
      this.maxEntries, this.maxBytes, this.ttl := maxEntries, maxBytes, ttl;
      curBytes, curEntries := 0, 0;
    }

    /** Drops one key from map and list; the clamp below zero never fires. */
    method Remove(key: string)
      requires Valid() && key in entries
      modifies this`entries, this`list, this`curBytes, this`curEntries
      ensures Valid()
      ensures entries == old(entries) - {key}
      ensures list == Without(old(list), key) && |list| == |old(list)| - 1
    {
      WithoutMap(list, key);
      var size := entries[key].size;
      entries := entries - {key};
      list := Without(list, key);
      curEntries := curEntries - 1;
      curBytes := curBytes - size;
      if curBytes < 0 {
        assert false;
      }
    }

    /** A hit refreshes the key's recency; an expired entry is dropped and
        reported as a miss. */
    method Get(key: string, now: int) returns (hit: Option<seq<string>>)
      requires Valid()
      modifies this`entries, this`list, this`curBytes, this`curEntries
      ensures Valid()
      ensures hit.Some? <==> key in old(entries) && !Expired(old(entries)[key], now)
      ensures hit.Some? ==>
        hit.value == old(entries)[key].value && entries == old(entries) &&
        list == [Item(key, old(entries)[key])] + Without(old(list), key)
      ensures hit.None? ==> list == Without(old(list), key) && entries == old(entries) - {key}
    {
      WithoutMap(list, key);
      if key !in entries {
        WithoutAbsent(list, key);
        return None;
      }
      var e := entries[key];
      if Expired(e, now) {
        Remove(key);
        return None;
      }
      MoveToFront(key, e);
      hit := Some(e.value);
    }

    /** Writes an entry for a stored key and moves it to the front. */
    method MoveToFront(key: string, e: Entry)
      requires Valid() && key in entries
      modifies this`entries, this`list, this`curBytes
      ensures Valid()
      ensures entries == old(entries)[key := e]
      ensures list == [Item(key, e)] + Without(old(list), key)
    {
      WithoutMap(list, key);
      curBytes := curBytes + e.size - entries[key].size;
      entries := entries[key := e];
      var rest := Without(list, key);
      list := [Item(key, e)] + rest;
      assert list[1..] == rest;
      assert entries == ToMap(list);
    }

    /** Writes the key in front of the recency sequence and keeps the longest
        prefix of the result that fits both caps. */
    method Put(key: string, value: seq<string>, now: int)
      requires Valid()
      modifies this`entries, this`list, this`curBytes, this`curEntries
      ensures Valid()
      ensures list ==
        Trimmed([Item(key, Entry(value, EstimateBytes(value), Expiry(ttl, now)))] + Without(old(list), key),
                maxEntries, maxBytes)
    {
      var e := Entry(value, EstimateBytes(value), Expiry(ttl, now));
      if key in entries {
        MoveToFront(key, e);
      } else {
        WithoutAbsent(list, key);
        entries := entries[key := e];
        list := [Item(key, e)] + list;
        assert list[1..] == old(list);
        curEntries := curEntries + 1;
        curBytes := curBytes + e.size;
      }
      Enforce();
    }

    /** Evicts from the back until both caps hold. */
    method Enforce()
      requires Valid()
      modifies this`entries, this`list, this`curBytes, this`curEntries
      ensures Valid()
      ensures list == Trimmed(old(list), maxEntries, maxBytes)
    {
      while maxEntries > 0 && curEntries > maxEntries
        invariant Valid()
        invariant Trimmed(list, maxEntries, maxBytes) == Trimmed(old(list), maxEntries, maxBytes)
        decreases |list|
      {
        DropLast(list);
        Remove(list[|list| - 1].key);
      }
      while maxBytes > 0 && curBytes > maxBytes
        invariant Valid()
        invariant maxEntries > 0 ==> |list| <= maxEntries
        invariant Trimmed(list, maxEntries, maxBytes) == Trimmed(old(list), maxEntries, maxBytes)
        decreases |list|
      {
        DropLast(list);
        Remove(list[|list| - 1].key);
      }
    }

    method Delete(key: string) returns (found: bool)
      requires Valid()
      modifies this`entries, this`list, this`curBytes, this`curEntries
      ensures Valid()
      ensures found <==> key in old(entries)
      ensures list == Without(old(list), key)
    {
      if key !in entries {
        WithoutAbsent(list, key);
        return false;
      }
      Remove(key);
      found := true;
    }

    method Clear() returns (freed: int)
      requires Valid()
      modifies this`entries, this`list, this`curBytes, this`curEntries
      ensures Valid() && list == []
      ensures freed == Bytes(old(list))
    {
      freed := curBytes;
      entries, list := map[], [];
      curBytes, curEntries := 0, 0;
    }

    /** Walks the map in an unspecified order, deleting as it goes; the outcome
        does not depend on that order. */
    method PurgeExpired(now: int) returns (purged: nat)
      requires Valid()
      modifies this`entries, this`list, this`curBytes, this`curEntries
      ensures Valid()
      ensures list == if ttl <= 0 then old(list) else Fresh(old(list), now)
      ensures purged == |old(list)| - |list|
    {
      purged := 0;
      if ttl <= 0 {
        return;
      }
      var todo := entries.Keys;
      while todo != {}
        invariant Valid()
        invariant todo <= entries.Keys
        invariant Fresh(list, now) == Fresh(old(list), now)
        invariant forall k :: k in entries && k !in todo ==> !Expired(entries[k], now)
        invariant purged == |old(list)| - |list|
        decreases todo
      {
        var key :| key in todo;
        todo := todo - {key};
        if Expired(entries[key], now) {
          FreshWithout(list, key, now);
          Remove(key);
          purged := purged + 1;
        }
      }
      FreshAll(list, now);
    }

    method Resize(maxEntries: int, maxBytes: int)
      requires Valid()
      modifies this
      ensures Valid()
      ensures this.maxEntries == maxEntries && this.maxBytes == maxBytes && ttl == old(ttl)
      ensures list == Trimmed(old(list), maxEntries, maxBytes)
    {
      this.maxEntries := maxEntries;
      this.maxBytes := maxBytes;
      Enforce();
    }
  }
}
