/** The tokenizer: byte-level encoding, merging, and the bounded cache of merge
    results, over any history of calls and cache upkeep. */
module Tokenizer {
  import opened Bytes
  import opened ByteEncoder
  import opened Bpe
  import Lru

  /** One string per character of the encoded text. */
  function Runes(s: string): (word: seq<string>)
    ensures |word| == |s|
    ensures forall i :: 0 <= i < |s| ==> word[i] == [s[i]]
  {
    if s == "" then [] else Runes(s[..|s| - 1]) + [[s[|s| - 1]]]
  }

  lemma {:induction false} JoinRunes(s: string)
    ensures Join(Runes(s)) == s
  {
    if s != "" {
      var init := s[..|s| - 1];
      JoinRunes(init);
      JoinAppend(Runes(init), [[s[|s| - 1]]]);
      assert Join([[s[|s| - 1]]]) == [s[|s| - 1]];
      assert s == init + [s[|s| - 1]];
    }
  }

  /** The tokens of one pre-token. */
  ghost function Tokens(ranks: Ranks, text: seq<Byte>): seq<string> {
    Merged(ranks, Runes(Encode(text)))
  }

  /** The original bytes are recoverable from the tokens. */
  lemma TokensAreLossless(ranks: Ranks, text: seq<Byte>)
    ensures Decode(Join(Tokens(ranks, text))) == text
  {
    MergedIsNormalForm(ranks, Runes(Encode(text)));
    JoinRunes(Encode(text));
    EncodeDecode(text);
  }

  /** Hence two pre-tokens with the same tokens are the same bytes. */
  lemma TokensInjective(ranks: Ranks, a: seq<Byte>, b: seq<Byte>)
    requires Tokens(ranks, a) == Tokens(ranks, b)
    ensures a == b
  {
    TokensAreLossless(ranks, a);
    TokensAreLossless(ranks, b);
  }

  type Splitter = seq<Byte> -> seq<seq<Byte>>

  ghost function SumTokens(ranks: Ranks, parts: seq<seq<Byte>>): nat {
    if parts == [] then 0
    else SumTokens(ranks, parts[..|parts| - 1]) + |Tokens(ranks, parts[|parts| - 1])|
  }

  /** The count without a cache. */
  ghost function PureCount(ranks: Ranks, split: Splitter, text: seq<Byte>): nat {
    if text == [] then 0
    else if split(text) == [] then |Tokens(ranks, text)|
    else SumTokens(ranks, split(text))
  }

  lemma SumSnoc(ranks: Ranks, parts: seq<seq<Byte>>, i: nat)
    requires i < |parts|
    ensures SumTokens(ranks, parts[..i + 1]) == SumTokens(ranks, parts[..i]) + |Tokens(ranks, parts[i])|
  {
    assert parts[..i + 1][..i] == parts[..i];
  }

  /** The pieces put together. */
  function Concat(parts: seq<seq<Byte>>): seq<Byte> {
    if parts == [] then [] else Concat(parts[..|parts| - 1]) + parts[|parts| - 1]
  }

  lemma TokensBounded(ranks: Ranks, text: seq<Byte>)
    ensures |Tokens(ranks, text)| <= |text|
    ensures text != [] ==> |Tokens(ranks, text)| >= 1
    ensures ranks == map[] ==> |Tokens(ranks, text)| == |text|
  {
    MergedIsNormalForm(ranks, Runes(Encode(text)));
  }

  lemma {:induction false} SumBounded(ranks: Ranks, parts: seq<seq<Byte>>)
    ensures SumTokens(ranks, parts) <= |Concat(parts)|
    ensures Concat(parts) != [] ==> SumTokens(ranks, parts) >= 1
    ensures ranks == map[] ==> SumTokens(ranks, parts) == |Concat(parts)|
  {
    if parts != [] {
      SumBounded(ranks, parts[..|parts| - 1]);
      TokensBounded(ranks, parts[|parts| - 1]);
    }
  }

  /** A text has at most one token per byte, at least one unless it is empty, and
      exactly one per byte when there is nothing to merge: for every splitter
      that loses nothing. */
  lemma CountBounds(ranks: Ranks, split: Splitter, text: seq<Byte>)
    requires split(text) != [] ==> Concat(split(text)) == text
    ensures PureCount(ranks, split, text) <= |text|
    ensures text != [] ==> PureCount(ranks, split, text) >= 1
    ensures ranks == map[] ==> PureCount(ranks, split, text) == |text|
  {
    TokensBounded(ranks, text);
    SumBounded(ranks, split(text));
  }

  // ---------------------------------------------------------------- cached values

  /** Every cached value is the merge result of its key. */
  ghost predicate Sound(ranks: Ranks, entries: map<string, Lru.Entry>) {
    forall k :: k in entries ==> entries[k].value == Merged(ranks, Runes(k))
  }

  lemma {:induction false} TrimmedSound(ranks: Ranks, items: seq<Lru.Item>, maxEntries: int, maxBytes: int)
    requires Sound(ranks, Lru.ToMap(items)) && Lru.NoDup(items)
    ensures Sound(ranks, Lru.ToMap(Lru.Trimmed(items, maxEntries, maxBytes)))
  {
    if !Lru.Fits(items, maxEntries, maxBytes) {
      Lru.DropLast(items);
      Lru.WithoutMap(items, items[|items| - 1].key);
      TrimmedSound(ranks, items[..|items| - 1], maxEntries, maxBytes);
    }
  }

  lemma {:induction false} FreshSound(ranks: Ranks, items: seq<Lru.Item>, now: int)
    requires Sound(ranks, Lru.ToMap(items)) && Lru.NoDup(items)
    ensures Lru.ToMap(Lru.Fresh(items, now)).Keys <= Lru.ToMap(items).Keys
    ensures Sound(ranks, Lru.ToMap(Lru.Fresh(items, now)))
  {
    if items != [] {
      assert Sound(ranks, Lru.ToMap(items[1..])) by {
        forall k | k in Lru.ToMap(items[1..])
          ensures Lru.ToMap(items[1..])[k].value == Merged(ranks, Runes(k))
        {
          assert Lru.ToMap(items)[k] == Lru.ToMap(items[1..])[k];
        }
      }
      FreshSound(ranks, items[1..], now);
      var rest := Lru.Fresh(items[1..], now);
      assert ([items[0]] + rest)[1..] == rest;
      assert Lru.ToMap(items)[items[0].key] == items[0].entry;
    }
  }

  // ---------------------------------------------------------------- the tokenizer

  datatype Op =
    | Count(text: seq<Byte>)
    | Resize(maxEntries: int, maxBytes: int)
    | Clear
    | Purge
    | Delete(key: string)

  /** The token counts a history asks for, in order. */
  ghost function PureCounts(ranks: Ranks, split: Splitter, ops: seq<Op>): seq<nat> {
    if ops == [] then []
    else
      var earlier := PureCounts(ranks, split, ops[..|ops| - 1]);
      match ops[|ops| - 1]
      case Count(text) => earlier + [PureCount(ranks, split, text)]
      case _ => earlier
  }

  class BpeTokenizer {
    const ranks: Ranks
    const split: Splitter
    const table: array<char>
    const cache: Lru.Cache

    ghost predicate Valid()
      reads this, cache, table
    {
      && cache.Valid() && Sound(ranks, cache.entries)
      && table.Length == 256 && forall b: Byte :: table[b] == CharOf(b)
    }

    constructor (ranks: Ranks, split: Splitter, maxEntries: int, maxBytes: int, ttl: int)
      ensures Valid() && this.ranks == ranks && this.split == split
      ensures fresh(cache) && fresh(table)
    {
      this.ranks, this.split := ranks, split;
      this.cache := new Lru.Cache(maxEntries, maxBytes, ttl);
      var t := BuildTable();
      this.table := t;
    }

    method RunesOf(s: string) returns (word: seq<string>)
      ensures word == Runes(s)
    {
      word := [];
      for i := 0 to |s|
        invariant word == Runes(s[..i])
      {
        assert s[..i + 1][..i] == s[..i];
        word := word + [[s[i]]];
      }
      assert s[..|s|] == s;
    }

    /** The clock is arbitrary, so any entry may have expired by now. */
    method BpeOf(token: string) returns (word: seq<string>)
      requires Valid()
      modifies cache
      ensures Valid() && word == Merged(ranks, Runes(token))
    {
      var now: int := *;
      var cached := cache.Get(token, now);
      if cached.Some? {
        return cached.value;
      }
      word := RunesOf(token);
      if |word| >= 2 {
        word := Merge(ranks, word);
      } else {
        BestUnlessSettled(ranks, word);
      }
      Store(token, word);
    }

    method Store(token: string, word: seq<string>)
      requires Valid() && word == Merged(ranks, Runes(token))
      modifies cache
      ensures Valid()
    {
      var now: int := *;
      ghost var e := Lru.Entry(word, Lru.EstimateBytes(word), Lru.Expiry(cache.ttl, now));
      ghost var rest := Lru.Without(cache.list, token);
      Lru.WithoutMap(cache.list, token);
      assert ([Lru.Item(token, e)] + rest)[1..] == rest;
      TrimmedSound(ranks, [Lru.Item(token, e)] + rest, cache.maxEntries, cache.maxBytes);
      cache.Put(token, word, now);
    }

    method CountTokens(text: seq<Byte>) returns (count: nat)
      requires Valid()
      modifies cache
      ensures Valid() && count == PureCount(ranks, split, text)
    {
      if text == [] {
        return 0;
      }
      var parts := split(text);
      if |parts| == 0 {
        count := CountPiece(text);
        return;
      }
      count := 0;
      for i := 0 to |parts|
        invariant Valid()
        invariant count == SumTokens(ranks, parts[..i])
      {
        SumSnoc(ranks, parts, i);
        var n := CountPiece(parts[i]);
        count := count + n;
      }
      assert parts[..|parts|] == parts;
    }

    method CountPiece(piece: seq<Byte>) returns (count: nat)
      requires Valid()
      modifies cache
      ensures Valid() && count == |Tokens(ranks, piece)|
    {
      var encoded := EncodeText(table, piece);
      var word := BpeOf(encoded);
      count := |word|;
    }

    /** One operation by a caller or by the memory manager. */
    method Apply(op: Op) returns (counts: seq<nat>)
      requires Valid()
      modifies cache
      ensures Valid()
      ensures counts == match op case Count(text) => [PureCount(ranks, split, text)] case _ => []
    {
      counts := [];
      match op {
        case Count(text) =>
          var n := CountTokens(text);
          counts := [n];
        case Resize(maxEntries, maxBytes) =>
          TrimmedSound(ranks, cache.list, maxEntries, maxBytes);
          cache.Resize(maxEntries, maxBytes);
        case Clear =>
          var _ := cache.Clear();
        case Purge =>
          var now: int := *;
          FreshSound(ranks, cache.list, now);
          var _ := cache.PurgeExpired(now);
        case Delete(key) =>
          Lru.WithoutMap(cache.list, key);
          var _ := cache.Delete(key);
      }
    }

    /** Whatever is evicted, expired, cleared, deleted or resized in between,
        and whatever the caps are, the counts are those without a cache. */
    method RunHistory(ops: seq<Op>) returns (counts: seq<nat>)
      requires Valid()
      modifies cache
      ensures Valid() && counts == PureCounts(ranks, split, ops)
    {
      counts := [];
      for i := 0 to |ops|
        invariant Valid()
        invariant counts == PureCounts(ranks, split, ops[..i])
      {
        assert ops[..i + 1][..i] == ops[..i];
        var more := Apply(ops[i]);
        counts := counts + more;
      }
      assert ops[..|ops|] == ops;
    }
  }
}
