/** Greedy byte-pair merging: repeatedly joins the leftmost adjacent pair of
    least rank until no adjacent pair has a rank. */
module Bpe {

  type Ranks = map<(string, string), nat>

  predicate Mergeable(ranks: Ranks, word: seq<string>, i: int) {
    0 <= i < |word| - 1 && (word[i], word[i + 1]) in ranks
  }

  function RankAt(ranks: Ranks, word: seq<string>, i: int): nat
    requires Mergeable(ranks, word, i)
  {
    ranks[(word[i], word[i + 1])]
  }

  /** `i` is the leftmost of the pairs of least rank. */
  ghost predicate IsBest(ranks: Ranks, word: seq<string>, i: int) {
    && Mergeable(ranks, word, i)
    && (forall j :: Mergeable(ranks, word, j) ==> RankAt(ranks, word, i) <= RankAt(ranks, word, j))
    && (forall j :: Mergeable(ranks, word, j) && j < i ==> RankAt(ranks, word, i) < RankAt(ranks, word, j))
  }

  ghost predicate Settled(ranks: Ranks, word: seq<string>) {
    forall i :: !Mergeable(ranks, word, i)
  }

  function MergeAt(word: seq<string>, i: int): seq<string>
    requires 0 <= i < |word| - 1
  {
    word[..i] + [word[i] + word[i + 1]] + word[i + 2..]
  }

  /** One step of the algorithm. */
  ghost predicate Steps(ranks: Ranks, word: seq<string>, next: seq<string>) {
    exists i :: IsBest(ranks, word, i) && next == MergeAt(word, i)
  }

  /** `i` is the leftmost of the pairs of least rank among the first `n`. */
  ghost predicate BestBelow(ranks: Ranks, word: seq<string>, n: int, i: int) {
    && i < n && Mergeable(ranks, word, i)
    && (forall j :: Mergeable(ranks, word, j) && j < n ==> RankAt(ranks, word, i) <= RankAt(ranks, word, j))
    && (forall j :: Mergeable(ranks, word, j) && j < i ==> RankAt(ranks, word, i) < RankAt(ranks, word, j))
  }

  lemma {:induction false} BestExists(ranks: Ranks, word: seq<string>, n: nat)
    requires exists i :: i < n && Mergeable(ranks, word, i)
    ensures exists i :: BestBelow(ranks, word, n, i)
  {
    if exists i :: i < n - 1 && Mergeable(ranks, word, i) {
      BestExists(ranks, word, n - 1);
      var i :| BestBelow(ranks, word, n - 1, i);
      if Mergeable(ranks, word, n - 1) && RankAt(ranks, word, n - 1) < RankAt(ranks, word, i) {
        assert BestBelow(ranks, word, n, n - 1);
      } else {
        assert BestBelow(ranks, word, n, i);
      }
    } else {
      assert BestBelow(ranks, word, n, n - 1);
    }
  }

  lemma BestUnlessSettled(ranks: Ranks, word: seq<string>)
    ensures Settled(ranks, word) <==> !exists i :: IsBest(ranks, word, i)
  {
    if !Settled(ranks, word) {
      BestExists(ranks, word, |word|);
      var i :| BestBelow(ranks, word, |word|, i);
      assert IsBest(ranks, word, i);
    }
  }

  /** The result of merging to the end. */
  ghost function Merged(ranks: Ranks, word: seq<string>): seq<string>
    decreases |word|
  {
    if exists i :: IsBest(ranks, word, i) then
      var i :| IsBest(ranks, word, i);
      Merged(ranks, MergeAt(word, i))
    else word
  }

  lemma BestUnique(ranks: Ranks, word: seq<string>, i: int, k: int)
    requires IsBest(ranks, word, i) && IsBest(ranks, word, k)
    ensures i == k
  {
    assert Mergeable(ranks, word, i) && Mergeable(ranks, word, k);
    assert RankAt(ranks, word, i) == RankAt(ranks, word, k);
  }

  lemma MergedStep(ranks: Ranks, word: seq<string>, i: int)
    requires IsBest(ranks, word, i)
    ensures Merged(ranks, word) == Merged(ranks, MergeAt(word, i))
  {
    var k :| IsBest(ranks, word, k) && Merged(ranks, word) == Merged(ranks, MergeAt(word, k));
    BestUnique(ranks, word, i, k);
  }

  // ---------------------------------------------------------------- the loop

  method FindBest(ranks: Ranks, word: seq<string>) returns (bestIdx: int)
    ensures bestIdx < 0 ==> Settled(ranks, word)
    ensures bestIdx >= 0 ==> IsBest(ranks, word, bestIdx)
  {
    var bestRank: int := -1;
    bestIdx := -1;
    var i := 0;
    while i < |word| - 1
      invariant 0 <= i
      invariant word != [] ==> i <= |word| - 1
      invariant bestIdx == -1 <==> bestRank == -1
      invariant bestIdx < 0 ==> bestIdx == -1 && forall j :: Mergeable(ranks, word, j) ==> j >= i
      invariant bestIdx >= 0 ==>
        BestBelow(ranks, word, i, bestIdx) && bestRank == RankAt(ranks, word, bestIdx)
    {
      if (word[i], word[i + 1]) in ranks {
        var rank := ranks[(word[i], word[i + 1])];
        assert Mergeable(ranks, word, i);
        if bestRank < 0 || rank < bestRank {
          bestRank := rank;
          bestIdx := i;
        }
      }
      i := i + 1;
    }
  }

  method Rebuild(word: seq<string>, bestIdx: int) returns (next: seq<string>)
    requires 0 <= bestIdx < |word| - 1
    ensures next == MergeAt(word, bestIdx)
  {
    var merged := word[bestIdx] + word[bestIdx + 1];
    next := [];
    var i := 0;
    while i < |word|
      invariant 0 <= i <= |word|
      invariant i != bestIdx + 1
      invariant next == if i <= bestIdx then word[..i] else word[..bestIdx] + [merged] + word[bestIdx + 2..i]
    {
      if i == bestIdx {
        next := next + [merged];
        i := i + 2;
      } else {
        next := next + [word[i]];
        i := i + 1;
      }
    }
  }

  method Merge(ranks: Ranks, start: seq<string>) returns (word: seq<string>)
    ensures word == Merged(ranks, start)
  {
    word := start;
    if |word| < 2 {
      return;
    }
    while true
      invariant |word| >= 2
      invariant Merged(ranks, word) == Merged(ranks, start)
      decreases |word|
    {
      var bestIdx := FindBest(ranks, word);
      BestUnlessSettled(ranks, word);
      if bestIdx < 0 {
        break;
      }
      MergedStep(ranks, word, bestIdx);
      word := Rebuild(word, bestIdx);
      if |word| < 2 {
        break;
      }
    }
  }

  // ---------------------------------------------------------------- what the result is

  function Join(word: seq<string>): string {
    if word == [] then "" else word[0] + Join(word[1..])
  }

  lemma {:induction false} JoinAppend(a: seq<string>, b: seq<string>)
    ensures Join(a + b) == Join(a) + Join(b)
  {
    if a == [] {
      assert a + b == b;
    } else {
      assert (a + b)[1..] == a[1..] + b;
      JoinAppend(a[1..], b);
    }
  }

  lemma JoinPair(a: string, b: string)
    ensures Join([a + b]) == Join([a, b]) == a + b
  {
    assert [a, b][1..] == [b];
    assert Join([b]) == b + Join([b][1..]) == b;
    assert Join([a + b]) == (a + b) + Join([a + b][1..]);
    assert a + (b + "") == a + b;
  }

  lemma JoinMergeAt(word: seq<string>, i: int)
    requires 0 <= i < |word| - 1
    ensures Join(MergeAt(word, i)) == Join(word)
  {
    WordSplits(word, i);
    JoinMiddle(word[..i], word[i], word[i + 1], word[i + 2..]);
  }

  lemma WordSplits(word: seq<string>, i: int)
    requires 0 <= i < |word| - 1
    ensures word == (word[..i] + [word[i], word[i + 1]]) + word[i + 2..]
  {
  }

  lemma JoinMiddle(left: seq<string>, a: string, b: string, right: seq<string>)
    ensures Join((left + [a + b]) + right) == Join((left + [a, b]) + right)
  {
    JoinAppend(left + [a + b], right);
    JoinAppend(left + [a, b], right);
    JoinAppend(left, [a + b]);
    JoinAppend(left, [a, b]);
    JoinPair(a, b);
  }

  /** A step joins a pair of least rank, the leftmost such. */
  lemma StepsByRanks(ranks: Ranks, word: seq<string>, next: seq<string>)
    ensures Steps(ranks, word, next) <==>
      exists i :: 0 <= i < |word| - 1 && LeastAt(ranks, word, i)
        && next == word[..i] + [word[i] + word[i + 1]] + word[i + 2..]
  {
    forall i | 0 <= i < |word| - 1 ensures LeastAt(ranks, word, i) <==> IsBest(ranks, word, i) {
      LeastIsBest(ranks, word, i);
    }
  }

  lemma LeastIsBest(ranks: Ranks, word: seq<string>, i: nat)
    requires i < |word| - 1
    ensures LeastAt(ranks, word, i) <==> IsBest(ranks, word, i)
  {
    if IsBest(ranks, word, i) {
      forall j | 0 <= j < |word| - 1 && (word[j], word[j + 1]) in ranks
        ensures ranks[(word[i], word[i + 1])] <= ranks[(word[j], word[j + 1])]
        ensures j < i ==> ranks[(word[i], word[i + 1])] < ranks[(word[j], word[j + 1])]
      {
        assert Mergeable(ranks, word, j) && RankAt(ranks, word, i) <= RankAt(ranks, word, j);
      }
    }
  }

  ghost predicate LeastAt(ranks: Ranks, word: seq<string>, i: nat)
    requires i < |word| - 1
  {
    && (word[i], word[i + 1]) in ranks
    && forall j :: 0 <= j < |word| - 1 && (word[j], word[j + 1]) in ranks ==>
         ranks[(word[i], word[i + 1])] <= ranks[(word[j], word[j + 1])]
         && (j < i ==> ranks[(word[i], word[i + 1])] < ranks[(word[j], word[j + 1])])
  }

  /** No two neighbours of a settled word have a rank. */
  lemma SettledByRanks(ranks: Ranks, word: seq<string>)
    ensures Settled(ranks, word) <==> forall i :: 0 <= i < |word| - 1 ==> (word[i], word[i + 1]) !in ranks
  {
    if Settled(ranks, word) {
      forall i | 0 <= i < |word| - 1 ensures (word[i], word[i + 1]) !in ranks {
        assert !Mergeable(ranks, word, i);
      }
    }
  }

  /** Merging loses no text, ends where nothing more can merge, and never
      makes the word longer or empties it. */
  lemma {:induction false} MergedIsNormalForm(ranks: Ranks, word: seq<string>)
    ensures Join(Merged(ranks, word)) == Join(word)
    ensures Settled(ranks, Merged(ranks, word))
    ensures |Merged(ranks, word)| <= |word| && (word != [] ==> Merged(ranks, word) != [])
    decreases |word|
  {
    BestUnlessSettled(ranks, word);
    if !Settled(ranks, word) {
      var i :| IsBest(ranks, word, i);
      MergedStep(ranks, word, i);
      JoinMergeAt(word, i);
      MergedIsNormalForm(ranks, MergeAt(word, i));
    }
  }

  /** A run of steps, each merging the leftmost pair of least rank. */
  ghost predicate Derivation(ranks: Ranks, words: seq<seq<string>>) {
    words != [] && forall i :: 0 <= i < |words| - 1 ==> Steps(ranks, words[i], words[i + 1])
  }

  /** The merged word is reached by such a run, and it is where every such run
      that cannot be continued ends. */
  lemma {:induction false} MergedIsDerived(ranks: Ranks, word: seq<string>) returns (words: seq<seq<string>>)
    ensures Derivation(ranks, words) && words[0] == word && words[|words| - 1] == Merged(ranks, word)
    decreases |word|
  {
    if exists i :: IsBest(ranks, word, i) {
      var i :| IsBest(ranks, word, i);
      MergedStep(ranks, word, i);
      var rest := MergedIsDerived(ranks, MergeAt(word, i));
      words := [word] + rest;
    } else {
      words := [word];
    }
  }

  lemma {:induction false} DerivationsMeet(ranks: Ranks, words: seq<seq<string>>)
    requires Derivation(ranks, words)
    ensures Merged(ranks, words[0]) == Merged(ranks, words[|words| - 1])
    ensures Settled(ranks, words[|words| - 1]) ==> words[|words| - 1] == Merged(ranks, words[0])
    decreases |words|
  {
    if |words| == 1 {
      BestUnlessSettled(ranks, words[0]);
    } else {
      assert Steps(ranks, words[0], words[1]);
      var i :| IsBest(ranks, words[0], i) && words[1] == MergeAt(words[0], i);
      MergedStep(ranks, words[0], i);
      assert Derivation(ranks, words[1..]) by {
        forall k | 0 <= k < |words[1..]| - 1 ensures Steps(ranks, words[1..][k], words[1..][k + 1]) {
          assert Steps(ranks, words[k + 1], words[k + 2]);
        }
      }
      DerivationsMeet(ranks, words[1..]);
    }
  }
}
