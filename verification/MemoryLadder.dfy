/** The memory pressure ladder: a target level from three thresholds, reached
    one level at a time, running each registered reclaimer on the way up. */
module MemoryLadder {

  const NORMAL := 0
  const DROP_UI := 1
  const RECLAIM_WEB := 3
  const RECLAIM_BROWSER := 4
  const REJECT_BACKGROUND := 6
  const DEGRADE_INTERACTIVE := 7

  datatype Limits = Limits(soft: int, hard: int, emergency: int)
  {
    predicate Ordered() {
      soft <= hard <= emergency
    }
  }

  // ---------------------------------------------------------------- the target level

  /** Maps a usage in [lo, hi) onto the levels of a band by rounding. */
  function BandLevel(usage: int, lo: int, hi: int, loLevel: int, hiLevel: int): int {
    if hi <= lo then hiLevel
    else
      var span := hiLevel - loLevel;
      if span <= 0 then hiLevel
      else
        var ratio := (usage - lo) as real / (hi - lo) as real;
        var clamped := if ratio < 0.0 then 0.0 else if ratio > 1.0 then 1.0 else ratio;
        var level := loLevel + (clamped * span as real + 0.5).Floor;
        if level < loLevel then loLevel else if level > hiLevel then hiLevel else level
  }

  function TargetLevel(m: Limits, usage: int): int {
    if usage >= m.emergency then DEGRADE_INTERACTIVE
    else if usage >= m.hard then BandLevel(usage, m.hard, m.emergency, RECLAIM_BROWSER, REJECT_BACKGROUND)
    else if usage >= m.soft then BandLevel(usage, m.soft, m.hard, DROP_UI, RECLAIM_WEB)
    else NORMAL
  }

  /** Inside a three-level band the level is decided by quarters of the band. */
  lemma BandQuarters(usage: int, lo: int, hi: int, loLevel: int)
    requires lo <= usage < hi
    ensures BandLevel(usage, lo, hi, loLevel, loLevel + 2) ==
      loLevel + (if 4 * (usage - lo) < hi - lo then 0 else if 4 * (usage - lo) < 3 * (hi - lo) then 1 else 2)
  {
    var n, w := usage - lo, hi - lo;
    var ratio := n as real / w as real;
    assert ratio * w as real == n as real;
    RatioBounds(n, w, ratio);
    var x := ratio * 2.0 + 0.5;
    if 4 * n < w {
      assert 0.5 <= x < 1.0;
    } else if 4 * n < 3 * w {
      assert 1.0 <= x < 2.0;
    } else {
      assert 2.0 <= x < 3.0;
    }
  }

  lemma RatioBounds(n: int, w: int, ratio: real)
    requires 0 <= n < w && ratio * w as real == n as real
    ensures 0.0 <= ratio < 1.0
    ensures ratio < 0.25 <==> 4 * n < w
    ensures ratio < 0.75 <==> 4 * n < 3 * w
  {
    Against(n, w, ratio, 0.0);
    Against(n, w, ratio, 0.25);
    Against(n, w, ratio, 0.75);
    Against(n, w, ratio, 1.0);
  }

  lemma Against(n: int, w: int, ratio: real, q: real)
    requires w > 0 && ratio * w as real == n as real
    ensures ratio < q <==> n as real < q * w as real
  {
    ScaleUp(ratio, q, w as real);
  }

  lemma ScaleUp(a: real, b: real, c: real)
    requires c > 0.0
    ensures a < b <==> a * c < b * c
  {
    if a < b {
      assert (b - a) * c > 0.0;
    } else {
      assert (a - b) * c >= 0.0;
    }
  }

  /** The target in numbers, whatever the thresholds: each band is cut at one and
      three quarters. */
  lemma TargetByNumbers(m: Limits, usage: int)
    ensures TargetLevel(m, usage) ==
      if usage >= m.emergency then 7
      else if usage >= m.hard then
        (if 4 * (usage - m.hard) < m.emergency - m.hard then 4
         else if 4 * (usage - m.hard) < 3 * (m.emergency - m.hard) then 5 else 6)
      else if usage >= m.soft then
        (if 4 * (usage - m.soft) < m.hard - m.soft then 1
         else if 4 * (usage - m.soft) < 3 * (m.hard - m.soft) then 2 else 3)
      else 0
  {
    if m.hard <= usage < m.emergency {
      BandQuarters(usage, m.hard, m.emergency, 4);
    } else if m.soft <= usage < m.hard && usage < m.emergency {
      BandQuarters(usage, m.soft, m.hard, 1);
    }
  }

  /** The target never goes down when usage goes up. */
  lemma TargetMonotone(m: Limits, a: int, b: int)
    requires m.Ordered() && a <= b
    ensures NORMAL <= TargetLevel(m, a) <= TargetLevel(m, b) <= DEGRADE_INTERACTIVE
  {
    if m.soft <= a < m.hard {
      BandQuarters(a, m.soft, m.hard, DROP_UI);
    }
    if m.soft <= b < m.hard {
      BandQuarters(b, m.soft, m.hard, DROP_UI);
    }
    if m.hard <= a < m.emergency {
      BandQuarters(a, m.hard, m.emergency, RECLAIM_BROWSER);
    }
    if m.hard <= b < m.emergency {
      BandQuarters(b, m.hard, m.emergency, RECLAIM_BROWSER);
    }
  }

  ghost predicate Reachable(m: Limits, level: int) {
    exists usage :: TargetLevel(m, usage) == level
  }

  /** The level inside the two bands, by quarters. */
  function QuarterLevel(m: Limits, usage: int): int {
    var (lo, hi, first) := if usage < m.hard then (m.soft, m.hard, DROP_UI) else (m.hard, m.emergency, RECLAIM_BROWSER);
    if 4 * (usage - lo) < hi - lo then first
    else if 4 * (usage - lo) < 3 * (hi - lo) then first + 1
    else first + 2
  }

  /** Which levels of a band some usage reaches depends on its width alone:
      the first needs one unit, the second two, the third four. */
  lemma BandReachable(m: Limits, level: int, lo: int, hi: int, loLevel: int)
    requires m.Ordered()
    requires (lo, hi, loLevel) == (m.soft, m.hard, DROP_UI) || (lo, hi, loLevel) == (m.hard, m.emergency, RECLAIM_BROWSER)
    requires loLevel <= level <= loLevel + 2
    ensures Reachable(m, level) <==>
      hi - lo >= (if level == loLevel then 1 else if level == loLevel + 1 then 2 else 4)
  {
    var w := hi - lo;
    forall usage | m.soft <= usage < m.emergency
      ensures TargetLevel(m, usage) == QuarterLevel(m, usage)
    {
      if usage < m.hard {
        BandQuarters(usage, m.soft, m.hard, DROP_UI);
      } else {
        BandQuarters(usage, m.hard, m.emergency, RECLAIM_BROWSER);
      }
    }
    if level == loLevel && w >= 1 {
      assert TargetLevel(m, lo) == level;
    }
    if level == loLevel + 1 && w >= 2 {
      assert TargetLevel(m, lo + w / 2) == level;
    }
    if level == loLevel + 2 && w >= 4 {
      assert TargetLevel(m, hi - 1) == level;
    }
  }

  /** Every level from 0 to 7 is reachable if and only if both bands span at
      least four units. */
  lemma AllReachableIff(m: Limits)
    requires m.Ordered()
    ensures (forall level :: 0 <= level <= 7 ==> Reachable(m, level)) <==>
      m.hard - m.soft >= 4 && m.emergency - m.hard >= 4
  {
    BandReachable(m, 1, m.soft, m.hard, DROP_UI);
    BandReachable(m, 2, m.soft, m.hard, DROP_UI);
    BandReachable(m, 3, m.soft, m.hard, DROP_UI);
    BandReachable(m, 4, m.hard, m.emergency, RECLAIM_BROWSER);
    BandReachable(m, 5, m.hard, m.emergency, RECLAIM_BROWSER);
    BandReachable(m, 6, m.hard, m.emergency, RECLAIM_BROWSER);
    assert TargetLevel(m, m.soft - 1) == 0;
    assert TargetLevel(m, m.emergency) == 7;
    if forall level :: 0 <= level <= 7 ==> Reachable(m, level) {
      assert Reachable(m, 3) && Reachable(m, 6);
    }
  }

  // ---------------------------------------------------------------- reclaimers

  datatype Reclaimer = Reclaimer(name: string, level: int)

  ghost predicate SortedByLevel(rs: seq<Reclaimer>) {
    forall i, j :: 0 <= i < j < |rs| ==> rs[i].level <= rs[j].level
  }

  /** Those with a level above `from` and up to `to`. */
  function Between(rs: seq<Reclaimer>, from: int, to: int): seq<Reclaimer> {
    if rs == [] then []
    else if from < rs[0].level <= to then [rs[0]] + Between(rs[1..], from, to)
    else Between(rs[1..], from, to)
  }

  /** In a sorted list a climb in two stages runs what one climb would. */
  lemma {:induction false} BetweenSplits(rs: seq<Reclaimer>, a: int, b: int, c: int)
    requires SortedByLevel(rs) && a <= b <= c
    ensures Between(rs, a, c) == Between(rs, a, b) + Between(rs, b, c)
  {
    if rs != [] {
      TailSorted(rs);
      BetweenSplits(rs[1..], a, b, c);
      if b < rs[0].level <= c {
        NoneBelow(rs[1..], a, b, rs[0].level);
        assert Between(rs, a, b) == [];
      }
    }
  }

  lemma TailSorted(rs: seq<Reclaimer>)
    requires SortedByLevel(rs) && rs != []
    ensures SortedByLevel(rs[1..])
    ensures forall i :: 0 <= i < |rs[1..]| ==> rs[1..][i].level >= rs[0].level
  {
  }

  lemma {:induction false} NoneBelow(rs: seq<Reclaimer>, a: int, b: int, floor: int)
    requires forall i :: 0 <= i < |rs| ==> rs[i].level >= floor
    requires b < floor
    ensures Between(rs, a, b) == []
  {
    if rs != [] {
      NoneBelow(rs[1..], a, b, floor);
    }
  }

  /** Each registered reclaimer in range is run as often as it was registered,
      and the others never. */
  lemma {:induction false} BetweenCounts(rs: seq<Reclaimer>, from: int, to: int, r: Reclaimer)
    ensures multiset(Between(rs, from, to))[r] == if from < r.level <= to then multiset(rs)[r] else 0
  {
    if rs != [] {
      BetweenCounts(rs[1..], from, to, r);
      assert rs == [rs[0]] + rs[1..];
    }
  }

  lemma {:induction false} BetweenMembers(rs: seq<Reclaimer>, from: int, to: int)
    ensures forall r :: r in Between(rs, from, to) ==> r in rs
  {
    if rs != [] {
      BetweenMembers(rs[1..], from, to);
    }
  }

  /** Levels only rise along a climb. */
  lemma {:induction false} BetweenSorted(rs: seq<Reclaimer>, from: int, to: int)
    requires SortedByLevel(rs)
    ensures SortedByLevel(Between(rs, from, to))
  {
    if rs != [] {
      BetweenSorted(rs[1..], from, to);
      BetweenMembers(rs[1..], from, to);
      forall r | r in Between(rs[1..], from, to) ensures rs[0].level <= r.level {
        var i :| 0 <= i < |rs[1..]| && rs[1..][i] == r;
        assert rs[i + 1] == r;
      }
    }
  }

  /** The climb of a fixed set of registrations does not depend on their order:
      the same reclaimers run, in the order of their levels. */
  lemma RegistrationOrderIrrelevant(rs: seq<Reclaimer>, rs': seq<Reclaimer>, from: int, to: int)
    requires SortedByLevel(rs) && SortedByLevel(rs') && multiset(rs) == multiset(rs')
    ensures multiset(Between(rs, from, to)) == multiset(Between(rs', from, to))
    ensures SortedByLevel(Between(rs, from, to)) && SortedByLevel(Between(rs', from, to))
  {
    BetweenSorted(rs, from, to);
    BetweenSorted(rs', from, to);
    forall r ensures multiset(Between(rs, from, to))[r] == multiset(Between(rs', from, to))[r] {
      BetweenCounts(rs, from, to, r);
      BetweenCounts(rs', from, to, r);
    }
  }

  /** The insertion sort's effect on a list whose last element is new. */
  function Inserted(rs: seq<Reclaimer>, r: Reclaimer): seq<Reclaimer> {
    if rs == [] || rs[|rs| - 1].level <= r.level then rs + [r]
    else Inserted(rs[..|rs| - 1], r) + [rs[|rs| - 1]]
  }

  lemma {:induction false} InsertedElements(rs: seq<Reclaimer>, r: Reclaimer)
    ensures multiset(Inserted(rs, r)) == multiset(rs) + multiset{r}
  {
    if rs != [] && rs[|rs| - 1].level > r.level {
      InsertedElements(rs[..|rs| - 1], r);
      assert rs == rs[..|rs| - 1] + [rs[|rs| - 1]];
    }
  }

  lemma SnocSorted(rs: seq<Reclaimer>, last: Reclaimer)
    requires SortedByLevel(rs) && forall i :: 0 <= i < |rs| ==> rs[i].level <= last.level
    ensures SortedByLevel(rs + [last])
  {
  }

  lemma InitSorted(rs: seq<Reclaimer>)
    requires SortedByLevel(rs) && rs != []
    ensures SortedByLevel(rs[..|rs| - 1])
    ensures forall i :: 0 <= i < |rs| ==> rs[i].level <= rs[|rs| - 1].level
  {
  }

  lemma {:induction false} InsertedBelow(rs: seq<Reclaimer>, r: Reclaimer, top: int)
    requires r.level <= top && forall i :: 0 <= i < |rs| ==> rs[i].level <= top
    ensures forall i :: 0 <= i < |Inserted(rs, r)| ==> Inserted(rs, r)[i].level <= top
  {
    if rs != [] && rs[|rs| - 1].level > r.level {
      InsertedBelow(rs[..|rs| - 1], r, top);
    }
  }

  lemma {:induction false} InsertedSorted(rs: seq<Reclaimer>, r: Reclaimer)
    requires SortedByLevel(rs)
    ensures SortedByLevel(Inserted(rs, r))
  {
    if rs == [] {
      return;
    }
    InitSorted(rs);
    var init, last := rs[..|rs| - 1], rs[|rs| - 1];
    if last.level > r.level {
      InsertedSorted(init, r);
      assert forall i :: 0 <= i < |init| ==> init[i] == rs[i];
      InsertedBelow(init, r, last.level);
      SnocSorted(Inserted(init, r), last);
    } else {
      SnocSorted(rs, r);
    }
  }

  class Manager {
    const limits: Limits
    var reclaimables: seq<Reclaimer>
    var level: int
    /** Every reclaimer run so far and every level entered, in order. */
    ghost var ran: seq<Reclaimer>
    ghost var entered: seq<int>

    ghost predicate Valid()
      reads this
    {
      SortedByLevel(reclaimables) && NORMAL <= level <= DEGRADE_INTERACTIVE
    }

    constructor (limits: Limits)
      ensures Valid() && reclaimables == [] && level == NORMAL && this.limits == limits && ran == [] && entered == []
    {
      this.limits := limits;
      reclaimables, level, ran, entered := [], NORMAL, [], [];
    }

    /** Appends and sinks the new element; the earlier ones are sorted. */
    method Register(r: Reclaimer)
      requires Valid()
      modifies this`reclaimables
      ensures Valid()
      ensures reclaimables == Inserted(old(reclaimables), r)
      ensures multiset(reclaimables) == multiset(old(reclaimables)) + multiset{r}
    {
      InsertedSorted(reclaimables, r);
      InsertedElements(reclaimables, r);
      reclaimables := Sink(reclaimables, r);
    }

    /** One exchange with the left neighbour. */
    static lemma SinkStep(rs: seq<Reclaimer>, r: Reclaimer, j: nat)
      requires 0 < j <= |rs|
      ensures var out := rs[..j] + [r] + rs[j..];
        && out[j] == r && out[j - 1] == rs[j - 1]
        && out[j := out[j - 1]][j - 1 := out[j]] == rs[..j - 1] + [r] + rs[j - 1..]
      ensures r.level < rs[j - 1].level ==> Inserted(rs[..j], r) + rs[j..] == Inserted(rs[..j - 1], r) + rs[j - 1..]
    {
      assert rs[..j][..j - 1] == rs[..j - 1];
      assert [rs[j - 1]] + rs[j..] == rs[j - 1..];
    }

    static method Sink(rs: seq<Reclaimer>, r: Reclaimer) returns (out: seq<Reclaimer>)
      ensures out == Inserted(rs, r)
    {
      out := rs + [r];
      var j := |rs|;
      assert rs[..j] == rs;
      while j > 0 && out[j].level < out[j - 1].level
        invariant 0 <= j <= |rs|
        invariant out == rs[..j] + [r] + rs[j..]
        invariant Inserted(rs, r) == Inserted(rs[..j], r) + rs[j..]
      {
        SinkStep(rs, r, j);
        out := out[j := out[j - 1]][j - 1 := out[j]];
        j := j - 1;
      }
    }

    /** Enters the neighbouring level; going up runs the reclaimers between. */
    method ApplyLevel(next: int)
      requires Valid() && NORMAL <= next <= DEGRADE_INTERACTIVE
      modifies this`level, this`ran, this`entered
      ensures Valid() && level == next
      ensures ran == old(ran) + Between(reclaimables, old(level), next)
      ensures entered == if next == old(level) then old(entered) else old(entered) + [next]
    {
      if next == level {
        NoneInEmptyRange(reclaimables, level);
        return;
      }
      if next > level {
        for i := 0 to |reclaimables|
          invariant level == old(level) && entered == old(entered)
          invariant ran + Between(reclaimables[i..], level, next) == old(ran) + Between(reclaimables, level, next)
        {
          var r := reclaimables[i];
          assert reclaimables[i..][1..] == reclaimables[i + 1..];
          if r.level > level && r.level <= next {
            ran := ran + [r];
          }
        }
      } else {
        NothingWhenFalling(reclaimables, level, next);
      }
      level := next;
      entered := entered + [next];
    }

    static lemma {:induction false} NoneInEmptyRange(rs: seq<Reclaimer>, at: int)
      ensures Between(rs, at, at) == []
    {
      if rs != [] {
        NoneInEmptyRange(rs[1..], at);
      }
    }

    static lemma {:induction false} NothingWhenFalling(rs: seq<Reclaimer>, from: int, to: int)
      requires to <= from
      ensures Between(rs, from, to) == []
    {
      if rs != [] {
        NothingWhenFalling(rs[1..], from, to);
      }
    }

    static lemma ClimbStep(rs: seq<Reclaimer>, ran: seq<Reclaimer>, entered: seq<int>, from: int, at: int)
      requires SortedByLevel(rs) && from <= at
      ensures ran + Between(rs, from, at) + Between(rs, at, at + 1) == ran + Between(rs, from, at + 1)
      ensures entered + Steps(from, at) + [at + 1] == entered + Steps(from, at + 1)
    {
      BetweenSplits(rs, from, at, at + 1);
    }

    /** Climbs one level at a time: exactly the reclaimers with a level in
        (old, target] run, in level order. */
    method Climb(target: int)
      requires Valid() && level <= target <= DEGRADE_INTERACTIVE
      modifies this`level, this`ran, this`entered
      ensures Valid() && level == target
      ensures ran == old(ran) + Between(reclaimables, old(level), target)
      ensures entered == old(entered) + Steps(old(level), target)
    {
      NoneInEmptyRange(reclaimables, level);
      ghost var start := level;
      while level < target
        invariant Valid() && start <= level <= target
        invariant ran == old(ran) + Between(reclaimables, start, level)
        invariant entered == old(entered) + Steps(start, level)
      {
        ClimbStep(reclaimables, old(ran), old(entered), start, level);
        ApplyLevel(level + 1);
      }
    }

    /** Descends one level at a time and runs nothing. */
    method Descend(target: int)
      requires Valid() && NORMAL <= target <= level
      modifies this`level, this`ran, this`entered
      ensures Valid() && level == target && ran == old(ran)
      ensures entered == old(entered) + Steps(old(level), target)
    {
      ghost var start := level;
      while level > target
        invariant Valid() && target <= level <= start
        invariant ran == old(ran)
        invariant entered == old(entered) + Steps(start, level)
      {
        NothingWhenFalling(reclaimables, level, level - 1);
        ApplyLevel(level - 1);
      }
    }

    /** Moves to the target one level at a time. A climb runs exactly the
        reclaimers with a level in (old, target], in level order; a descent
        runs none. */
    method EvaluateWithUsage(usage: int)
      requires Valid()
      modifies this`level, this`ran, this`entered
      ensures Valid() && level == TargetLevel(limits, usage)
      ensures ran == old(ran) + Between(reclaimables, old(level), level)
      ensures entered == old(entered) + Steps(old(level), level)
    {
      var target := TargetLevel(limits, usage);
      if level <= target {
        Climb(target);
      } else {
        NothingWhenFalling(reclaimables, level, target);
        Descend(target);
      }
    }
  }

  /** The levels entered on the way from one level to another. */
  function Steps(from: int, to: int): (s: seq<int>)
    ensures |s| == if from <= to then to - from else from - to
    ensures forall i :: 0 <= i < |s| ==> s[i] == if from <= to then from + i + 1 else from - i - 1
    decreases if from <= to then to - from else from - to
  {
    if from == to then []
    else if from < to then Steps(from, to - 1) + [to]
    else Steps(from, to + 1) + [to]
  }
}
