/** The token budget of one context window: seven segments by ratio, with a
    minimum each, shrunk to fit when the minima overflow the window. */
module TokenBudget {

  datatype Ratios = Ratios(
    system: real, tools: real, recentConv: real, workingMem: real, knowledge: real, reasoning: real, output: real)
  {
    function Sum(): real {
      system + tools + recentConv + workingMem + knowledge + reasoning + output
    }
  }

  const DEFAULT_RATIOS := Ratios(0.05, 0.15, 0.25, 0.15, 0.10, 0.10, 0.20)

  datatype Options = Options(marginRatio: real, minSegment: int, ratios: Ratios)

  datatype Budget = Budget(
    window: int, usable: int, margin: int,
    system: int, tools: int, recentConv: int, workingMem: int, knowledge: int, reasoning: int, output: int)
  {
    function InputBudget(): int {
      system + tools + recentConv + workingMem + knowledge + reasoning
    }

    function Total(): int {
      InputBudget() + output
    }

    /** What the budget's own check accepts: disabled, or within the window. */
    predicate Valid() {
      window <= 0 || Total() <= window
    }
  }

  predicate AtLeast(b: Budget, n: int) {
    b.system >= n && b.tools >= n && b.recentConv >= n && b.workingMem >= n && b.knowledge >= n &&
    b.reasoning >= n && b.output >= n
  }

  function Ceil(r: real): int {
    -((-r).Floor)
  }

  /** The margin kept free, rounded up; none when it would leave nothing. */
  function MarginOf(window: int, ratio: real): int {
    if Ceil(window as real * ratio) < window then Ceil(window as real * ratio) else 0
  }

  /** A share of the usable window, at least the minimum. */
  function Scale(usable: int, ratio: real, minTokens: int): (v: int)
    ensures v >= minTokens
  {
    var v := (usable as real * ratio).Floor;
    if v < minTokens then minTokens else v
  }

  /** A share above the minimum is the exact one, rounded down. */
  lemma ScaleRoundsDown(usable: int, ratio: real, minTokens: int)
    ensures var v := Scale(usable, ratio, minTokens);
      v > minTokens ==> v as real <= usable as real * ratio < (v + 1) as real
  {
  }

  /** Options after defaults have replaced what is missing. */
  function Effective(o: Options): Options {
    Options(if o.marginRatio <= 0.0 then 0.05 else o.marginRatio,
            if o.minSegment <= 0 then 512 else o.minSegment,
            if o.ratios.Sum() == 0.0 then DEFAULT_RATIOS else o.ratios)
  }

  /** `v` is `n` scaled by avail/input and rounded towards zero. */
  ghost predicate ShareOf(v: int, n: int, avail: int, input: int) {
    if n >= 0 then v * input <= n * avail < (v + 1) * input
    else (v - 1) * input < n * avail <= v * input
  }

  ghost predicate NotBelowShare(v: int, n: int, avail: int, input: int) {
    n * avail < (v + 1) * input
  }

  /** Conversion to an integer cuts the fraction off. */
  function Truncate(r: real): int {
    if r >= 0.0 then r.Floor else -((-r).Floor)
  }

  /** Integer division cuts it off as well. */
  function Quarter(n: int): int {
    if n >= 0 then n / 4 else -((-n) / 4)
  }

  /** The output reserve is kept when it leaves room for at least one token, and
      cut to a quarter of the limit otherwise. */
  function KeptOutput(output: int, limit: int): int {
    if limit - output < 1 then Quarter(limit) else output
  }

  /** What is left for the input, never less than one token. */
  function Available(output: int, limit: int): int {
    if limit - KeptOutput(output, limit) < 1 then 1 else limit - KeptOutput(output, limit)
  }

  /** `r` is `b` scaled down: each segment is its share, but the recent
      conversation takes what the others leave, and at least nothing. */
  ghost predicate ScaledDown(b: Budget, r: Budget, limit: int) {
    && r.window == b.window && r.usable == b.usable && r.margin == b.margin
    && r.output == KeptOutput(b.output, limit)
    && var avail, input := Available(b.output, limit), b.InputBudget();
    && ShareOf(r.system, b.system, avail, input)
    && ShareOf(r.tools, b.tools, avail, input)
    && ShareOf(r.workingMem, b.workingMem, avail, input)
    && ShareOf(r.knowledge, b.knowledge, avail, input)
    && ShareOf(r.reasoning, b.reasoning, avail, input)
    && (r.InputBudget() == avail || (r.InputBudget() > avail && r.recentConv == 0))
  }

  /** `r` is `b` fitted into `limit`. */
  ghost predicate Shrunk(b: Budget, r: Budget, limit: int) {
    && ScaledDown(b, r, limit)
    && AtLeast(r, 0)
    && r.Total() == limit
    && NotBelowShare(r.recentConv, b.recentConv, limit - r.output, b.InputBudget())
  }

  /** Fits the segments into `limit`; without any input there is nothing to
      scale. With a positive limit and at least one token per segment, rounding
      goes to the recent conversation and the total is exact. */
  method ShrinkTo(b: Budget, limit: int) returns (r: Budget)
    ensures b.InputBudget() <= 0 ==> r == b
    ensures b.InputBudget() > 0 ==> ScaledDown(b, r, limit)
    ensures limit >= 1 && AtLeast(b, 1) ==> Shrunk(b, r, limit)
  {
    var outputKeep := b.output;
    var avail := limit - outputKeep;
    if avail < 1 {
      outputKeep := Quarter(limit);
      avail := limit - outputKeep;
    }
    if avail < 1 {
      avail := 1;
    }
    var input := b.InputBudget();
    if input <= 0 {
      return b;
    }
    var reasoning := Share(b.reasoning, avail, input);
    var workingMem := Share(b.workingMem, avail, input);
    var knowledge := Share(b.knowledge, avail, input);
    var tools := Share(b.tools, avail, input);
    var system := Share(b.system, avail, input);
    var recentConv := Share(b.recentConv, avail, input);
    var scaled := b.(reasoning := reasoning, workingMem := workingMem, knowledge := knowledge, tools := tools,
                     system := system, recentConv := recentConv, output := outputKeep);
    r := scaled;
    var diff := avail - r.InputBudget();
    if diff != 0 {
      r := r.(recentConv := r.recentConv + diff);
      if r.recentConv < 0 {
        r := r.(recentConv := 0);
      }
    }
    if limit >= 1 && AtLeast(b, 1) {
      ShrinkIsExact(b, scaled, r, limit);
    }
  }

  /** With non-negative segments the shares fit, so nothing is cut at zero. */
  lemma ShrinkIsExact(b: Budget, scaled: Budget, r: Budget, limit: int)
    requires limit >= 1 && AtLeast(b, 1) && ScaledDown(b, r, limit)
    requires scaled == r.(recentConv := scaled.recentConv)
    requires ShareOf(scaled.recentConv, b.recentConv, Available(b.output, limit), b.InputBudget())
    ensures Shrunk(b, r, limit)
  {
    var avail, input := Available(b.output, limit), b.InputBudget();
    assert avail == limit - r.output;
    NonNegativeShare(scaled.system, b.system, avail, input);
    NonNegativeShare(scaled.tools, b.tools, avail, input);
    NonNegativeShare(scaled.recentConv, b.recentConv, avail, input);
    NonNegativeShare(scaled.workingMem, b.workingMem, avail, input);
    NonNegativeShare(scaled.knowledge, b.knowledge, avail, input);
    NonNegativeShare(scaled.reasoning, b.reasoning, avail, input);
    SharesFit(b, scaled, avail, input);
    MulMonotone(scaled.recentConv + 1, r.recentConv + 1, input);
  }

  lemma NonNegativeShare(v: int, n: int, avail: int, input: int)
    requires n >= 0 && avail >= 1 && input >= 1 && ShareOf(v, n, avail, input)
    ensures v >= 0
  {
    if v < 0 {
      assert n * avail >= 0;
      MulMonotone(v + 1, 0, input);
    }
  }

  lemma MulMonotone(a: int, b: int, c: int)
    requires a <= b && c >= 0
    ensures a * c <= b * c
  {
  }

  method Share(n: int, avail: int, input: int) returns (v: int)
    requires avail >= 1 && input >= 1
    ensures ShareOf(v, n, avail, input)
  {
    var ratio := avail as real / input as real;
    v := Truncate(n as real * ratio);
    if n >= 0 {
      ShareBounds(n, avail, input, v);
    } else {
      ScaledSign(n, avail, input);
      assert (-n) as real * ratio == -(n as real * ratio);
      ShareBounds(-n, avail, input, -v);
      NegatedShare(v, n, avail, input);
    }
  }

  lemma ScaledSign(n: int, avail: int, input: int)
    requires n < 0 && avail >= 1 && input >= 1
    ensures n as real * (avail as real / input as real) < 0.0
  {
    var ratio := avail as real / input as real;
    assert ratio > 0.0;
    RealScaleStrict(n as real, 0.0, ratio);
  }

  lemma NegatedShare(v: int, n: int, avail: int, input: int)
    requires n < 0 && (-v) * input <= (-n) * avail < (-v + 1) * input
    ensures ShareOf(v, n, avail, input)
  {
    assert (-v) * input == -(v * input) && (-n) * avail == -(n * avail);
    assert (-v + 1) * input == -((v - 1) * input);
  }

  lemma ShareBounds(n: int, avail: int, input: int, v: int)
    requires n >= 0 && avail >= 1 && input >= 1
    requires v == Truncate(n as real * (avail as real / input as real))
    ensures v * input <= n * avail < (v + 1) * input
  {
    var ratio := avail as real / input as real;
    var x := n as real * ratio;
    assert ratio > 0.0;
    RealScale(0.0, n as real, ratio);
    assert ratio * input as real == avail as real;
    assert x * input as real == n as real * (ratio * input as real) == (n * avail) as real;
    assert v as real <= x < (v + 1) as real;
    RealScale(v as real, x, input as real);
    RealScaleStrict(x, (v + 1) as real, input as real);
    assert (v * input) as real == v as real * input as real;
    assert ((v + 1) * input) as real == (v + 1) as real * input as real;
  }

  lemma RealScale(a: real, b: real, c: real)
    requires a <= b && c > 0.0
    ensures a * c <= b * c
  {
  }

  lemma RealScaleStrict(a: real, b: real, c: real)
    requires a < b && c > 0.0
    ensures a * c < b * c
  {
  }

  /** Rounded shares never add up to more than what is available. */
  lemma SharesFit(b: Budget, r: Budget, avail: int, input: int)
    requires input == b.InputBudget() && input >= 1
    requires ShareOf(r.system, b.system, avail, input) && ShareOf(r.tools, b.tools, avail, input)
    requires ShareOf(r.recentConv, b.recentConv, avail, input) && ShareOf(r.workingMem, b.workingMem, avail, input)
    requires ShareOf(r.knowledge, b.knowledge, avail, input) && ShareOf(r.reasoning, b.reasoning, avail, input)
    requires AtLeast(b, 0)
    ensures r.InputBudget() <= avail
  {
    Distribute(r, input);
    Distribute(b, avail);
    Quotient(r.InputBudget(), avail, input);
  }

  lemma Quotient(total: int, avail: int, input: int)
    requires input >= 1 && total * input <= input * avail
    ensures total <= avail
  {
    if total > avail {
      MulMonotone(avail + 1, total, input);
    }
  }

  lemma Distribute(b: Budget, k: int)
    ensures b.InputBudget() * k ==
      b.system * k + b.tools * k + b.recentConv * k + b.workingMem * k + b.knowledge * k + b.reasoning * k
  {
    var s2 := b.system + b.tools;
    var s3 := s2 + b.recentConv;
    var s4 := s3 + b.workingMem;
    var s5 := s4 + b.knowledge;
    assert s2 * k == b.system * k + b.tools * k;
    assert s3 * k == s2 * k + b.recentConv * k;
    assert s4 * k == s3 * k + b.workingMem * k;
    assert s5 * k == s4 * k + b.knowledge * k;
  }

  /** For every window and all ratios: a non-positive window disables the
      budget; otherwise the segments fit the window. They are the scaled shares,
      each at least the minimum, when those fit, and add up to exactly the
      window when they had to be shrunk. */
  method ComputeBudget(window: int, options: Options) returns (b: Budget)
    ensures window <= 0 ==> b == Budget(0, 0, 0, 0, 0, 0, 0, 0, 0, 0)
    ensures window > 0 ==> b.window == window && b.usable + b.margin == window && 1 <= b.usable <= window
    ensures window > 0 ==> b.margin == MarginOf(window, Effective(options).marginRatio)
    ensures AtLeast(b, 0) && b.Valid()
    ensures window > 0 ==>
      var o := Effective(options);
      var asked := Scaled(window, b.usable, b.margin, o);
      if asked.Total() <= window then b == asked && AtLeast(b, o.minSegment) else Shrunk(asked, b, window)
  {
    var o := Effective(options);
    if window <= 0 {
      return Budget(0, 0, 0, 0, 0, 0, 0, 0, 0, 0);
    }
    var usable, margin := Reserve(window, o.marginRatio);
    b := Scaled(window, usable, margin, o);
    ScaledAtLeast(window, usable, margin, o);
    if b.InputBudget() + b.output > window {
      b := ShrinkTo(b, window);
    }
  }

  method Reserve(window: int, ratio: real) returns (usable: int, margin: int)
    requires window > 0 && ratio > 0.0
    ensures usable + margin == window && 1 <= usable <= window
    ensures margin == MarginOf(window, ratio)
  {
    margin := Ceil(window as real * ratio);
    MarginPositive(window, ratio);
    usable := window - margin;
    if usable < 1 {
      usable := window;
      margin := 0;
    }
  }

  lemma MarginPositive(window: int, ratio: real)
    requires window > 0 && ratio > 0.0
    ensures Ceil(window as real * ratio) >= 0
  {
    assert window as real * ratio > 0.0;
  }

  lemma ScaledAtLeast(window: int, usable: int, margin: int, o: Options)
    ensures AtLeast(Scaled(window, usable, margin, o), o.minSegment)
  {
  }

  /** The segment gets its ratio of the usable window rounded down, or the
      minimum if that is more. */
  ghost predicate SegmentOf(v: int, usable: int, ratio: real, minTokens: int) {
    && v >= minTokens
    && (v == minTokens || v as real <= usable as real * ratio)
    && usable as real * ratio < (v + 1) as real
  }

  /** Each segment follows its own ratio. */
  lemma ScaledByRatios(window: int, usable: int, margin: int, o: Options)
    ensures var b := Scaled(window, usable, margin, o);
      && b.window == window && b.usable == usable && b.margin == margin
      && SegmentOf(b.system, usable, o.ratios.system, o.minSegment)
      && SegmentOf(b.tools, usable, o.ratios.tools, o.minSegment)
      && SegmentOf(b.recentConv, usable, o.ratios.recentConv, o.minSegment)
      && SegmentOf(b.workingMem, usable, o.ratios.workingMem, o.minSegment)
      && SegmentOf(b.knowledge, usable, o.ratios.knowledge, o.minSegment)
      && SegmentOf(b.reasoning, usable, o.ratios.reasoning, o.minSegment)
      && SegmentOf(b.output, usable, o.ratios.output, o.minSegment)
  {
  }

  /** The margin is the exact one rounded up, unless that leaves nothing. */
  lemma MarginRoundsUp(window: int, ratio: real)
    requires window > 0 && ratio > 0.0
    ensures var m := MarginOf(window, ratio);
      if window as real * ratio <= (window - 1) as real
      then (m - 1) as real < window as real * ratio <= m as real
      else m == 0
  {
  }

  /** What is kept for the output when the window is too small for it is a
      quarter, rounded towards zero. */
  lemma KeptByLimit(output: int, limit: int)
    ensures var kept := KeptOutput(output, limit);
      if output < limit then kept == output
      else if limit >= 0 then 4 * kept <= limit < 4 * kept + 4
      else 4 * kept - 4 < limit <= 4 * kept
    ensures output < limit ==> Available(output, limit) == limit - output
    ensures limit >= 1 ==> Available(output, limit) >= 1
  {
  }

  const NO_OPTIONS := Options(0.0, 0, Ratios(0.0, 0.0, 0.0, 0.0, 0.0, 0.0, 0.0))

  /** Without options: 5 percent margin, at least 512 tokens for each segment,
      and the rest at 5, 15, 25, 15, 10, 10 and 20 percent. */
  lemma DefaultOptions()
    ensures Effective(NO_OPTIONS) == Options(0.05, 512, Ratios(0.05, 0.15, 0.25, 0.15, 0.1, 0.1, 0.2))
  {
  }

  /** A window of 100000 tokens then keeps 5000 free and divides 95000. */
  lemma DefaultBudget()
    ensures var o := Effective(NO_OPTIONS);
      && MarginOf(100000, o.marginRatio) == 5000
      && Scaled(100000, 95000, 5000, o) ==
           Budget(100000, 95000, 5000, 4750, 14250, 23750, 14250, 9500, 9500, 19000)
  {
    DefaultOptions();
    var o := Effective(NO_OPTIONS);
    assert 100000 as real * 0.05 == 5000.0;
    assert Scale(95000, 0.05, 512) == 4750 && Scale(95000, 0.15, 512) == 14250;
    assert Scale(95000, 0.25, 512) == 23750 && Scale(95000, 0.1, 512) == 9500 && Scale(95000, 0.2, 512) == 19000;
  }

  /** Options that are given are used. */
  lemma GivenOptions(o: Options)
    ensures o.marginRatio > 0.0 ==> Effective(o).marginRatio == o.marginRatio
    ensures o.minSegment > 0 ==> Effective(o).minSegment == o.minSegment
    ensures var r := o.ratios;
      r.system + r.tools + r.recentConv + r.workingMem + r.knowledge + r.reasoning + r.output != 0.0 ==>
        Effective(o).ratios == r
  {
  }

  function Scaled(window: int, usable: int, margin: int, o: Options): Budget {
    var r := o.ratios;
    Budget(window, usable, margin,
           Scale(usable, r.system, o.minSegment), Scale(usable, r.tools, o.minSegment),
           Scale(usable, r.recentConv, o.minSegment), Scale(usable, r.workingMem, o.minSegment),
           Scale(usable, r.knowledge, o.minSegment), Scale(usable, r.reasoning, o.minSegment),
           Scale(usable, r.output, o.minSegment))
  }
}
