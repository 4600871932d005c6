/** Bytes and big-endian numbers. */
module Bytes {

  type Byte = b: int | 0 <= b < 256

  function Power(width: nat): (p: nat)
    ensures p > 0
  {
    if width == 0 then 1 else 256 * Power(width - 1)
  }

  /** The low `width` bytes of a number, most significant first. */
  function BigEndian(v: nat, width: nat): (s: seq<Byte>)
    ensures |s| == width
  {
    if width == 0 then [] else BigEndian(v / 256, width - 1) + [v % 256]
  }

  function Number(s: seq<Byte>): nat {
    if s == [] then 0 else 256 * Number(s[..|s| - 1]) + s[|s| - 1]
  }

  lemma {:induction false} NumberOfBigEndian(v: nat, width: nat)
    requires v < Power(width)
    ensures Number(BigEndian(v, width)) == v
  {
    if width > 0 {
      NumberOfBigEndian(v / 256, width - 1);
      assert BigEndian(v, width)[..width - 1] == BigEndian(v / 256, width - 1);
    }
  }

  lemma {:induction false} BigEndianOfNumber(s: seq<Byte>)
    ensures Number(s) < Power(|s|)
    ensures BigEndian(Number(s), |s|) == s
  {
    if s != [] {
      BigEndianOfNumber(s[..|s| - 1]);
      assert Number(s) / 256 == Number(s[..|s| - 1]);
    }
  }

  /** The numbers of two, four and eight bytes, the most significant first. */
  lemma NumberOfTwo(s: seq<Byte>)
    requires |s| == 2
    ensures Number(s) == 256 * (s[0] as int) + s[1] as int
  {
    assert Number(s[..1]) == s[0];
  }

  lemma NumberOfFour(s: seq<Byte>)
    requires |s| == 4
    ensures Number(s) == 0x100_0000 * (s[0] as int) + 0x1_0000 * (s[1] as int) + 256 * (s[2] as int) + s[3] as int
  {
    NumberOfTwo(s[..2]);
    assert s[..3][..2] == s[..2];
    assert Number(s[..3]) == 256 * Number(s[..2]) + s[2];
  }

  lemma NumberOfEight(s: seq<Byte>)
    requires |s| == 8
    ensures Number(s) == 0x1_0000_0000 * Number(s[..4]) + Number(s[4..])
  {
    NumberOfFour(s[4..]);
    assert s[..5][..4] == s[..4] && s[..6][..5] == s[..5] && s[..7][..6] == s[..6];
    assert Number(s[..5]) == 256 * Number(s[..4]) + s[4];
    assert Number(s[..6]) == 256 * Number(s[..5]) + s[5];
    assert Number(s[..7]) == 256 * Number(s[..6]) + s[6];
  }

  /** Only the low bytes are kept. */
  lemma {:induction false} BigEndianTruncates(v: nat, width: nat)
    ensures BigEndian(v, width) == BigEndian(v % Power(width), width)
  {
    if width > 0 {
      BigEndianTruncates(v / 256, width - 1);
      ModSplit(v, Power(width - 1));
    }
  }

  lemma ModSplit(v: nat, p: nat)
    requires p > 0
    ensures (v % (256 * p)) / 256 == (v / 256) % p
    ensures (v % (256 * p)) % 256 == v % 256
  {
    var q, r := v / 256, v % 256;
    var a, b := q / p, q % p;
    assert q == a * p + b;
    assert v == 256 * (a * p + b) + r == (256 * p) * a + (256 * b + r);
    assert 0 <= 256 * b + r < 256 * p;
    DivModUnique(v, 256 * p, a, 256 * b + r);
  }

  lemma DivModUnique(v: nat, d: nat, q: nat, r: nat)
    requires d > 0 && r < d && v == d * q + r
    ensures v % d == r && v / d == q
  {
    var k := v / d;
    assert d * (k - q) == r - v % d;
    MulAtLeast(d, k - q);
    MulAtLeast(d, q - k);
    assert d * (q - k) == -(d * (k - q));
  }

  lemma MulAtLeast(d: nat, n: int)
    ensures n >= 1 ==> d * n >= d
  {
    if n >= 1 {
      assert d * n == d + d * (n - 1);
    }
  }
}
