/** The byte-level alphabet: 256 bytes mapped to 256 distinct characters. */
module ByteEncoder {

  import opened Bytes

  predicate Printable(b: int) {
    33 <= b <= 126 || 161 <= b <= 172 || 174 <= b <= 255
  }

  /** How many bytes below `b` are not printable. */
  function Gaps(b: nat): nat {
    if b == 0 then 0 else Gaps(b - 1) + if Printable(b - 1) then 0 else 1
  }

  lemma {:induction false} GapsMonotone(a: nat, b: nat)
    requires a <= b
    ensures Gaps(a) <= Gaps(b) <= Gaps(a) + (b - a)
    ensures a < b && !Printable(a) ==> Gaps(a) < Gaps(b)
  {
    if a < b {
      GapsMonotone(a, b - 1);
    }
  }

  /** The code point of a byte. */
  function Code(b: Byte): (c: nat)
    ensures 33 <= c < 512
  {
    if Printable(b) then b
    else
      GapsMonotone(0, b);
      256 + Gaps(b)
  }

  lemma {:induction false} GapsByRange(b: nat)
    requires b <= 256
    ensures Gaps(b) ==
      if b <= 33 then b else if b <= 127 then 33 else if b <= 161 then b - 94 else if b <= 173 then 67 else 68
  {
    if b > 0 {
      GapsByRange(b - 1);
    }
  }

  /** The table by ranges: printable bytes are their own characters, and the 68
      others follow from 256 on in their order. */
  lemma CodeByRange(b: Byte)
    ensures Code(b) as int ==
      if b <= 32 then b + 256
      else if b <= 126 then b
      else if b <= 160 then b + 162
      else if b == 173 then 323
      else b
  {
    GapsByRange(b);
  }

  lemma CodeInjective(a: Byte, b: Byte)
    ensures Code(a) == Code(b) <==> a == b
  {
    if a < b {
      GapsMonotone(a, b);
    } else if b < a {
      GapsMonotone(b, a);
    }
  }

  function CharOf(b: Byte): char {
    Code(b) as char
  }

  /** The inverse of the table; -1 for a character no byte has. */
  ghost function ByteOf(c: char): int {
    if exists b: Byte :: CharOf(b) == c then
      var b: Byte :| CharOf(b) == c;
      b
    else -1
  }

  lemma ByteOfInverse(b: Byte)
    ensures ByteOf(CharOf(b)) == b
  {
    var found: Byte :| CharOf(found) == CharOf(b) && ByteOf(CharOf(b)) == found;
    CodeInjective(found, b);
  }

  /** The bytes that stand for themselves. */
  method PrintableBytes() returns (printable: seq<Byte>)
    ensures forall b: Byte :: b in printable <==> Printable(b)
    ensures forall k :: 0 <= k < |printable| ==> Printable(printable[k])
  {
    printable := [];
    for i := 33 to 127
      invariant |printable| == i - 33
      invariant forall k :: 0 <= k < |printable| ==> printable[k] == 33 + k
    {
      printable := printable + [i];
    }
    for i := 161 to 173
      invariant |printable| == 94 + i - 161
      invariant forall k :: 0 <= k < |printable| ==> printable[k] == if k < 94 then 33 + k else 161 + (k - 94)
    {
      printable := printable + [i];
    }
    for i := 174 to 256
      invariant |printable| == 106 + i - 174
      invariant forall k :: 0 <= k < |printable| ==>
        printable[k] == if k < 94 then 33 + k else if k < 106 then 161 + (k - 94) else 174 + (k - 106)
    {
      printable := printable + [i];
    }
    assert forall b: Byte :: b in printable <==> Printable(b) by {
      forall b: Byte ensures b in printable <==> Printable(b) {
        if Printable(b) {
          assert printable[if b <= 126 then b - 33 else if b <= 172 then b - 161 + 94 else b - 174 + 106] == b;
        }
      }
    }
  }

  /** The printable bytes first, each to itself, then the others, in order, to
      the characters from 256 on. */
  method Codes() returns (allBytes: seq<Byte>, mappedChars: seq<nat>)
    ensures |mappedChars| == |allBytes|
    ensures forall k :: 0 <= k < |allBytes| ==> mappedChars[k] == Code(allBytes[k])
    ensures forall b: Byte :: b in allBytes
  {
    var printable := PrintableBytes();
    allBytes, mappedChars := [], [];
    for i := 0 to |printable|
      invariant allBytes == printable[..i]
      invariant |mappedChars| == i
      invariant forall k :: 0 <= k < i ==> mappedChars[k] == allBytes[k] == printable[k]
    {
      allBytes := allBytes + [printable[i]];
      mappedChars := mappedChars + [printable[i]];
    }
    assert allBytes == printable;
    var n := 0;
    for b := 0 to 256
      invariant n == Gaps(b)
      invariant |mappedChars| == |allBytes|
      invariant forall k :: 0 <= k < |allBytes| ==> mappedChars[k] == Code(allBytes[k])
      invariant forall a: Byte :: (Printable(a) || a < b) ==> a in allBytes
    {
      if b !in printable {
        allBytes := allBytes + [b];
        mappedChars := mappedChars + [256 + n];
        n := n + 1;
      }
    }
  }

  /** Fills the table as the encoder does. */
  method BuildTable() returns (table: array<char>)
    ensures fresh(table) && table.Length == 256
    ensures forall b: Byte :: table[b] == CharOf(b)
  {
    var allBytes, mappedChars := Codes();
    table := new char[256](_ => ' ');
    for i := 0 to |allBytes|
      invariant forall b: Byte :: b in allBytes[..i] ==> table[b] == CharOf(b)
    {
      assert mappedChars[i] == Code(allBytes[i]);
      table[allBytes[i]] := mappedChars[i] as char;
    }
    assert allBytes[..|allBytes|] == allBytes;
  }

  // ---------------------------------------------------------------- texts

  function Encode(text: seq<Byte>): (s: string)
    ensures |s| == |text|
    ensures forall i :: 0 <= i < |text| ==> s[i] == CharOf(text[i])
  {
    if text == [] then "" else Encode(text[..|text| - 1]) + [CharOf(text[|text| - 1])]
  }

  method EncodeText(table: array<char>, text: seq<Byte>) returns (s: string)
    requires table.Length == 256 && forall b: Byte :: table[b] == CharOf(b)
    ensures s == Encode(text)
  {
    s := "";
    for i := 0 to |text|
      invariant s == Encode(text[..i])
    {
      assert text[..i + 1][..i] == text[..i];
      s := s + [table[text[i]]];
    }
    assert text[..|text|] == text;
  }

  ghost function Decode(s: string): seq<int> {
    if s == "" then [] else Decode(s[..|s| - 1]) + [ByteOf(s[|s| - 1])]
  }

  lemma DecodeSnoc(s: string, c: char)
    ensures Decode(s + [c]) == Decode(s) + [ByteOf(c)]
  {
    assert (s + [c])[..|s|] == s;
  }

  /** Every byte string survives the alphabet. */
  lemma {:induction false} EncodeDecode(text: seq<Byte>)
    ensures Decode(Encode(text)) == text
  {
    if text != [] {
      var init, last := text[..|text| - 1], text[|text| - 1];
      EncodeDecode(init);
      DecodeSnoc(Encode(init), CharOf(last));
      ByteOfInverse(last);
      assert text == init + [last];
    }
  }
}
