/** The IPC frame codec: a fixed 29-byte header, three length-prefixed strings
    and a payload. */
module FrameCodec {
  import opened Bytes

  const MAGIC0: Byte := 0x58
  const MAGIC1: Byte := 0x4D
  const CURRENT_VERSION: Byte := 1
  const HEADER_SIZE := 29
  const MAX_FIELD := 65535
  const TWO32 := 0x1_0000_0000
  const TWO63 := 0x8000_0000_0000_0000
  const TWO64 := 0x1_0000_0000_0000_0000

  type Uint64 = n: int | 0 <= n < TWO64
  type Int64 = n: int | -TWO63 <= n < TWO63

  /** Strings are byte strings; the payload length is the payload's. */
  datatype Frame = Frame(
    version: Byte,
    typ: seq<Byte>,
    requestId: seq<Byte>,
    sessionId: seq<Byte>,
    sequence: Uint64,
    deadlineMs: Int64,
    payload: seq<Byte>)

  datatype Error = EndOfStream | InvalidMagic | UnsupportedVersion | PayloadTooLarge

  datatype ReadResult = Ok(frame: Frame, rest: seq<Byte>) | Err(error: Error, rest: seq<Byte>)

  predicate Writable(f: Frame) {
    |f.typ| <= MAX_FIELD && |f.requestId| <= MAX_FIELD && |f.sessionId| <= MAX_FIELD
  }

  function Version(f: Frame): Byte {
    if f.version == 0 then CURRENT_VERSION else f.version
  }

  function Normal(f: Frame): Frame {
    f.(version := Version(f))
  }

  /** The two's complement image of a signed number, and back. */
  function Unsigned(d: Int64): Uint64 {
    if d < 0 then d + TWO64 else d
  }

  function Signed(u: Uint64): Int64 {
    if u >= TWO63 then u - TWO64 else u
  }

  // ---------------------------------------------------------------- encoding

  function Header(f: Frame): (h: seq<Byte>)
    ensures |h| == HEADER_SIZE
  {
    [MAGIC0, MAGIC1, Version(f)]
    + BigEndian(|f.typ|, 2) + BigEndian(|f.requestId|, 2) + BigEndian(|f.sessionId|, 2)
    + BigEndian(f.sequence, 8) + BigEndian(Unsigned(f.deadlineMs), 8) + BigEndian(|f.payload|, 4)
  }

  function Encode(f: Frame): seq<Byte> {
    Header(f) + (f.typ + (f.requestId + (f.sessionId + f.payload)))
  }

  /** A writer of bytes that takes `room` more and then fails; a write that
      does not fit is taken in part. */
  class Sink {
    var data: seq<Byte>
    var room: nat

    constructor (room: nat)
      ensures data == [] && this.room == room
    {
      data, this.room := [], room;
    }

    method Write(bytes: seq<Byte>) returns (ok: bool)
      modifies this
      ensures ok <==> |bytes| <= old(room)
      ensures data == old(data) + Fitting(bytes, old(room))
      ensures room == old(room) - |Fitting(bytes, old(room))|
    {
      ok := |bytes| <= room;
      var part := if ok then bytes else bytes[..room];
      data, room := data + part, room - |part|;
    }
  }

  /** As much of the bytes as there is room for. */
  function Fitting(bytes: seq<Byte>, room: nat): (part: seq<Byte>)
    ensures part <= bytes && |part| == if |bytes| <= room then |bytes| else room
  {
    if |bytes| <= room then bytes else bytes[..room]
  }

  lemma FittingTwice(a: seq<Byte>, b: seq<Byte>, room: nat)
    ensures |a| <= room ==> Fitting(a + b, room) == a + Fitting(b, room - |a|)
    ensures |a| > room ==> Fitting(a + b, room) == Fitting(a, room)
  {
  }

  /** Writes a number after a known prefix of the buffer. */
  method PutNumber(buf: array<Byte>, at: nat, v: nat, width: nat, ghost prefix: seq<Byte>)
    requires at + width <= buf.Length && buf[..at] == prefix
    modifies buf
    ensures buf[..at + width] == prefix + BigEndian(v, width)
  {
    var left := v;
    var i := width;
    ghost var done: seq<Byte> := [];
    while i > 0
      invariant 0 <= i <= width
      invariant |done| == width - i
      invariant BigEndian(v, width) == BigEndian(left, i) + done
      invariant buf[..at] == prefix && buf[at + i..at + width] == done
    {
      i := i - 1;
      buf[at + i] := left % 256;
      done := [left % 256] + done;
      left := left / 256;
      assert buf[at + i..at + width] == done;
    }
    assert buf[..at + width] == buf[..at] + buf[at..at + width];
  }

  method CopyInto(buf: array<Byte>, at: nat, src: seq<Byte>, ghost prefix: seq<Byte>)
    requires at + |src| <= buf.Length && buf[..at] == prefix
    modifies buf
    ensures buf[..at + |src|] == prefix + src
  {
    for i := 0 to |src|
      invariant buf[..at + i] == prefix + src[..i]
    {
      buf[at + i] := src[i];
      assert buf[..at + i + 1] == buf[..at + i] + [src[i]];
    }
  }

  method PutHeader(buf: array<Byte>, f: Frame)
    requires buf.Length >= HEADER_SIZE
    modifies buf
    ensures buf[..HEADER_SIZE] == Header(f)
  {
    var version := f.version;
    if version == 0 {
      version := CURRENT_VERSION;
    }
    buf[0], buf[1], buf[2] := MAGIC0, MAGIC1, version;
    ghost var p0 := [MAGIC0, MAGIC1, version];
    PutNumber(buf, 3, |f.typ|, 2, p0);
    ghost var p1 := p0 + BigEndian(|f.typ|, 2);
    PutNumber(buf, 5, |f.requestId|, 2, p1);
    ghost var p2 := p1 + BigEndian(|f.requestId|, 2);
    PutNumber(buf, 7, |f.sessionId|, 2, p2);
    ghost var p3 := p2 + BigEndian(|f.sessionId|, 2);
    PutNumber(buf, 9, f.sequence, 8, p3);
    ghost var p4 := p3 + BigEndian(f.sequence, 8);
    PutNumber(buf, 17, Unsigned(f.deadlineMs), 8, p4);
    ghost var p5 := p4 + BigEndian(Unsigned(f.deadlineMs), 8);
    PutNumber(buf, 25, |f.payload|, 4, p5);
  }

  lemma EncodeAssociates(f: Frame)
    ensures Encode(f) == Header(f) + f.typ + f.requestId + f.sessionId + f.payload
  {
  }

  /** Everything but the payload, in one buffer. */
  method PutFrame(f: Frame) returns (buf: array<Byte>)
    ensures fresh(buf)
    ensures buf[..] == Header(f) + f.typ + f.requestId + f.sessionId
  {
    buf := new Byte[HEADER_SIZE + |f.typ| + |f.requestId| + |f.sessionId|];
    PutHeader(buf, f);
    var offset := HEADER_SIZE;
    CopyInto(buf, offset, f.typ, Header(f));
    offset := offset + |f.typ|;
    CopyInto(buf, offset, f.requestId, Header(f) + f.typ);
    offset := offset + |f.requestId|;
    CopyInto(buf, offset, f.sessionId, Header(f) + f.typ + f.requestId);
    assert buf[..] == buf[..offset + |f.sessionId|];
  }

  /** A frame with a field too long writes nothing; any other puts as much of its
      encoding into the sink as there is room for, and succeeds exactly when that
      is all of it. */
  method WriteFrame(w: Sink, f: Frame) returns (ok: bool)
    modifies w
    ensures ok <==> Writable(f) && |Encode(f)| <= old(w.room)
    ensures w.data == if Writable(f) then old(w.data) + Fitting(Encode(f), old(w.room)) else old(w.data)
    ensures Writable(f) ==> w.room == old(w.room) - |Fitting(Encode(f), old(w.room))|
  {
    if |f.typ| > MAX_FIELD || |f.requestId| > MAX_FIELD || |f.sessionId| > MAX_FIELD {
      return false;
    }
    var buf := PutFrame(f);
    EncodeAssociates(f);
    ok := WriteBoth(w, buf[..], f.payload);
  }

  /** The second part is written only if the first one was, and if there is
      one. */
  method WriteBoth(w: Sink, a: seq<Byte>, b: seq<Byte>) returns (ok: bool)
    modifies w
    ensures ok <==> |a + b| <= old(w.room)
    ensures w.data == old(w.data) + Fitting(a + b, old(w.room))
    ensures w.room == old(w.room) - |Fitting(a + b, old(w.room))|
  {
    FittingTwice(a, b, w.room);
    ok := w.Write(a);
    if ok && |b| > 0 {
      ok := w.Write(b);
    }
  }

  // ---------------------------------------------------------------- decoding

  function Field(h: seq<Byte>, from: nat, to: nat): nat
    requires from <= to <= |h|
  {
    Number(h[from..to])
  }

  /** What is left after reading `n` bytes; a short read takes everything. */
  function Skip(input: seq<Byte>, n: nat): seq<Byte> {
    if n <= |input| then input[n..] else []
  }

  predicate GoodMagic(h: seq<Byte>)
    requires |h| >= HEADER_SIZE
  {
    h[0] == MAGIC0 && h[1] == MAGIC1
  }

  function Decode(input: seq<Byte>, maxPayload: nat): ReadResult {
    if |input| < HEADER_SIZE then Err(EndOfStream, [])
    else
      var h := input[..HEADER_SIZE];
      var body := input[HEADER_SIZE..];
      if !GoodMagic(h) then Err(InvalidMagic, body)
      else if h[2] != CURRENT_VERSION then Err(UnsupportedVersion, body)
      else
        DecodeBody(Parse(h), body, maxPayload)
  }

  /** The numbers of a header. */
  datatype Numbers = Numbers(
    version: Byte, typ: nat, requestId: nat, sessionId: nat, sequence: Uint64, deadlineMs: Int64, payload: nat)

  function Parse(h: seq<Byte>): Numbers
    requires |h| == HEADER_SIZE
  {
    NumberBounds(h);
    Numbers(h[2], Field(h, 3, 5), Field(h, 5, 7), Field(h, 7, 9), Field(h, 9, 17), Signed(Field(h, 17, 25)),
            Field(h, 25, 29))
  }

  function DecodeBody(n: Numbers, body: seq<Byte>, maxPayload: nat): ReadResult {
    var t, r, s, p := n.typ, n.requestId, n.sessionId, n.payload;
    if maxPayload > 0 && p > maxPayload then Err(PayloadTooLarge, body)
    else if |body| < t + r + s + p then Err(EndOfStream, [])
    else
      Ok(Frame(n.version, body[..t], body[t..t + r], body[t + r..t + r + s], n.sequence, n.deadlineMs,
               body[t + r + s..t + r + s + p]),
         body[t + r + s + p..])
  }

  lemma NumberBounds(h: seq<Byte>)
    requires |h| == HEADER_SIZE
    ensures Field(h, 3, 5) <= MAX_FIELD && Field(h, 5, 7) <= MAX_FIELD && Field(h, 7, 9) <= MAX_FIELD
    ensures Field(h, 9, 17) < TWO64 && Field(h, 17, 25) < TWO64 && Field(h, 25, 29) < TWO32
  {
    PowerValues();
    BigEndianOfNumber(h[3..5]);
    BigEndianOfNumber(h[5..7]);
    BigEndianOfNumber(h[7..9]);
    BigEndianOfNumber(h[9..17]);
    BigEndianOfNumber(h[17..25]);
    BigEndianOfNumber(h[25..29]);
  }

  lemma PowerValues()
    ensures Power(2) == MAX_FIELD + 1 && Power(4) == TWO32 && Power(8) == TWO64
  {
    assert Power(1) == 256 && Power(3) == 256 * Power(2) && Power(5) == 256 * Power(4);
    assert Power(6) == 256 * Power(5) && Power(7) == 256 * Power(6);
  }

  /** The unread part of a byte stream. */
  class Source {
    var pending: seq<Byte>

    constructor (bytes: seq<Byte>)
      ensures pending == bytes
    {
      pending := bytes;
    }

    method ReadFull(n: nat) returns (ok: bool, bytes: seq<Byte>)
      modifies this
      ensures ok <==> n <= |old(pending)|
      ensures ok ==> bytes == old(pending)[..n]
      ensures pending == Skip(old(pending), n)
    {
      ok := n <= |pending|;
      bytes := if ok then pending[..n] else pending;
      pending := if ok then pending[n..] else [];
    }
  }

  /** Nothing is read for an empty part. */
  method ReadPart(r: Source, n: nat) returns (ok: bool, bytes: seq<Byte>)
    modifies r
    ensures ok <==> n <= |old(r.pending)|
    ensures ok ==> bytes == old(r.pending)[..n]
    ensures r.pending == Skip(old(r.pending), n)
  {
    if n == 0 {
      return true, [];
    }
    ok, bytes := r.ReadFull(n);
  }

  /** The three strings lie one after the other in the metadata. */
  lemma BodyParts(n: Numbers, body: seq<Byte>, maxPayload: nat)
    requires n.typ + n.requestId + n.sessionId + n.payload <= |body| && !(maxPayload > 0 && n.payload > maxPayload)
    ensures var t, r, s := n.typ, n.requestId, n.sessionId;
      var meta, rest := body[..t + r + s], body[t + r + s..];
      DecodeBody(n, body, maxPayload) ==
        Ok(Frame(n.version, meta[..t], meta[t..t + r], meta[t + r..t + r + s], n.sequence, n.deadlineMs, rest[..n.payload]),
           rest[n.payload..])
  {
    var t, r, s := n.typ, n.requestId, n.sessionId;
    var meta, rest := body[..t + r + s], body[t + r + s..];
    assert meta[..t] == body[..t] && meta[t..t + r] == body[t..t + r] && meta[t + r..t + r + s] == body[t + r..t + r + s];
    assert rest[..n.payload] == body[t + r + s..t + r + s + n.payload];
    assert rest[n.payload..] == body[t + r + s + n.payload..];
  }

  method ReadFrame(r: Source, maxPayload: nat) returns (result: ReadResult)
    modifies r
    ensures result == Decode(old(r.pending), maxPayload)
    ensures r.pending == result.rest
  {
    var ok, h := r.ReadFull(HEADER_SIZE);
    if !ok {
      return Err(EndOfStream, []);
    }
    if h[0] != MAGIC0 || h[1] != MAGIC1 {
      return Err(InvalidMagic, r.pending);
    }
    if h[2] != CURRENT_VERSION {
      return Err(UnsupportedVersion, r.pending);
    }
    result := ReadBody(r, Parse(h), maxPayload);
  }

  method ReadBody(r: Source, n: Numbers, maxPayload: nat) returns (result: ReadResult)
    modifies r
    ensures result == DecodeBody(n, old(r.pending), maxPayload)
    ensures r.pending == result.rest
  {
    if maxPayload > 0 && n.payload > maxPayload {
      return Err(PayloadTooLarge, r.pending);
    }
    ghost var body := r.pending;
    var ok, meta := ReadPart(r, n.typ + n.requestId + n.sessionId);
    if !ok {
      return Err(EndOfStream, []);
    }
    var offset := 0;
    var typ := meta[offset..offset + n.typ];
    offset := offset + n.typ;
    var requestId := meta[offset..offset + n.requestId];
    offset := offset + n.requestId;
    var sessionId := meta[offset..offset + n.sessionId];
    var payload;
    ok, payload := ReadPart(r, n.payload);
    if !ok {
      return Err(EndOfStream, []);
    }
    BodyParts(n, body, maxPayload);
    result := Ok(Frame(n.version, typ, requestId, sessionId, n.sequence, n.deadlineMs, payload), r.pending);
  }

  // ---------------------------------------------------------------- the two are inverse

  lemma LastPart(before: seq<Byte>, part: seq<Byte>)
    ensures (before + part)[..|before|] == before
    ensures (before + part)[|before|..] == part
  {
  }

  /** Where each number of a header lies. */
  lemma HeaderSlices(f: Frame)
    ensures var h := Header(f);
      && h[..3] == [MAGIC0, MAGIC1, Version(f)]
      && h[3..5] == BigEndian(|f.typ|, 2) && h[5..7] == BigEndian(|f.requestId|, 2)
      && h[7..9] == BigEndian(|f.sessionId|, 2) && h[9..17] == BigEndian(f.sequence, 8)
      && h[17..25] == BigEndian(Unsigned(f.deadlineMs), 8) && h[25..29] == BigEndian(|f.payload|, 4)
  {
    var h := Header(f);
    var h3 := [MAGIC0, MAGIC1, Version(f)];
    var h5 := h3 + BigEndian(|f.typ|, 2);
    var h7 := h5 + BigEndian(|f.requestId|, 2);
    var h9 := h7 + BigEndian(|f.sessionId|, 2);
    var h17 := h9 + BigEndian(f.sequence, 8);
    var h25 := h17 + BigEndian(Unsigned(f.deadlineMs), 8);
    LastPart(h25, BigEndian(|f.payload|, 4));
    assert h[..25] == h25 && h[25..] == h[25..29];
    LastPart(h17, BigEndian(Unsigned(f.deadlineMs), 8));
    assert h[..17] == h25[..17] == h17 && h[17..25] == h25[17..];
    LastPart(h9, BigEndian(f.sequence, 8));
    assert h[..9] == h17[..9] == h9 && h[9..17] == h17[9..];
    LastPart(h7, BigEndian(|f.sessionId|, 2));
    assert h[..7] == h9[..7] == h7 && h[7..9] == h9[7..];
    LastPart(h5, BigEndian(|f.requestId|, 2));
    assert h[..5] == h7[..5] == h5 && h[5..7] == h7[5..];
    LastPart(h3, BigEndian(|f.typ|, 2));
    assert h[..3] == h5[..3] == h3 && h[3..5] == h5[3..];
  }

  lemma HeaderFields(f: Frame, h: seq<Byte>)
    requires Writable(f) && h == Header(f)
    ensures GoodMagic(h)
    ensures Parse(h) == NumbersOf(f)
  {
    PowerValues();
    HeaderSlices(f);
    FieldIs(h, 3, 5, |f.typ|, 2);
    FieldIs(h, 5, 7, |f.requestId|, 2);
    FieldIs(h, 7, 9, |f.sessionId|, 2);
    FieldIs(h, 9, 17, f.sequence, 8);
    FieldIs(h, 17, 25, Unsigned(f.deadlineMs), 8);
    BigEndianTruncates(|f.payload|, 4);
    FieldIs(h, 25, 29, |f.payload| % TWO32, 4);
    assert h[..3] == [h[0], h[1], h[2]];
  }

  lemma FieldIs(h: seq<Byte>, from: nat, to: nat, v: nat, width: nat)
    requires from <= to <= |h| && v < Power(width) && h[from..to] == BigEndian(v, width)
    ensures Field(h, from, to) == v
  {
    NumberOfBigEndian(v, width);
  }

  /** What a header says of its frame: the payload's length modulo 2^32. */
  function NumbersOf(f: Frame): Numbers {
    Numbers(Version(f), |f.typ|, |f.requestId|, |f.sessionId|, f.sequence, f.deadlineMs, |f.payload| % TWO32)
  }

  // ---------------------------------------------------------------- the bytes on the wire

  ghost function Two(b: seq<Byte>, at: nat): nat
    requires at + 2 <= |b|
  {
    256 * (b[at] as int) + b[at + 1] as int
  }

  ghost function Four(b: seq<Byte>, at: nat): nat
    requires at + 4 <= |b|
  {
    0x100_0000 * (b[at] as int) + 0x1_0000 * (b[at + 1] as int) + 256 * (b[at + 2] as int) + b[at + 3] as int
  }

  ghost function Eight(b: seq<Byte>, at: nat): nat
    requires at + 8 <= |b|
  {
    0x1_0000_0000 * Four(b, at) + Four(b, at + 4)
  }

  lemma HeaderNumbers(h: seq<Byte>)
    requires |h| == HEADER_SIZE
    ensures Field(h, 3, 5) == Two(h, 3) && Field(h, 5, 7) == Two(h, 5) && Field(h, 7, 9) == Two(h, 7)
    ensures Field(h, 9, 17) == Eight(h, 9) && Field(h, 17, 25) == Eight(h, 17) && Field(h, 25, 29) == Four(h, 25)
  {
    NumberOfTwo(h[3..5]);
    NumberOfTwo(h[5..7]);
    NumberOfTwo(h[7..9]);
    EightIs(h, 9);
    EightIs(h, 17);
    NumberOfFour(h[25..29]);
  }

  lemma EightIs(h: seq<Byte>, at: nat)
    requires at + 8 <= |h|
    ensures Field(h, at, at + 8) == Eight(h, at)
  {
    var s := h[at..at + 8];
    NumberOfEight(s);
    NumberOfFour(s[..4]);
    NumberOfFour(s[4..]);
  }

  /** Where everything is: the two magic bytes, the version (one for zero), the
      lengths in two bytes each, sequence and deadline in eight, the deadline in
      two's complement, the payload's length in four, and then the parts. */
  lemma WireLayout(f: Frame)
    requires Writable(f)
    ensures var w := Encode(f);
      && |w| == 29 + |f.typ| + |f.requestId| + |f.sessionId| + |f.payload|
      && w[0] == 0x58 && w[1] == 0x4D && w[2] == (if f.version == 0 then 1 else f.version)
      && Two(w, 3) == |f.typ| && Two(w, 5) == |f.requestId| && Two(w, 7) == |f.sessionId|
      && Eight(w, 9) == f.sequence
      && Eight(w, 17) == (if f.deadlineMs >= 0 then f.deadlineMs else f.deadlineMs + 0x1_0000_0000_0000_0000)
      && Four(w, 25) == |f.payload| % 0x1_0000_0000
      && w[29..] == f.typ + f.requestId + f.sessionId + f.payload
  {
    var h := Header(f);
    HeaderBytes(f);
    EncodeAssociates(f);
    PrefixNumbers(h, f.typ + (f.requestId + (f.sessionId + f.payload)));
  }

  lemma HeaderBytes(f: Frame)
    requires Writable(f)
    ensures var h := Header(f);
      && h[0] == 0x58 && h[1] == 0x4D && h[2] == (if f.version == 0 then 1 else f.version)
      && Two(h, 3) == |f.typ| && Two(h, 5) == |f.requestId| && Two(h, 7) == |f.sessionId|
      && Eight(h, 9) == f.sequence
      && Eight(h, 17) == (if f.deadlineMs >= 0 then f.deadlineMs else f.deadlineMs + 0x1_0000_0000_0000_0000)
      && Four(h, 25) == |f.payload| % 0x1_0000_0000
  {
    var h := Header(f);
    HeaderFields(f, h);
    HeaderNumbers(h);
    HeaderSlices(f);
    assert h[..3] == [h[0], h[1], h[2]];
    PowerValues();
    FieldIs(h, 17, 25, Unsigned(f.deadlineMs), 8);
  }

  lemma PrefixNumbers(h: seq<Byte>, rest: seq<Byte>)
    requires |h| == HEADER_SIZE
    ensures var w := h + rest;
      && w[0] == h[0] && w[1] == h[1] && w[2] == h[2]
      && Two(w, 3) == Two(h, 3) && Two(w, 5) == Two(h, 5) && Two(w, 7) == Two(h, 7)
      && Eight(w, 9) == Eight(h, 9) && Eight(w, 17) == Eight(h, 17) && Four(w, 25) == Four(h, 25)
  {
  }

  /** Which error the reader gives, by the bytes. */
  lemma ErrorsByBytes(b: seq<Byte>, maxPayload: nat)
    ensures var r := Decode(b, maxPayload);
      && (r.Err? && r.error == InvalidMagic <==> |b| >= 29 && (b[0] != 0x58 || b[1] != 0x4D))
      && (r.Err? && r.error == UnsupportedVersion <==> |b| >= 29 && b[0] == 0x58 && b[1] == 0x4D && b[2] != 1)
      && (r.Err? && r.error == PayloadTooLarge <==>
            |b| >= 29 && b[0] == 0x58 && b[1] == 0x4D && b[2] == 1 && maxPayload > 0 && Four(b, 25) > maxPayload)
      && (r.Ok? <==>
            && |b| >= 29 && b[0] == 0x58 && b[1] == 0x4D && b[2] == 1 && (maxPayload > 0 ==> Four(b, 25) <= maxPayload)
            && |b| >= 29 + Two(b, 3) + Two(b, 5) + Two(b, 7) + Four(b, 25))
  {
    if |b| >= HEADER_SIZE {
      var h := b[..HEADER_SIZE];
      HeaderNumbers(h);
    }
  }

  /** What is left unread: nothing after a short read, all behind the header after
      an error in it, and all behind the frame after a success. */
  lemma RestByBytes(b: seq<Byte>, maxPayload: nat)
    ensures var r := Decode(b, maxPayload);
      && (r.Err? && r.error == EndOfStream ==> r.rest == [])
      && (r.Err? && r.error != EndOfStream ==> |b| >= 29 && r.rest == b[29..])
      && (r.Ok? ==>
            && |b| >= 29 + Two(b, 3) + Two(b, 5) + Two(b, 7) + Four(b, 25)
            && r.rest == b[29 + Two(b, 3) + Two(b, 5) + Two(b, 7) + Four(b, 25)..])
  {
    ErrorsByBytes(b, maxPayload);
    if |b| >= HEADER_SIZE {
      HeaderNumbers(b[..HEADER_SIZE]);
    }
  }

  /** A read takes what it asks for, or everything. */
  lemma SkipLeaves(input: seq<Byte>, n: nat)
    ensures |Skip(input, n)| == if n <= |input| then |input| - n else 0
    ensures n <= |input| ==> input[..n] + Skip(input, n) == input
  {
  }

  /** A frame the reader can give back: a version it accepts, a payload whose
      length fits 32 bits and the reader's limit. */
  predicate Readable(f: Frame, maxPayload: nat) {
    && f.version in {0, CURRENT_VERSION}
    && |f.payload| < TWO32
    && (maxPayload > 0 ==> |f.payload| <= maxPayload)
  }

  lemma Parts(a: seq<Byte>, b: seq<Byte>, c: seq<Byte>, d: seq<Byte>, e: seq<Byte>)
    ensures var body := a + (b + (c + (d + e)));
      var t, r, s, p := |a|, |b|, |c|, |d|;
      && |body| == t + r + s + p + |e|
      && body[..t] == a && body[t..t + r] == b && body[t + r..t + r + s] == c
      && body[t + r + s..t + r + s + p] == d && body[t + r + s + p..] == e
  {
    var x := c + (d + e);
    var y := b + x;
    var body := a + y;
    var t, r, s := |a|, |b|, |c|;
    assert body[t..] == y && y[r..] == x && x[s..] == d + e;
    assert body[t..t + r] == y[..r] == b;
    assert body[t + r..] == x;
    assert body[t + r..t + r + s] == x[..s] == c;
    assert body[t + r + s..] == d + e;
  }

  /** Reading a written frame gives it back, with its version normalised, and
      leaves exactly what followed it, if and only if the frame is readable. */
  lemma RoundTripIff(f: Frame, tail: seq<Byte>, maxPayload: nat)
    requires Writable(f)
    ensures Decode(Encode(f) + tail, maxPayload) == Ok(Normal(f), tail) <==> Readable(f, maxPayload)
  {
    var input := Encode(f) + tail;
    var h := Header(f);
    var body := f.typ + (f.requestId + (f.sessionId + (f.payload + tail)));
    assert input[..HEADER_SIZE] == h && input[HEADER_SIZE..] == body;
    HeaderFields(f, h);
    BodyRoundTrip(f, tail, maxPayload);
  }

  lemma BodyRoundTrip(f: Frame, tail: seq<Byte>, maxPayload: nat)
    ensures var body := f.typ + (f.requestId + (f.sessionId + (f.payload + tail)));
      DecodeBody(NumbersOf(f), body, maxPayload) == Ok(Normal(f), tail) <==>
        |f.payload| < TWO32 && (maxPayload > 0 ==> |f.payload| <= maxPayload)
  {
    Parts(f.typ, f.requestId, f.sessionId, f.payload, tail);
  }

  /** Whatever the reader accepts is the encoding of what it returns: the bytes
      consumed are exactly those the writer would produce. */
  lemma ReadBack(input: seq<Byte>, maxPayload: nat)
    requires Decode(input, maxPayload).Ok?
    ensures var Ok(f, rest) := Decode(input, maxPayload);
      && Writable(f) && Readable(f, maxPayload) && Normal(f) == f
      && Encode(f) + rest == input
  {
    var h := input[..HEADER_SIZE];
    var body := input[HEADER_SIZE..];
    NumberBounds(h);
    BodyReadBack(Parse(h), body, maxPayload);
    var Ok(f, rest) := Decode(input, maxPayload);
    HeaderRebuilt(f, h);
    Regroup(Header(f), f.typ, f.requestId, f.sessionId, f.payload, rest);
    assert h + body == input;
  }

  lemma Regroup(a: seq<Byte>, b: seq<Byte>, c: seq<Byte>, d: seq<Byte>, e: seq<Byte>, tail: seq<Byte>)
    ensures a + (b + (c + (d + e))) + tail == a + (b + (c + (d + (e + tail))))
  {
  }

  lemma BodyReadBack(n: Numbers, body: seq<Byte>, maxPayload: nat)
    requires DecodeBody(n, body, maxPayload).Ok?
    ensures var Ok(f, rest) := DecodeBody(n, body, maxPayload);
      && n == Numbers(f.version, |f.typ|, |f.requestId|, |f.sessionId|, f.sequence, f.deadlineMs, |f.payload|)
      && (maxPayload > 0 ==> |f.payload| <= maxPayload)
      && f.typ + (f.requestId + (f.sessionId + (f.payload + rest))) == body
  {
    Rejoined(body, n.typ, n.requestId, n.sessionId, n.payload);
  }

  lemma Rejoined(body: seq<Byte>, t: nat, r: nat, s: nat, p: nat)
    requires t + r + s + p <= |body|
    ensures body[..t] + (body[t..t + r] + (body[t + r..t + r + s] + (body[t + r + s..t + r + s + p] + body[t + r + s + p..]))) == body
  {
  }

  lemma HeaderRebuilt(f: Frame, h: seq<Byte>)
    requires |h| == HEADER_SIZE && GoodMagic(h) && h[2] == Version(f) == f.version
    requires Parse(h) == Numbers(f.version, |f.typ|, |f.requestId|, |f.sessionId|, f.sequence, f.deadlineMs, |f.payload|)
    ensures Header(f) == h
  {
    BigEndianOfNumber(h[3..5]);
    BigEndianOfNumber(h[5..7]);
    BigEndianOfNumber(h[7..9]);
    BigEndianOfNumber(h[9..17]);
    BigEndianOfNumber(h[17..25]);
    BigEndianOfNumber(h[25..29]);
    assert h == [h[0], h[1], h[2]] + h[3..5] + h[5..7] + h[7..9] + h[9..17] + h[17..25] + h[25..29];
  }

  /** No encoding is a proper prefix of another, and none is shared. */
  lemma EncodingsPrefixFree(f: Frame, g: Frame, x: seq<Byte>, y: seq<Byte>)
    requires Writable(f) && Writable(g) && Readable(f, 0) && Readable(g, 0)
    requires Encode(f) + x == Encode(g) + y
    ensures Normal(f) == Normal(g) && x == y
  {
    RoundTripIff(f, x, 0);
    RoundTripIff(g, y, 0);
  }

  // ---------------------------------------------------------------- streams

  function EncodeAll(frames: seq<Frame>): seq<Byte> {
    if frames == [] then [] else Encode(frames[0]) + EncodeAll(frames[1..])
  }

  function NormalAll(frames: seq<Frame>): seq<Frame> {
    if frames == [] then [] else [Normal(frames[0])] + NormalAll(frames[1..])
  }

  datatype StreamResult = Frames(frames: seq<Frame>, rest: seq<Byte>) | Broken

  function DecodeMany(input: seq<Byte>, n: nat, maxPayload: nat): StreamResult {
    if n == 0 then Frames([], input)
    else match Decode(input, maxPayload)
      case Err(_, _) => Broken
      case Ok(f, rest) =>
        match DecodeMany(rest, n - 1, maxPayload)
        case Broken => Broken
        case Frames(fs, tail) => Frames([f] + fs, tail)
  }

  /** Concatenated encodings followed by anything read back frame by frame and
      leave exactly what followed. */
  lemma {:induction false} StreamRoundTrip(frames: seq<Frame>, tail: seq<Byte>, maxPayload: nat)
    requires forall f :: f in frames ==> Writable(f) && Readable(f, maxPayload)
    ensures DecodeMany(EncodeAll(frames) + tail, |frames|, maxPayload) == Frames(NormalAll(frames), tail)
  {
    if frames == [] {
      assert EncodeAll(frames) + tail == tail;
    } else {
      var rest := EncodeAll(frames[1..]) + tail;
      assert EncodeAll(frames) + tail == Encode(frames[0]) + rest;
      RoundTripIff(frames[0], rest, maxPayload);
      StreamRoundTrip(frames[1..], tail, maxPayload);
    }
  }

  lemma EncodeAllCons(f: Frame, fs: seq<Frame>, tail: seq<Byte>)
    ensures EncodeAll([f] + fs) + tail == Encode(f) + (EncodeAll(fs) + tail)
  {
    assert ([f] + fs)[1..] == fs;
  }

  /** Conversely, any frames the reader takes from a stream re-encode to the
      bytes it took. */
  lemma {:induction false} StreamReadBack(input: seq<Byte>, n: nat, maxPayload: nat)
    requires DecodeMany(input, n, maxPayload).Frames?
    ensures var Frames(fs, rest) := DecodeMany(input, n, maxPayload);
      |fs| == n && NormalAll(fs) == fs && EncodeAll(fs) + rest == input
  {
    if n > 0 {
      ReadBack(input, maxPayload);
      var Ok(f, rest) := Decode(input, maxPayload);
      StreamReadBack(rest, n - 1, maxPayload);
      var Frames(fs, tail) := DecodeMany(rest, n - 1, maxPayload);
      EncodeAllCons(f, fs, tail);
      assert NormalAll([f] + fs) == [Normal(f)] + NormalAll(fs) by { assert ([f] + fs)[1..] == fs; }
    }
  }
}
