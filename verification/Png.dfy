/** PNG chunk framing (src/records/FakerEngine.ts), read back as RFC 2083 section 3.2 lays chunks out. */
module Png {
  import opened Strings
  import opened BitWords
  import opened Crc

  datatype Chunk = Chunk(kind: string, data: Bytes)

  const LIMIT: nat := 0x1_0000_0000

  // ---------------------------------------------------------------- writing

  /** The four bytes of a word, highest first. */
  function BigEndian(w: Word): Bytes {
    [w[24..], w[16..24], w[8..16], w[..8]]
  }

  /** `Buffer.from(type, 'ascii')` keeps the low byte of every character. */
  function KindBytes(kind: string): Bytes {
    seq(|kind|, i requires 0 <= i < |kind| => ByteOf(kind[i] as int))
  }

  function Framed(c: Chunk): Bytes {
    var body := KindBytes(c.kind) + c.data;
    BigEndian(BitsOf(|c.data|, 32)) + body + BigEndian(Checksum(body))
  }

  /** `Buffer.alloc(4)` and `writeUInt32BE`. */
  method UInt32Buffer(value: nat, ghost w: Word) returns (buf: array<Byte>)
    requires value == Value(w)
    ensures fresh(buf) && buf[..] == BigEndian(w)
  {
    buf := new Byte[4](_ => BitsOf(0, 8));
    BitsOfValue(w);
    var word: Word := BitsOf(value, 32);
    buf[0], buf[1], buf[2], buf[3] := word[24..], word[16..24], word[8..16], word[..8];
  }

  method LengthBuffer(n: nat) returns (buf: array<Byte>)
    requires n < LIMIT
    ensures fresh(buf) && buf[..] == BigEndian(BitsOf(n, 32))
  {
    Pow2Of32();
    ValueOfBits(n, 32);
    buf := UInt32Buffer(n, BitsOf(n, 32));
  }

  /** makePngChunk; a length that does not fit four bytes is a RangeError. */
  method MakePngChunk(crc: Crc32, kind: string, data: Bytes) returns (r: Option<Bytes>)
    requires crc.Valid()
    modifies crc
    ensures crc.Valid()
    ensures r == if |data| < LIMIT then Some(Framed(Chunk(kind, data))) else None
  {
    if |data| >= LIMIT {
      return None;
    }
    var len := LengthBuffer(|data|);
    var kindAndData := KindBytes(kind) + data;
    var sum := crc.Compute(kindAndData);
    var crcBuf := UInt32Buffer(sum, Checksum(kindAndData));
    return Some(len[..] + kindAndData + crcBuf[..]);
  }

  /** The length field is the number of data bytes in base 256, highest digit first. */
  lemma LengthDigits(c: Chunk)
    requires |c.data| < LIMIT
    ensures var b := Framed(c);
      |c.data| == 0x100_0000 * Value(b[0]) + 0x1_0000 * Value(b[1]) + 0x100 * Value(b[2]) + Value(b[3])
  {
    var w := BitsOf(|c.data|, 32);
    Pow2Of32();
    ValueOfBits(|c.data|, 32);
    WordValue(w);
    assert Framed(c)[..4] == BigEndian(w);
  }

  // ---------------------------------------------------------------- reading

  function ReadWord(b: Bytes): Word
    requires |b| == 4
  {
    var bytes: seq<Bits> := b;
    bytes[3] + bytes[2] + bytes[1] + bytes[0]
  }

  function ReadKind(b: Bytes): string {
    seq(|b|, i requires 0 <= i < |b| => ByteChar(b[i]))
  }

  function ByteChar(b: Byte): (c: char)
    ensures c as int == Value(b) < 256
  {
    ValueBounded(b);
    Pow2Of8();
    Value(b) as char
  }

  /** Length, type, data and a valid checksum off the front, and what is behind them. */
  function Take(b: Bytes): (r: Option<(Chunk, Bytes)>)
    ensures r.Some? ==> |r.value.1| < |b| && FitsFrame(r.value.0)
  {
    if |b| < 12 then None
    else
      var n := Value(ReadWord(b[..4]));
      if |b| < 12 + n || BigEndian(Checksum(b[4..8 + n])) != b[8 + n..12 + n] then None
      else Some((Chunk(ReadKind(b[4..8]), b[8..8 + n]), b[12 + n..]))
  }

  function Parse(b: Bytes): (r: Option<seq<Chunk>>)
    ensures r.Some? ==> AllFit(r.value)
    decreases |b|
  {
    if b == [] then Some([])
    else
      match Take(b)
      case None => None
      case Some(taken) =>
        var rest := Parse(taken.1);
        if rest.None? then None else Some([taken.0] + rest.value)
  }

  // ---------------------------------------------------------------- round trip

  /** What four bytes of type can carry: four characters of one byte each. */
  predicate FitsFrame(c: Chunk) {
    |c.kind| == 4 && forall i :: 0 <= i < 4 ==> c.kind[i] as int < 256
  }

  function FramedAll(chunks: seq<Chunk>): Bytes {
    if chunks == [] then [] else Framed(chunks[0]) + FramedAll(chunks[1..])
  }

  lemma WordReadsBack(w: Word)
    ensures ReadWord(BigEndian(w)) == w
  {
  }

  lemma CharReadsBack(c: char)
    requires c as int < 256
    ensures ByteChar(ByteOf(c as int)) == c
  {
  }

  lemma KindReadsBack(c: Chunk)
    requires FitsFrame(c)
    ensures ReadKind(KindBytes(c.kind)) == c.kind
  {
    forall i | 0 <= i < 4 ensures ByteChar(KindBytes(c.kind)[i]) == c.kind[i] {
      CharReadsBack(c.kind[i]);
    }
  }

  /** The parts of a framed chunk are where the reader looks for them. */
  lemma FrameParts(length: Bytes, kind: Bytes, data: Bytes, sum: Bytes, tail: Bytes)
    requires |length| == 4 && |kind| == 4 && |sum| == 4
    ensures var b, n := length + (kind + data) + sum + tail, |data|;
      && b[..4] == length && b[4..8] == kind && b[8..8 + n] == data && b[4..8 + n] == kind + data
      && b[8 + n..12 + n] == sum && b[12 + n..] == tail
  {
  }

  lemma TakeFramed(c: Chunk, tail: Bytes)
    requires FitsFrame(c) && |c.data| < LIMIT
    ensures Take(Framed(c) + tail) == Some((c, tail))
  {
    var n, kind := |c.data|, KindBytes(c.kind);
    FrameParts(BigEndian(BitsOf(n, 32)), kind, c.data, BigEndian(Checksum(kind + c.data)), tail);
    WordReadsBack(BitsOf(n, 32));
    Pow2Of32();
    ValueOfBits(n, 32);
    KindReadsBack(c);
  }

  predicate AllFit(chunks: seq<Chunk>) {
    forall i :: 0 <= i < |chunks| ==> FitsFrame(chunks[i])
  }

  lemma {:induction false} FramesReadBack(chunks: seq<Chunk>)
    requires AllFit(chunks) && forall i :: 0 <= i < |chunks| ==> |chunks[i].data| < LIMIT
    ensures Parse(FramedAll(chunks)) == Some(chunks)
    decreases |chunks|
  {
    if chunks != [] {
      TakeFramed(chunks[0], FramedAll(chunks[1..]));
      FramesReadBack(chunks[1..]);
      assert [chunks[0]] + chunks[1..] == chunks;
    }
  }

  /** A concatenation of chunks parses back into the same list exactly when every type is four one-byte characters. */
  lemma RoundTripIff(chunks: seq<Chunk>)
    requires forall i :: 0 <= i < |chunks| ==> |chunks[i].data| < LIMIT
    ensures Parse(FramedAll(chunks)) == Some(chunks) <==> AllFit(chunks)
  {
    if AllFit(chunks) {
      FramesReadBack(chunks);
    }
  }
}
