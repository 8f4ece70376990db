/**
 * The table-driven CRC-32 of src/records/FakerEngine.ts against the bit-serial one of RFC 2083 section 3.4: the
 * register starts and ends complemented, and takes each byte's bits lowest first.
 */
module Crc {
  import opened BitWords

  type Bytes = seq<Byte>

  /** The coefficients of the polynomial of RFC 2083, highest power first. */
  const POLYNOMIAL: Word := BitsOf(0xedb88320, 32)
  const ONES: Word := BitsOf(0xffffffff, 32)

  // ---------------------------------------------------------------- the bit-serial reference

  /** One data bit: shift, and add the polynomial when the bit differs from the one that falls out. */
  function Feed(reg: Word, bit: bool): Word {
    if reg[0] != bit then Xor(Shr(reg, 1), POLYNOMIAL) else Shr(reg, 1)
  }

  function FeedBits(reg: Word, bits: Bits): Word
    decreases |bits|
  {
    if bits == [] then reg else FeedBits(Feed(reg, bits[0]), bits[1..])
  }

  function FeedAll(reg: Word, data: Bytes): Word
    decreases |data|
  {
    if data == [] then reg else FeedAll(FeedBits(reg, data[0]), data[1..])
  }

  function Checksum(data: Bytes): Word {
    Xor(FeedAll(ONES, data), ONES)
  }

  // ---------------------------------------------------------------- the table

  /** One turn of the loop that fills the table. */
  function Turn(c: Word): Word {
    if c[0] then Xor(POLYNOMIAL, Shr(c, 1)) else Shr(c, 1)
  }

  function Turns(c: Word, n: nat): Word
    decreases n
  {
    if n == 0 then c else Turns(Turn(c), n - 1)
  }

  function Entry(i: Byte): Word {
    Turns(Widen(i), 8)
  }

  /** Bits above the lowest pass through a turn and are only shifted. */
  lemma TurnPassesHigh(c: Word, h: Word)
    requires !h[0]
    ensures Turn(Xor(c, h)) == Xor(Turn(c), Shr(h, 1))
  {
  }

  lemma {:induction false} TurnsPassHigh(c: Word, h: Word, n: nat)
    requires n <= 32 && forall i :: 0 <= i < n ==> !h[i]
    ensures Turns(Xor(c, h), n) == Xor(Turns(c, n), Shr(h, n))
    decreases n
  {
    if n == 0 {
      assert Shr(h, 0) == h;
    } else {
      TurnPassesHigh(c, h);
      TurnsPassHigh(Turn(c), Shr(h, 1), n - 1);
      assert Shr(Shr(h, 1), n - 1) == Shr(h, n);
    }
  }

  /** Eight turns of a word: the table entry of its low byte, and the word shifted by eight. */
  lemma EightTurnsLookUp(x: Word)
    ensures Turns(x, 8) == Xor(Shr(x, 8), Entry(x[..8]))
  {
    var low: Word, high: Word := Widen(x[..8]), Zeros(8) + x[8..];
    assert x == Xor(low, high);
    TurnsPassHigh(low, high, 8);
    assert Shr(high, 8) == Shr(x, 8);
    assert Xor(Turns(low, 8), Shr(x, 8)) == Xor(Shr(x, 8), Turns(low, 8));
  }

  /** Mixing data in first and turning is feeding its lowest bit and mixing in the rest. */
  lemma TurnFeeds(reg: Word, bits: Bits)
    requires 0 < |bits| <= 32
    ensures Turn(Xor(reg, Widen(bits))) == Xor(Feed(reg, bits[0]), Widen(bits[1..]))
  {
    var x := Xor(reg, Widen(bits));
    assert x[0] == (reg[0] != bits[0]);
    assert Shr(x, 1) == Xor(Shr(reg, 1), Widen(bits[1..]));
    assert Xor(POLYNOMIAL, Shr(x, 1)) == Xor(Xor(Shr(reg, 1), POLYNOMIAL), Widen(bits[1..]));
  }

  lemma {:induction false} TurnsFeed(reg: Word, bits: Bits)
    requires |bits| <= 32
    ensures Turns(Xor(reg, Widen(bits)), |bits|) == FeedBits(reg, bits)
    decreases |bits|
  {
    if bits == [] {
      assert Xor(reg, Widen(bits)) == reg;
    } else {
      TurnFeeds(reg, bits);
      TurnsFeed(Feed(reg, bits[0]), bits[1..]);
    }
  }

  /** The update of the inner loop is eight steps of the reference. */
  lemma LookupFeedsByte(reg: Word, b: Byte)
    ensures Xor(Shr(reg, 8), Entry(Xor(reg, Widen(b))[..8])) == FeedBits(reg, b)
  {
    var x := Xor(reg, Widen(b));
    EightTurnsLookUp(x);
    TurnsFeed(reg, b);
    assert Shr(x, 8) == Shr(reg, 8);
  }

  /** crc32 with the table that it keeps on itself once it has filled it. */
  class Crc32 {
    var table: array?<Word>

    ghost predicate Valid()
      reads this, table
    {
      table != null ==> table.Length == 256 && forall i :: 0 <= i < 256 ==> table[i] == Entry(BitsOf(i, 8))
    }

    constructor ()
      ensures Valid()
    {
      table := null;
    }

    method TurnTimes(c0: Word, n: nat) returns (c: Word)
      ensures c == Turns(c0, n)
    {
      c := c0;
      for k := 0 to n
        invariant Turns(c, n - k) == Turns(c0, n)
      {
        c := if c[0] then Xor(POLYNOMIAL, Shr(c, 1)) else Shr(c, 1);
      }
    }

    method FillTable() returns (entries: array<Word>)
      ensures fresh(entries) && entries.Length == 256
      ensures forall i :: 0 <= i < 256 ==> entries[i] == Entry(BitsOf(i, 8))
    {
      entries := new Word[256](_ => BitsOf(0, 32));
      for i := 0 to 256
        invariant forall j :: 0 <= j < i ==> entries[j] == Entry(BitsOf(j, 8))
      {
        Pow2Of8();
        WiderBits(i, 8, 24);
        var c := TurnTimes(BitsOf(i, 32), 8);
        entries[i] := c;
      }
    }

    /** The checksum as the unsigned number that `>>> 0` makes of it. */
    method Compute(buf: Bytes) returns (r: nat)
      requires Valid()
      modifies this
      ensures Valid() && r == Value(Checksum(buf))
    {
      if table == null {
        table := FillTable();
      }
      var crc := ONES;
      var i := 0;
      while i < |buf|
        invariant 0 <= i <= |buf| && Valid() && table != null
        invariant FeedAll(crc, buf[i..]) == FeedAll(ONES, buf)
      {
        LookupFeedsByte(crc, buf[i]);
        var low: Byte := Xor(crc, Widen(buf[i]))[..8];
        Pow2Of8();
        ValueBounded(low);
        BitsOfValue(low);
        crc := Xor(Shr(crc, 8), table[Value(low)]);
        assert buf[i..][0] == buf[i] && buf[i..][1..] == buf[i + 1..];
        i := i + 1;
      }
      assert buf[i..] == [];
      return Value(Xor(crc, ONES));
    }
  }

  // ---------------------------------------------------------------- a damaged byte shows

  lemma XorCancels(a: Word, b: Word, c: Word)
    requires Xor(a, c) == Xor(b, c)
    ensures a == b
  {
    forall i | 0 <= i < 32 ensures a[i] == b[i] {
      assert Xor(a, c)[i] == Xor(b, c)[i];
    }
  }

  lemma TopTap()
    ensures POLYNOMIAL[31]
  {
    Pow2Of32();
    ValueOfBits(0xedb88320, 32);
    TopBit(POLYNOMIAL);
  }

  lemma TopBit(w: Word)
    requires Value(w) >= 0x8000_0000
    ensures w[31]
  {
    Pow2Of32();
    assert Pow2(32) == 2 * Pow2(31);
    assert w == w[..31] + [w[31]];
    ValueConcat(w[..31], [w[31]]);
    ValueBounded(w[..31]);
  }

  lemma ShrInjective(r: Word, s: Word)
    requires Shr(r, 1) == Shr(s, 1) && r[0] == s[0]
    ensures r == s
  {
    forall i | 1 <= i < 32 ensures r[i] == s[i] {
      assert Shr(r, 1)[i - 1] == Shr(s, 1)[i - 1];
    }
  }

  /** The polynomial's top bit tells the two branches of a step apart. */
  lemma FeedInjective(r: Word, s: Word, bit: bool)
    requires Feed(r, bit) == Feed(s, bit)
    ensures r == s
  {
    TopTap();
    assert Feed(r, bit)[31] == (r[0] != bit) && Feed(s, bit)[31] == (s[0] != bit);
    if r[0] != bit {
      XorCancels(Shr(r, 1), Shr(s, 1), POLYNOMIAL);
    }
    ShrInjective(r, s);
  }

  lemma {:induction false} FeedBitsInjective(r: Word, s: Word, bits: Bits)
    requires FeedBits(r, bits) == FeedBits(s, bits)
    ensures r == s
    decreases |bits|
  {
    if bits != [] {
      FeedBitsInjective(Feed(r, bits[0]), Feed(s, bits[0]), bits[1..]);
      FeedInjective(r, s, bits[0]);
    }
  }

  lemma {:induction false} FeedAllInjective(r: Word, s: Word, data: Bytes)
    requires FeedAll(r, data) == FeedAll(s, data)
    ensures r == s
    decreases |data|
  {
    if data != [] {
      FeedAllInjective(FeedBits(r, data[0]), FeedBits(s, data[0]), data[1..]);
      FeedBitsInjective(r, s, data[0]);
    }
  }

  lemma {:induction false} TurnsInjective(r: Word, s: Word, n: nat)
    requires Turns(r, n) == Turns(s, n)
    ensures r == s
    decreases n
  {
    if n > 0 {
      TurnsInjective(Turn(r), Turn(s), n - 1);
      assert Feed(r, false) == Turn(r) && Feed(s, false) == Turn(s);
      FeedInjective(r, s, false);
    }
  }

  lemma ByteMatters(reg: Word, b: Byte, c: Byte)
    requires FeedBits(reg, b) == FeedBits(reg, c)
    ensures b == c
  {
    TurnsFeed(reg, b);
    TurnsFeed(reg, c);
    TurnsInjective(Xor(reg, Widen(b)), Xor(reg, Widen(c)), 8);
    forall i | 0 <= i < 8 ensures b[i] == c[i] {
      assert Xor(reg, Widen(b))[i] == Xor(reg, Widen(c))[i];
    }
  }

  lemma {:induction false} FeedAllConcat(reg: Word, a: Bytes, b: Bytes)
    ensures FeedAll(reg, a + b) == FeedAll(FeedAll(reg, a), b)
    decreases |a|
  {
    if a == [] {
      assert a + b == b;
    } else {
      assert (a + b)[1..] == a[1..] + b;
      FeedAllConcat(FeedBits(reg, a[0]), a[1..], b);
    }
  }

  lemma SplitAt(reg: Word, data: Bytes, i: nat, b: Byte)
    requires i < |data|
    ensures FeedAll(reg, data[i := b]) == FeedAll(FeedBits(FeedAll(reg, data[..i]), b), data[i + 1..])
  {
    var tail := [b] + data[i + 1..];
    assert data[i := b] == data[..i] + tail && tail[1..] == data[i + 1..];
    FeedAllConcat(reg, data[..i], tail);
  }

  /** Changing any one byte of the data changes the checksum. */
  lemma OneDamagedByteShows(data: Bytes, i: nat, b: Byte)
    requires i < |data| && Checksum(data[i := b]) == Checksum(data)
    ensures b == data[i]
  {
    var reg, tail := FeedAll(ONES, data[..i]), data[i + 1..];
    XorCancels(FeedAll(ONES, data[i := b]), FeedAll(ONES, data), ONES);
    SplitAt(ONES, data, i, b);
    SplitAt(ONES, data, i, data[i]);
    assert data[i := data[i]] == data;
    FeedAllInjective(FeedBits(reg, b), FeedBits(reg, data[i]), tail);
    ByteMatters(reg, b, data[i]);
  }
}
