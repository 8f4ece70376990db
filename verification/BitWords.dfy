/** Machine words as their bits, lowest first. */
module BitWords {
  type Bits = seq<bool>
  type Byte = b: Bits | |b| == 8 witness BitsOf(0, 8)
  type Word = w: Bits | |w| == 32 witness BitsOf(0, 32)

  function Zeros(n: nat): Bits {
    seq(n, _ => false)
  }

  function Xor(a: Word, b: Word): Word {
    seq(32, i requires 0 <= i < 32 => a[i] != b[i])
  }

  /** `w >>> n` */
  function Shr(w: Word, n: nat): Word
    requires n <= 32
  {
    w[n..] + Zeros(n)
  }

  /** The bits as the lowest ones of a word. */
  function Widen(b: Bits): Word
    requires |b| <= 32
  {
    b + Zeros(32 - |b|)
  }

  function BitsOf(n: nat, width: nat): (b: Bits)
    ensures |b| == width
  {
    if width == 0 then [] else [n % 2 == 1] + BitsOf(n / 2, width - 1)
  }

  function Value(b: Bits): nat {
    if b == [] then 0 else (if b[0] then 1 else 0) + 2 * Value(b[1..])
  }

  function Pow2(n: nat): nat {
    if n == 0 then 1 else 2 * Pow2(n - 1)
  }

  lemma {:induction false} ValueBounded(b: Bits)
    ensures Value(b) < Pow2(|b|)
  {
    if b != [] {
      ValueBounded(b[1..]);
    }
  }

  lemma {:induction false} BitsOfValue(b: Bits)
    ensures BitsOf(Value(b), |b|) == b
  {
    if b != [] {
      BitsOfValue(b[1..]);
      assert b == [b[0]] + b[1..];
    }
  }

  lemma {:induction false} ValueOfBits(n: nat, width: nat)
    requires n < Pow2(width)
    ensures Value(BitsOf(n, width)) == n
  {
    if width > 0 {
      ValueOfBits(n / 2, width - 1);
      assert BitsOf(n, width)[1..] == BitsOf(n / 2, width - 1);
    }
  }

  lemma {:induction false} BitsOfZero(width: nat)
    ensures BitsOf(0, width) == Zeros(width)
  {
    if width > 0 {
      BitsOfZero(width - 1);
      assert Zeros(width) == [false] + Zeros(width - 1);
    }
  }

  /** More width than a number needs is zeros. */
  lemma {:induction false} WiderBits(n: nat, width: nat, more: nat)
    requires n < Pow2(width)
    ensures BitsOf(n, width + more) == BitsOf(n, width) + Zeros(more)
  {
    if width == 0 {
      BitsOfZero(more);
      assert [] + Zeros(more) == Zeros(more);
    } else {
      WiderBits(n / 2, width - 1, more);
      assert BitsOf(n, width) + Zeros(more) == [n % 2 == 1] + (BitsOf(n / 2, width - 1) + Zeros(more));
    }
  }

  lemma Pow2Of8()
    ensures Pow2(8) == 256
  {
  }

  lemma Pow2Of32()
    ensures Pow2(32) == 0x1_0000_0000
  {
    Pow2Doubles(8);
    Pow2Doubles(16);
  }

  lemma {:induction false} Pow2Adds(m: nat, n: nat)
    ensures Pow2(m + n) == Pow2(m) * Pow2(n)
  {
    if m > 0 {
      Pow2Adds(m - 1, n);
    }
  }

  lemma Pow2Doubles(n: nat)
    ensures Pow2(2 * n) == Pow2(n) * Pow2(n)
  {
    Pow2Adds(n, n);
  }

  lemma {:induction false} ValueConcat(a: Bits, b: Bits)
    ensures Value(a + b) == Value(a) + Pow2(|a|) * Value(b)
  {
    if a == [] {
      assert a + b == b;
    } else {
      assert (a + b)[1..] == a[1..] + b;
      ValueConcat(a[1..], b);
      DoubleProduct(Pow2(|a| - 1), Value(b));
      assert Value(a + b) == (if a[0] then 1 else 0) + 2 * Value(a[1..] + b);
    }
  }

  lemma DoubleProduct(p: nat, v: nat)
    ensures 2 * (p * v) == (2 * p) * v
  {
  }

  /** A word is its four bytes. */
  lemma WordValue(w: Word)
    ensures Value(w)
        == Value(w[..8]) + 0x100 * Value(w[8..16]) + 0x1_0000 * Value(w[16..24]) + 0x100_0000 * Value(w[24..])
  {
    Pow2Of8();
    assert w[16..] == w[16..24] + w[24..] && w[8..] == w[8..16] + w[16..] && w == w[..8] + w[8..];
    ValueConcat(w[16..24], w[24..]);
    ValueConcat(w[8..16], w[16..]);
    ValueConcat(w[..8], w[8..]);
  }

  /** The low byte of a number. */
  function ByteOf(n: nat): (b: Byte)
    ensures Value(b) == n % 256
  {
    Pow2Of8();
    ValueOfBits(n % 256, 8);
    BitsOf(n % 256, 8)
  }
}
