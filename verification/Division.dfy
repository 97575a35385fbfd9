/** The checksum as the standard defines it: the remainder of a long division of bit
    strings by the generator polynomial, first bit highest. */
module Division {
  import opened Bits
  import opened Crc32

  // ---- Long division ----------------------------------------------------------

  /** x^32 + x^26 + x^23 + x^22 + x^16 + x^12 + x^11 + x^10 + x^8 + x^7 + x^5 + x^4 + x^2
      + x + 1. */
  predicate InGenerator(exponent: int) {
    || exponent == 32 || exponent == 26 || exponent == 23 || exponent == 22 || exponent == 16 || exponent == 12
    || exponent == 11 || exponent == 10 || exponent == 8 || exponent == 7 || exponent == 5 || exponent == 4
    || exponent == 2 || exponent == 1 || exponent == 0
  }

  /** The dividend with the generator subtracted under its first 33 bits. */
  function Subtract(bits: seq<Bit>): (rest: seq<Bit>)
    requires |bits| > 32
    ensures |rest| == |bits|
  {
    seq(|bits|, i requires 0 <= i < |bits| => bits[i] != InGenerator(32 - i))
  }

  function Remainder(bits: seq<Bit>): (rest: seq<Bit>)
    requires |bits| >= 32
    ensures |rest| == 32
    decreases |bits|
  {
    if |bits| == 32 then bits
    else if bits[0] then Remainder(Subtract(bits)[1..])
    else Remainder(bits[1..])
  }

  /** Bit by bit. */
  function Plus(a: seq<Bit>, b: seq<Bit>): (c: seq<Bit>)
    requires |a| == |b|
    ensures |c| == |a|
  {
    seq(|a|, i requires 0 <= i < |a| => a[i] != b[i])
  }

  lemma {:induction false} RemainderPlus(a: seq<Bit>, b: seq<Bit>)
    requires |a| == |b| >= 32
    ensures Remainder(Plus(a, b)) == Plus(Remainder(a), Remainder(b))
    decreases |a|
  {
    if |a| > 32 {
      var a', b' := if a[0] then Subtract(a)[1..] else a[1..], if b[0] then Subtract(b)[1..] else b[1..];
      RemainderPlus(a', b');
      var c := Plus(a, b);
      var c' := if c[0] then Subtract(c)[1..] else c[1..];
      assert c' == Plus(a', b');
    }
  }

  lemma {:induction false} RemainderShort(n: nat, r: seq<Bit>)
    requires |r| == 32
    ensures Remainder(Zeros(n) + r) == r
    decreases n
  {
    if n == 0 {
      assert Zeros(0) + r == r;
    } else {
      RemainderShort(n - 1, r);
      assert (Zeros(n) + r)[1..] == Zeros(n - 1) + r;
    }
  }

  /** A bit string with its remainder behind it is divisible. */
  lemma CodeDivides(bits: seq<Bit>)
    ensures Remainder(bits + Remainder(bits + Zeros(32))) == Zeros(32)
  {
    var r := Remainder(bits + Zeros(32));
    assert bits + r == Plus(bits + Zeros(32), Zeros(|bits|) + r);
    RemainderPlus(bits + Zeros(32), Zeros(|bits|) + r);
    RemainderShort(|bits|, r);
    assert Plus(r, r) == Zeros(32);
  }

  // ---- The register -----------------------------------------------------------

  lemma Doubles(p: nat, v: nat)
    ensures 2 * p * v == 2 * (p * v)
  {}

  lemma {:induction false} ValueAppend(x: seq<Bit>, y: seq<Bit>)
    ensures ValueOf(x + y) == ValueOf(x) + Pow2(|x|) * ValueOf(y)
    decreases |x|
  {
    if |x| == 0 {
      assert x + y == y;
    } else {
      assert (x + y)[1..] == x[1..] + y;
      ValueAppend(x[1..], y);
      Doubles(Pow2(|x| - 1), ValueOf(y));
    }
  }

  /** Four bytes, lowest first. */
  function FourBytes(a: Byte, b: Byte, c: Byte, d: Byte): Word {
    BitsOf(a, 8) + BitsOf(b, 8) + BitsOf(c, 8) + BitsOf(d, 8)
  }

  lemma FourBytesValue(a: Byte, b: Byte, c: Byte, d: Byte)
    ensures ValueOf(FourBytes(a, b, c, d)) == a + 0x100 * b + 0x1_0000 * c + 0x100_0000 * d
  {
    assert Pow2(8) == 0x100;
    ValueOfBits(a, 8);
    ValueOfBits(b, 8);
    ValueOfBits(c, 8);
    ValueOfBits(d, 8);
    ValueAppend(BitsOf(a, 8) + BitsOf(b, 8) + BitsOf(c, 8), BitsOf(d, 8));
    ValueAppend(BitsOf(a, 8) + BitsOf(b, 8), BitsOf(c, 8));
    ValueAppend(BitsOf(a, 8), BitsOf(b, 8));
    assert Pow2(12) == 0x1000 && Pow2(16) == 0x1_0000 && Pow2(20) == 0x10_0000 && Pow2(24) == 0x100_0000;
  }

  /** The bits of a byte. */
  datatype Octet = Octet(b0: Bit, b1: Bit, b2: Bit, b3: Bit, b4: Bit, b5: Bit, b6: Bit, b7: Bit)

  function OctetOf(v: Byte): Octet {
    Octet(v % 2 == 1, v / 2 % 2 == 1, v / 4 % 2 == 1, v / 8 % 2 == 1,
          v / 16 % 2 == 1, v / 32 % 2 == 1, v / 64 % 2 == 1, v / 128 % 2 == 1)
  }

  /** A hexadecimal digit, highest bit first. */
  datatype Digit = Digit(b3: Bit, b2: Bit, b1: Bit, b0: Bit)

  const H0: Digit := Digit(false, false, false, false)
  const H1: Digit := Digit(false, false, false, true)
  const H2: Digit := Digit(false, false, true, false)
  const H3: Digit := Digit(false, false, true, true)
  const H4: Digit := Digit(false, true, false, false)
  const H5: Digit := Digit(false, true, false, true)
  const H6: Digit := Digit(false, true, true, false)
  const H7: Digit := Digit(false, true, true, true)
  const H8: Digit := Digit(true, false, false, false)
  const H9: Digit := Digit(true, false, false, true)
  const HA: Digit := Digit(true, false, true, false)
  const HB: Digit := Digit(true, false, true, true)
  const HC: Digit := Digit(true, true, false, false)
  const HD: Digit := Digit(true, true, false, true)
  const HE: Digit := Digit(true, true, true, false)
  const HF: Digit := Digit(true, true, true, true)

  function Oct(high: Digit, low: Digit): Octet {
    Octet(low.b0, low.b1, low.b2, low.b3, high.b0, high.b1, high.b2, high.b3)
  }

  predicate Eight(c: seq<Bit>, k: nat, o: Octet)
    requires k + 8 <= |c|
  {
    && c[k] == o.b0 && c[k + 1] == o.b1 && c[k + 2] == o.b2 && c[k + 3] == o.b3
    && c[k + 4] == o.b4 && c[k + 5] == o.b5 && c[k + 6] == o.b6 && c[k + 7] == o.b7
  }

  lemma ByteIs(v: Byte)
    ensures Eight(BitsOf(v, 8), 0, OctetOf(v))
  {
    BitAt(v, 8, 0);
    BitAt(v, 8, 1);
    BitAt(v, 8, 2);
    BitAt(v, 8, 3);
    BitAt(v, 8, 4);
    BitAt(v, 8, 5);
    BitAt(v, 8, 6);
    BitAt(v, 8, 7);
    assert Pow2(3) == 8 && Pow2(6) == 64;
  }

  lemma EightAt(c: seq<Bit>, k: nat, v: Byte)
    requires k + 8 <= |c| && c[k..k + 8] == BitsOf(v, 8)
    ensures Eight(c, k, OctetOf(v))
  {
    ByteIs(v);
    assert Eight(c[k..k + 8], 0, OctetOf(v));
  }

  lemma PolyDigits()
    ensures OctetOf(0x20) == Oct(H2, H0) && OctetOf(0x83) == Oct(H8, H3)
    ensures OctetOf(0xB8) == Oct(HB, H8) && OctetOf(0xED) == Oct(HE, HD)
  {}

  lemma PolyOctets()
    ensures Eight(POLY, 0, Oct(H2, H0)) && Eight(POLY, 8, Oct(H8, H3))
    ensures Eight(POLY, 16, Oct(HB, H8)) && Eight(POLY, 24, Oct(HE, HD))
  {
    PolyDigits();
    EightAt(POLY, 0, POLY_BYTES[0]);
    EightAt(POLY, 8, POLY_BYTES[1]);
    EightAt(POLY, 16, POLY_BYTES[2]);
    EightAt(POLY, 24, POLY_BYTES[3]);
  }

  function At(o: Octet, i: nat): Bit {
    if i < 4 then (if i == 0 then o.b0 else if i == 1 then o.b1 else if i == 2 then o.b2 else o.b3)
    else if i == 4 then o.b4 else if i == 5 then o.b5 else if i == 6 then o.b6 else o.b7
  }

  lemma EightIs(c: seq<Bit>, k: nat, o: Octet, i: nat)
    requires k + 8 <= |c| && Eight(c, k, o) && i < 8
    ensures c[k + i] == At(o, i)
  {}

  lemma LowTerms(i: nat)
    requires i < 8
    ensures At(Oct(H2, H0), i) == InGenerator(31 - i) && At(Oct(H8, H3), i) == InGenerator(23 - i)
  {}

  lemma HighTerms(i: nat)
    requires i < 8
    ensures At(Oct(HB, H8), i) == InGenerator(15 - i) && At(Oct(HE, HD), i) == InGenerator(7 - i)
  {}

  lemma PolyBits(i: nat, p: seq<Bit>)
    requires i < 8 && |p| == 32
    requires Eight(p, 0, Oct(H2, H0)) && Eight(p, 8, Oct(H8, H3)) && Eight(p, 16, Oct(HB, H8)) && Eight(p, 24, Oct(HE, HD))
    ensures p[i] == InGenerator(31 - i) && p[8 + i] == InGenerator(23 - i)
    ensures p[16 + i] == InGenerator(15 - i) && p[24 + i] == InGenerator(7 - i)
  {
    EightIs(p, 0, Oct(H2, H0), i);
    EightIs(p, 8, Oct(H8, H3), i);
    EightIs(p, 16, Oct(HB, H8), i);
    EightIs(p, 24, Oct(HE, HD), i);
    LowTerms(i);
    HighTerms(i);
  }

  /** The constant of the source. */
  lemma PolyValue()
    ensures ValueOf(POLY) == 0xEDB8_8320
  {
    assert POLY == FourBytes(POLY_BYTES[0], POLY_BYTES[1], POLY_BYTES[2], POLY_BYTES[3]);
    FourBytesValue(POLY_BYTES[0], POLY_BYTES[1], POLY_BYTES[2], POLY_BYTES[3]);
  }

  /** It is the generator without its highest term, reflected. */
  lemma PolyIs(i: nat)
    requires i < 32
    ensures POLY[i] == InGenerator(31 - i)
  {
    var p := POLY;
    PolyOctets();
    PolyBits(if i < 8 then i else if i < 16 then i - 8 else if i < 24 then i - 16 else i - 24, p);
  }

  /** The bits as a dividend: 32 zeros behind them, the register on top. */
  function Dividend(c: Word, bits: seq<Bit>): (d: seq<Bit>)
    ensures |d| == |bits| + 32
  {
    Plus(bits + Zeros(32), c + Zeros(|bits|))
  }

  /** One step of the division of d. */
  function Reduced(d: seq<Bit>): (rest: seq<Bit>)
    requires |d| > 32
    ensures |rest| == |d| - 1
  {
    if d[0] then Subtract(d)[1..] else d[1..]
  }

  lemma ReducedAt(d: seq<Bit>, i: nat)
    requires i + 1 < |d| && |d| > 32
    ensures Reduced(d)[i] == (d[i + 1] != (d[0] && InGenerator(31 - i)))
  {}

  lemma DividendAt(c: Word, bits: seq<Bit>, i: nat)
    requires i < |bits| + 32
    ensures Dividend(c, bits)[i] == ((i < |bits| && bits[i]) != (i < 32 && c[i]))
  {}

  lemma PolyTerm(i: nat)
    ensures InGenerator(31 - i) <==> i < 32 && POLY[i]
  {
    if i < 32 {
      PolyIs(i);
    }
  }

  /** Clocking a bit in is one step of the division. */
  lemma ClockedAt(c: Word, bits: seq<Bit>, x: Word, i: nat)
    requires |bits| > 0 && i < |bits| + 31 && x == Xor(c, Widen([bits[0]]))
    ensures Dividend(BitStep(x), bits[1..])[i] == Reduced(Dividend(c, bits))[i]
  {
    var d := Dividend(c, bits);
    DividendAt(BitStep(x), bits[1..], i);
    DividendAt(c, bits, i + 1);
    DividendAt(c, bits, 0);
    ReducedAt(d, i);
    PolyTerm(i);
    assert x[0] == d[0];
    if i < 32 {
      StepAt(x, i);
      assert i + 1 < 32 ==> x[i + 1] == c[i + 1];
    }
  }

  /** Clocking a bit string through the register is dividing it. */
  lemma {:induction false} RegisterIsRemainder(c: Word, bits: seq<Bit>)
    ensures Run(c, bits) == Remainder(Dividend(c, bits))
    decreases |bits|
  {
    var d := Dividend(c, bits);
    if |bits| == 0 {
      assert d == c;
    } else {
      var x := Xor(c, Widen([bits[0]]));
      RegisterIsRemainder(BitStep(x), bits[1..]);
      forall i | 0 <= i < |bits| + 31
        ensures Dividend(BitStep(x), bits[1..])[i] == Reduced(d)[i]
      {
        ClockedAt(c, bits, x, i);
      }
      assert Dividend(BitStep(x), bits[1..]) == Reduced(d);
    }
  }

  /** The checksum: all ones on top of the message, divided, and inverted. */
  lemma CrcIsRemainder(data: seq<Byte>)
    ensures var d := Dividend(ONES, MessageBits(data));
            Crc(data) == ValueOf(Not(Remainder(d)))
  {
    FeedIsRun(ONES, data);
    RegisterIsRemainder(ONES, MessageBits(data));
  }
}
