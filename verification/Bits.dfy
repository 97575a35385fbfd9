/** Unsigned machine integers as their bits, lowest first. The checksum is all
    shifts and exclusive-ors, so its register is kept in this form; everything
    else in the model uses plain integers. */
module Bits {
  type Byte = x: int | 0 <= x < 256
  type Uint16 = x: int | 0 <= x < 0x1_0000
  type Uint32 = x: int | 0 <= x < 0x1_0000_0000

  type Bit = bool

  function Pow2(n: nat): (p: nat)
    ensures p > 0
  {
    if n == 0 then 1 else 2 * Pow2(n - 1)
  }

  /** The n lowest bits of v. */
  function BitsOf(v: nat, n: nat): (bits: seq<Bit>)
    ensures |bits| == n
    decreases n
  {
    if n == 0 then [] else [v % 2 == 1] + BitsOf(v / 2, n - 1)
  }

  function ValueOf(bits: seq<Bit>): nat
    decreases |bits|
  {
    if |bits| == 0 then 0 else (if bits[0] then 1 else 0) + 2 * ValueOf(bits[1..])
  }

  lemma {:induction false} ValueBound(bits: seq<Bit>)
    ensures ValueOf(bits) < Pow2(|bits|)
    decreases |bits|
  {
    if |bits| > 0 {
      ValueBound(bits[1..]);
    }
  }

  lemma {:induction false} BitsOfValue(bits: seq<Bit>)
    ensures BitsOf(ValueOf(bits), |bits|) == bits
    decreases |bits|
  {
    if |bits| > 0 {
      BitsOfValue(bits[1..]);
      assert ValueOf(bits) / 2 == ValueOf(bits[1..]);
      assert bits == [bits[0]] + bits[1..];
    }
  }

  lemma {:induction false} ValueOfBits(v: nat, n: nat)
    requires v < Pow2(n)
    ensures ValueOf(BitsOf(v, n)) == v
    decreases n
  {
    if n > 0 {
      ValueOfBits(v / 2, n - 1);
      assert BitsOf(v, n)[1..] == BitsOf(v / 2, n - 1);
    }
  }

  lemma {:induction false} BitsOfInjective(v: nat, w: nat, n: nat)
    requires v < Pow2(n) && w < Pow2(n) && BitsOf(v, n) == BitsOf(w, n)
    ensures v == w
  {
    ValueOfBits(v, n);
    ValueOfBits(w, n);
  }

  /** Bit i is the parity of what is left after i halvings. */
  lemma {:induction false} BitAt(v: nat, n: nat, i: nat)
    requires i < n
    ensures BitsOf(v, n)[i] == (v / Pow2(i) % 2 == 1)
    decreases n
  {
    if i > 0 {
      BitAt(v / 2, n - 1, i - 1);
      HalvesTwice(v, Pow2(i - 1));
    }
  }

  lemma HalvesTwice(v: nat, p: nat)
    requires p > 0
    ensures v / 2 / p == v / (2 * p)
  {
    var q, r := v / (2 * p), v % (2 * p);
    assert v == 2 * (q * p) + r && v / 2 == q * p + r / 2;
    Quotient(v / 2, q, p, r / 2);
  }

  lemma Quotient(v: nat, q: nat, p: nat, r: nat)
    requires v == q * p + r && r < p
    ensures v / p == q
  {
    var g := v / p;
    assert v == g * p + v % p;
    if g < q {
      Apart(g, q, p);
    } else if q < g {
      Apart(q, g, p);
    }
  }

  lemma Apart(a: nat, b: nat, p: nat)
    requires a < b
    ensures b * p >= a * p + p
  {
    assert b * p == a * p + p + (b - a - 1) * p;
  }
}
