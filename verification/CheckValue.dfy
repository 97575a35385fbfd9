/** The published check value of the checksum, by stepping a register of four octets
    through the nine digits. */
module CheckValue {
  import opened Bits
  import opened Crc32
  import opened Division

  /** The register as four octets, lowest first. */
  datatype Register = Register(q0: Octet, q1: Octet, q2: Octet, q3: Octet)

  predicate Same(c: Word, r: Register) {
    Eight(c, 0, r.q0) && Eight(c, 8, r.q1) && Eight(c, 16, r.q2) && Eight(c, 24, r.q3)
  }

  function Hex(a: Octet, b: Octet, c: Octet, d: Octet): Register {
    Register(d, c, b, a)
  }

  /** An octet shifted by one, with a bit coming in at the top, and p fed back. */
  function Shifted(o: Octet, top: Bit, fed: Bit, p: Octet): Octet {
    Octet(o.b1 != (fed && p.b0), o.b2 != (fed && p.b1), o.b3 != (fed && p.b2), o.b4 != (fed && p.b3),
          o.b5 != (fed && p.b4), o.b6 != (fed && p.b5), o.b7 != (fed && p.b6), top != (fed && p.b7))
  }

  /** s is c shifted, with p fed back. */
  predicate Fed(c: Word, s: Word, p: Word) {
    forall i :: 0 <= i < 32 ==> s[i] == ((i + 1 < 32 && c[i + 1]) != (c[0] && p[i]))
  }

  lemma EightStep(c: Word, s: Word, p: Word, k: nat, o: Octet, top: Bit, q: Octet)
    requires k + 8 <= 32 && Fed(c, s, p) && Eight(c, k, o) && Eight(p, k, q) && top == (k + 8 < 32 && c[k + 8])
    ensures Eight(s, k, Shifted(o, top, c[0], q))
  {}

  /** The same on registers, for any feedback. */
  function ClockWith(r: Register, f: Register): Register {
    var fed := r.q0.b0;
    Register(Shifted(r.q0, r.q1.b0, fed, f.q0), Shifted(r.q1, r.q2.b0, fed, f.q1),
             Shifted(r.q2, r.q3.b0, fed, f.q2), Shifted(r.q3, false, fed, f.q3))
  }

  lemma SameWith(c: Word, s: Word, p: Word, r: Register, f: Register)
    requires Fed(c, s, p) && Same(c, r) && Same(p, f)
    ensures Same(s, ClockWith(r, f))
  {
    EightStep(c, s, p, 0, r.q0, r.q1.b0, f.q0);
    EightStep(c, s, p, 8, r.q1, r.q2.b0, f.q1);
    EightStep(c, s, p, 16, r.q2, r.q3.b0, f.q2);
    EightStep(c, s, p, 24, r.q3, false, f.q3);
  }

  lemma IsStep(c: Word)
    ensures Fed(c, BitStep(c), POLY)
  {
    forall i | 0 <= i < 32
      ensures BitStep(c)[i] == ((i + 1 < 32 && c[i + 1]) != (c[0] && POLY[i]))
    {
      StepAt(c, i);
    }
  }

  function Clock(r: Register): Register {
    ClockWith(r, Hex(Oct(HE, HD), Oct(HB, H8), Oct(H8, H3), Oct(H2, H0)))
  }

  lemma SameStep(c: Word, r: Register)
    requires Same(c, r)
    ensures Same(BitStep(c), Clock(r))
  {
    PolyOctets();
    IsStep(c);
    SameWith(c, BitStep(c), POLY, r, Hex(Oct(HE, HD), Oct(HB, H8), Oct(H8, H3), Oct(H2, H0)));
  }

  function FourClocks(r: Register): Register {
    Clock(Clock(Clock(Clock(r))))
  }

  lemma SameFour(c: Word, r: Register)
    requires Same(c, r)
    ensures Same(Steps(c, 4), FourClocks(r))
  {
    var c1, r1 := BitStep(c), Clock(r);
    var c2, r2 := BitStep(c1), Clock(r1);
    var c3, r3 := BitStep(c2), Clock(r2);
    SameStep(c, r);
    SameStep(c1, r1);
    SameStep(c2, r2);
    SameStep(c3, r3);
    assert Steps(c2, 2) == BitStep(c3);
  }

  lemma {:induction false} StepsAdd(c: Word, n: nat, m: nat)
    ensures Steps(c, n + m) == Steps(Steps(c, n), m)
    decreases n
  {
    if n > 0 {
      StepsAdd(BitStep(c), n - 1, m);
    }
  }

  function XorOctet(a: Octet, b: Octet): Octet {
    Octet(a.b0 != b.b0, a.b1 != b.b1, a.b2 != b.b2, a.b3 != b.b3, a.b4 != b.b4, a.b5 != b.b5, a.b6 != b.b6, a.b7 != b.b7)
  }

  function Folded(r: Register, o: Octet): Register {
    r.(q0 := XorOctet(r.q0, o))
  }

  lemma EightXor(x: Word, c: Word, w: Word, o: Octet, p: Octet)
    requires x == Xor(c, w) && Eight(c, 0, o) && Eight(w, 0, p)
    ensures Eight(x, 0, XorOctet(o, p))
  {}

  lemma EightKept(x: Word, c: Word, k: nat, o: Octet)
    requires k + 8 <= 32 && Eight(c, k, o) && forall i :: k <= i < k + 8 ==> x[i] == c[i]
    ensures Eight(x, k, o)
  {}

  lemma FoldsIn(x: Word, c: Word, w: Word, r: Register, o: Octet)
    requires x == Xor(c, w) && Same(c, r) && Eight(w, 0, o) && forall i :: 8 <= i < 32 ==> !w[i]
    ensures Same(x, Folded(r, o))
  {
    EightXor(x, c, w, r.q0, o);
    EightKept(x, c, 8, r.q1);
    EightKept(x, c, 16, r.q2);
    EightKept(x, c, 24, r.q3);
  }

  lemma SameFolded(c: Word, r: Register, d: Byte)
    requires Same(c, r)
    ensures Same(Xor(c, Widen(BitsOf(d, 8))), Folded(r, OctetOf(d)))
  {
    var w := Widen(BitsOf(d, 8));
    EightAt(w, 0, d);
    FoldsIn(Xor(c, w), c, w, r, OctetOf(d));
  }

  /** What one byte makes of the register, by way of four steps. */
  predicate Turn(r: Register, o: Octet, half: Register, next: Register) {
    half == FourClocks(Folded(r, o)) && next == FourClocks(half)
  }

  lemma SameByte(c: Word, r: Register, d: Byte, half: Register, next: Register)
    requires Same(c, r) && Turn(r, OctetOf(d), half, next)
    ensures Same(ByteStep(c, d), next)
  {
    var x := Xor(c, Widen(BitsOf(d, 8)));
    SameFolded(c, r, d);
    SameFour(x, Folded(r, OctetOf(d)));
    SameFour(Steps(x, 4), half);
    StepsAdd(x, 4, 4);
  }

  lemma EightBits(a: Word, b: Word, k: nat, o: Octet)
    requires k + 8 <= 32 && Eight(a, k, o) && Eight(b, k, o)
    ensures a[k..k + 8] == b[k..k + 8]
  {}

  lemma SameBits(a: Word, b: Word, r: Register)
    requires Same(a, r) && Same(b, r)
    ensures a == b
  {
    EightBits(a, b, 0, r.q0);
    EightBits(a, b, 8, r.q1);
    EightBits(a, b, 16, r.q2);
    EightBits(a, b, 24, r.q3);
    assert a == a[0..8] + a[8..16] + a[16..24] + a[24..32];
    assert b == b[0..8] + b[8..16] + b[16..24] + b[24..32];
  }

  /** The digits one to nine. */
  const DIGITS: seq<Byte> := [49, 50, 51, 52, 53, 54, 55, 56, 57]

  lemma DigitOctets()
    ensures OctetOf(49) == Oct(H3, H1) && OctetOf(50) == Oct(H3, H2) && OctetOf(51) == Oct(H3, H3)
    ensures OctetOf(52) == Oct(H3, H4) && OctetOf(53) == Oct(H3, H5) && OctetOf(54) == Oct(H3, H6)
    ensures OctetOf(55) == Oct(H3, H7) && OctetOf(56) == Oct(H3, H8) && OctetOf(57) == Oct(H3, H9)
  {}

  /** The register after k digits. */
  function After(k: nat): Register
    requires k <= 9
  {
    match k
    case 0 => Hex(Oct(HF, HF), Oct(HF, HF), Oct(HF, HF), Oct(HF, HF))
    case 1 => Hex(Oct(H7, HC), Oct(H2, H3), Oct(H1, H0), Oct(H4, H8))
    case 2 => Hex(Oct(HB, H0), Oct(HA, HC), Oct(HB, HB), Oct(H3, H2))
    case 3 => Hex(Oct(H7, H7), Oct(HB, H7), Oct(H9, HC), Oct(H2, HD))
    case 4 => Hex(Oct(H6, H4), Oct(H1, HC), Oct(H1, HF), Oct(H5, HC))
    case 5 => Hex(Oct(H3, H4), Oct(H0, HA), Oct(HC, H5), Oct(HE, H3))
    case 6 => Hex(Oct(HF, H6), Oct(H8, HD), Oct(H2, HC), Oct(H9, HE))
    case 7 => Hex(Oct(HA, HF), Oct(HF, HC), Oct(H9, H6), Oct(H6, H0))
    case 8 => Hex(Oct(H6, H5), Oct(H1, HF), Oct(H2, H5), Oct(H5, H0))
    case _ => Hex(Oct(H3, H4), Oct(H0, HB), Oct(HC, H6), Oct(HD, H9))
  }

  function Halfway(k: nat): Register
    requires k < 9
  {
    match k
    case 0 => Hex(Oct(HA, HF), Oct(HF, H5), Oct(H1, HD), Oct(H8, H4))
    case 1 => Hex(Oct(HD, H1), Oct(H1, H4), Oct(H9, H2), Oct(HE, HF))
    case 2 => Hex(Oct(H1, H6), Oct(HB, HD), Oct(HD, HB), Oct(HD, H4))
    case 3 => Hex(Oct(HF, H7), Oct(H7, H4), Oct(HE, HA), Oct(H8, H5))
    case 4 => Hex(Oct(HF, H6), Oct(H4, HE), Oct(H5, H2), Oct(HB, H2))
    case 5 => Hex(Oct(H6, H8), Oct(H2, HB), Oct(HF, HD), Oct(HA, H9))
    case 6 => Hex(Oct(HF, HF), Oct(H6, H7), Oct(H4, H1), Oct(H8, HE))
    case 7 => Hex(Oct(HE, H7), Oct(H4, H7), Oct(H4, HA), Oct(H4, H5))
    case _ => Hex(Oct(HF, H6), Oct(H5, HE), Oct(H6, H1), Oct(H1, H2))
  }

  /** The k-th digit. */
  function DigitOctet(k: nat): Octet
    requires k < 9
  {
    Oct(H3, [H1, H2, H3, H4, H5, H6, H7, H8, H9][k])
  }

  lemma FirstTurns(k: nat)
    requires k < 3
    ensures Turn(After(k), DigitOctet(k), Halfway(k), After(k + 1))
  {}

  lemma MiddleTurns(k: nat)
    requires 3 <= k < 6
    ensures Turn(After(k), DigitOctet(k), Halfway(k), After(k + 1))
  {}

  lemma LastTurns(k: nat)
    requires 6 <= k < 9
    ensures Turn(After(k), DigitOctet(k), Halfway(k), After(k + 1))
  {}

  lemma DigitTurn(k: nat)
    requires k < 9
    ensures Turn(After(k), DigitOctet(k), Halfway(k), After(k + 1))
  {
    if k < 3 {
      FirstTurns(k);
    } else if k < 6 {
      MiddleTurns(k);
    } else {
      LastTurns(k);
    }
  }

  lemma DigitIs(k: nat)
    requires k < 9
    ensures OctetOf(DIGITS[k]) == DigitOctet(k)
  {
    DigitOctets();
  }

  predicate Turns(rs: seq<Register>, halves: seq<Register>, data: seq<Byte>) {
    && |rs| == |data| + 1 && |halves| == |data|
    && forall k :: 0 <= k < |data| ==> Turn(rs[k], OctetOf(data[k]), halves[k], rs[k + 1])
  }

  lemma {:induction false} FeedTurns(c: Word, rs: seq<Register>, halves: seq<Register>, data: seq<Byte>)
    requires Turns(rs, halves, data) && Same(c, rs[0])
    ensures Same(Feed(c, data), rs[|data|])
    decreases |data|
  {
    if |data| > 0 {
      assert Turns(rs[1..], halves[1..], data[1..]) by {
        assert forall k :: 0 <= k < |data| - 1 ==> data[1..][k] == data[k + 1] && halves[1..][k] == halves[k + 1];
      }
      assert Same(ByteStep(c, data[0]), rs[1]) by {
        SameByte(c, rs[0], data[0], halves[0], rs[1]);
      }
      FeedTurns(ByteStep(c, data[0]), rs[1..], halves[1..], data[1..]);
    }
  }

  lemma DigitTurns(rs: seq<Register>, halves: seq<Register>)
    requires |rs| == 10 && |halves| == 9
    requires (forall k :: 0 <= k < 10 ==> rs[k] == After(k)) && forall k :: 0 <= k < 9 ==> halves[k] == Halfway(k)
    ensures Turns(rs, halves, DIGITS)
  {
    forall k | 0 <= k < 9
      ensures Turn(rs[k], OctetOf(DIGITS[k]), halves[k], rs[k + 1])
    {
      DigitTurn(k);
      DigitIs(k);
    }
  }

  /** The published check value: the checksum of the nine digits. */
  lemma CheckValue()
    ensures Crc(DIGITS) == 0xCBF4_3926
  {
    var rs := seq(10, k requires 0 <= k < 10 => After(k));
    var halves := seq(9, k requires 0 <= k < 9 => Halfway(k));
    DigitTurns(rs, halves);
    StartsFull(rs[0]);
    FeedTurns(ONES, rs, halves, DIGITS);
    Inverted(Feed(ONES, DIGITS), [0x26, 0x39, 0xF4, 0xCB]);
  }

  lemma StartsFull(r: Register)
    requires r == After(0)
    ensures Same(ONES, r)
  {}

  function NotOctet(o: Octet): Octet {
    Octet(!o.b0, !o.b1, !o.b2, !o.b3, !o.b4, !o.b5, !o.b6, !o.b7)
  }

  lemma SameNot(c: Word, r: Register)
    requires Same(c, r)
    ensures Same(Not(c), Register(NotOctet(r.q0), NotOctet(r.q1), NotOctet(r.q2), NotOctet(r.q3)))
  {}

  lemma LastInverted()
    ensures var r := After(9);
            Register(NotOctet(r.q0), NotOctet(r.q1), NotOctet(r.q2), NotOctet(r.q3))
            == Hex(Oct(HC, HB), Oct(HF, H4), Oct(H3, H9), Oct(H2, H6))
  {}

  lemma Parts(w: Word, x: seq<Bit>, y: seq<Bit>, z: seq<Bit>, v: seq<Bit>)
    requires w == x + y + z + v && |x| == |y| == |z| == |v| == 8
    ensures w[0..8] == x && w[8..16] == y && w[16..24] == z && w[24..32] == v
  {}

  lemma SameFourBytes(a: Byte, b: Byte, c: Byte, d: Byte)
    ensures Same(FourBytes(a, b, c, d), Hex(OctetOf(d), OctetOf(c), OctetOf(b), OctetOf(a)))
  {
    var w := FourBytes(a, b, c, d);
    Parts(w, BitsOf(a, 8), BitsOf(b, 8), BitsOf(c, 8), BitsOf(d, 8));
    EightAt(w, 0, a);
    EightAt(w, 8, b);
    EightAt(w, 16, c);
    EightAt(w, 24, d);
  }

  lemma Inverted(c: Word, b: seq<Byte>)
    requires Same(c, After(9)) && b == [0x26, 0x39, 0xF4, 0xCB]
    ensures ValueOf(Not(c)) == 0xCBF4_3926
  {
    SameNot(c, After(9));
    LastInverted();
    CheckDigits();
    SameFourBytes(b[0], b[1], b[2], b[3]);
    SameBits(Not(c), FourBytes(b[0], b[1], b[2], b[3]), Hex(Oct(HC, HB), Oct(HF, H4), Oct(H3, H9), Oct(H2, H6)));
    FourBytesValue(b[0], b[1], b[2], b[3]);
  }

  lemma CheckDigits()
    ensures OctetOf(0x26) == Oct(H2, H6) && OctetOf(0x39) == Oct(H3, H9)
    ensures OctetOf(0xF4) == Oct(HF, H4) && OctetOf(0xCB) == Oct(HC, HB)
  {}
}
