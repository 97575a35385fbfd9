/** The checksum of the on-flash format: the bitwise CRC-32 loop, the error bursts
    it detects, and its agreement with the published table-driven form. */
module Crc32 {
  import opened Bits

  const WIDTH: nat := 32
  const BYTE_BITS: nat := 8

  type Word = w: seq<Bit> | |w| == WIDTH witness seq(WIDTH, _ => false)

  // ---- Machine operations on 32-bit words -------------------------------------

  function Zeros(n: nat): (z: seq<Bit>)
    ensures |z| == n
  {
    seq(n, _ => false)
  }

  /** At most 32 bits, widened with zeros. */
  function Widen(bits: seq<Bit>): Word
    requires |bits| <= WIDTH
  {
    bits + Zeros(WIDTH - |bits|)
  }

  function Xor(a: Word, b: Word): (c: Word)
    ensures forall i :: 0 <= i < WIDTH ==> c[i] == (a[i] != b[i])
  {
    seq(WIDTH, i requires 0 <= i < WIDTH => a[i] != b[i])
  }

  function Not(a: Word): (c: Word)
    ensures forall i :: 0 <= i < WIDTH ==> c[i] == !a[i]
  {
    seq(WIDTH, i requires 0 <= i < WIDTH => !a[i])
  }

  function ShiftRight(a: Word, n: nat): Word
    requires n <= WIDTH
  {
    a[n..] + Zeros(n)
  }

  /** 0xEDB88320, lowest byte first. */
  const POLY_BYTES: seq<Byte> := [0x20, 0x83, 0xB8, 0xED]
  const POLY: Word := BitsOf(POLY_BYTES[0], 8) + BitsOf(POLY_BYTES[1], 8) + BitsOf(POLY_BYTES[2], 8) + BitsOf(POLY_BYTES[3], 8)
  const ONES: Word := Not(Zeros(WIDTH))

  // ---- The computation --------------------------------------------------------

  /** One turn of the inner loop: shift, and fold the polynomial in when a one
      falls out. */
  function BitStep(c: Word): Word {
    if c[0] then Xor(ShiftRight(c, 1), POLY) else ShiftRight(c, 1)
  }

  function Steps(c: Word, n: nat): Word
    decreases n
  {
    if n == 0 then c else Steps(BitStep(c), n - 1)
  }

  function ByteStep(c: Word, d: Byte): Word {
    Steps(Xor(c, Widen(BitsOf(d, BYTE_BITS))), BYTE_BITS)
  }

  function Feed(c: Word, data: seq<Byte>): Word
    decreases |data|
  {
    if |data| == 0 then c else Feed(ByteStep(c, data[0]), data[1..])
  }

  function Crc(data: seq<Byte>): (crc: Uint32) {
    WordBound(Not(Feed(ONES, data)));
    ValueOf(Not(Feed(ONES, data)))
  }

  lemma Pow2At32()
    ensures Pow2(32) == 0x1_0000_0000
  {
    assert Pow2(8) == 0x100;
    assert Pow2(12) == 0x1000;
    assert Pow2(16) == 0x1_0000;
    assert Pow2(20) == 0x10_0000;
    assert Pow2(24) == 0x100_0000;
    assert Pow2(28) == 0x1000_0000;
  }

  lemma WordBound(w: Word)
    ensures ValueOf(w) < 0x1_0000_0000
  {
    ValueBound(w);
    Pow2At32();
  }

  /** The inner loop of the source, which runs it eight times. */
  method ClockSteps(start: Word, n: nat) returns (c: Word)
    ensures c == Steps(start, n)
  {
    c := start;
    for b := 0 to n
      invariant Steps(c, n - b) == Steps(start, n)
    {
      c := if c[0] then Xor(ShiftRight(c, 1), POLY) else ShiftRight(c, 1);
    }
  }

  method CrcFeed(start: Word, data: seq<Byte>) returns (c: Word)
    ensures c == Feed(start, data)
  {
    c := start;
    for i := 0 to |data|
      invariant Feed(c, data[i..]) == Feed(start, data)
    {
      c := Xor(c, Widen(BitsOf(data[i], BYTE_BITS)));
      c := ClockSteps(c, BYTE_BITS);
      assert data[i..][1..] == data[i + 1..];
    }
    assert data[|data|..] == [];
  }

  // ---- The bit step is linear and invertible ----------------------------------

  lemma StepAt(c: Word, i: nat)
    requires i < WIDTH
    ensures BitStep(c)[i] == ((i + 1 < WIDTH && c[i + 1]) != (c[0] && POLY[i]))
  {}

  lemma PolyTop()
    ensures POLY[31]
  {
    BitAt(POLY_BYTES[3], 8, 7);
    assert Pow2(7) == 128;
  }

  lemma BitStepLinear(a: Word, b: Word)
    ensures BitStep(Xor(a, b)) == Xor(BitStep(a), BitStep(b))
  {
    forall i | 0 <= i < WIDTH
      ensures BitStep(Xor(a, b))[i] == Xor(BitStep(a), BitStep(b))[i]
    {
      StepAt(a, i);
      StepAt(b, i);
      StepAt(Xor(a, b), i);
    }
  }

  lemma BitStepInjective(a: Word, b: Word)
    requires BitStep(a) == BitStep(b)
    ensures a == b
  {
    PolyTop();
    StepAt(a, 31);
    StepAt(b, 31);
    assert a[0] == b[0];
    forall i | 0 < i < WIDTH
      ensures a[i] == b[i]
    {
      StepAt(a, i - 1);
      StepAt(b, i - 1);
    }
  }

  lemma {:induction false} StepsLinear(a: Word, b: Word, n: nat)
    ensures Steps(Xor(a, b), n) == Xor(Steps(a, n), Steps(b, n))
    decreases n
  {
    if n > 0 {
      BitStepLinear(a, b);
      StepsLinear(BitStep(a), BitStep(b), n - 1);
    }
  }

  lemma {:induction false} StepsInjective(a: Word, b: Word, n: nat)
    requires Steps(a, n) == Steps(b, n)
    ensures a == b
    decreases n
  {
    if n > 0 {
      StepsInjective(BitStep(a), BitStep(b), n - 1);
      BitStepInjective(a, b);
    }
  }

  lemma ShiftTwice(w: Word, n: nat)
    requires n < WIDTH
    ensures ShiftRight(ShiftRight(w, 1), n) == ShiftRight(w, n + 1)
  {}

  /** While only zeros fall out, steps are plain shifts. */
  lemma {:induction false} StepsShift(w: Word, n: nat)
    requires n <= WIDTH && forall i :: 0 <= i < n ==> !w[i]
    ensures Steps(w, n) == ShiftRight(w, n)
    decreases n
  {
    if n == 0 {
      assert ShiftRight(w, 0) == w;
    } else {
      var v := ShiftRight(w, 1);
      assert BitStep(w) == v;
      forall i | 0 <= i < n - 1
        ensures !v[i]
      {
        assert v[i] == w[i + 1];
      }
      StepsShift(v, n - 1);
      ShiftTwice(w, n - 1);
    }
  }

  // ---- Bit strings ------------------------------------------------------------

  /** The bits of a message in the order the loop consumes them. */
  function MessageBits(data: seq<Byte>): (bits: seq<Bit>)
    ensures |bits| == 8 * |data|
    decreases |data|
  {
    if |data| == 0 then [] else BitsOf(data[0], BYTE_BITS) + MessageBits(data[1..])
  }

  /** Clock the bits through the register one at a time. */
  function Run(c: Word, bits: seq<Bit>): Word
    decreases |bits|
  {
    if |bits| == 0 then c else Run(BitStep(Xor(c, Widen([bits[0]]))), bits[1..])
  }

  /** Clocking up to 32 bits in one by one equals folding all of them in first and
      then stepping: why a whole byte may be folded in before its eight steps. */
  lemma {:induction false} RunIsFold(c: Word, bits: seq<Bit>)
    requires |bits| <= WIDTH
    ensures Run(c, bits) == Steps(Xor(c, Widen(bits)), |bits|)
    decreases |bits|
  {
    if |bits| == 0 {
      assert Xor(c, Widen(bits)) == c;
    } else {
      var one, rest := Xor(c, Widen([bits[0]])), Widen(bits[1..]);
      var up: Word := [false] + rest[..WIDTH - 1];
      assert Xor(c, Widen(bits)) == Xor(one, up);
      BitStepLinear(one, up);
      assert BitStep(up) == rest;
      RunIsFold(BitStep(one), bits[1..]);
    }
  }

  lemma {:induction false} RunAppend(c: Word, x: seq<Bit>, y: seq<Bit>)
    ensures Run(c, x + y) == Run(Run(c, x), y)
    decreases |x|
  {
    if |x| == 0 {
      assert x + y == y;
    } else {
      assert (x + y)[1..] == x[1..] + y;
      RunAppend(BitStep(Xor(c, Widen([x[0]]))), x[1..], y);
    }
  }

  lemma XorCancel(s: Word, a: Word, b: Word)
    requires Xor(s, a) == Xor(s, b)
    ensures a == b
  {
    forall i | 0 <= i < WIDTH
      ensures a[i] == b[i]
    {
      assert Xor(s, a)[i] == Xor(s, b)[i];
    }
  }

  lemma XorCommutes(a: Word, b: Word)
    ensures Xor(a, b) == Xor(b, a)
  {
    assert forall i :: 0 <= i < WIDTH ==> Xor(a, b)[i] == Xor(b, a)[i];
  }

  lemma {:induction false} RunInjective(a: Word, b: Word, bits: seq<Bit>)
    requires Run(a, bits) == Run(b, bits)
    ensures a == b
    decreases |bits|
  {
    if |bits| > 0 {
      var w := Widen([bits[0]]);
      RunInjective(BitStep(Xor(a, w)), BitStep(Xor(b, w)), bits[1..]);
      BitStepInjective(Xor(a, w), Xor(b, w));
      XorCommutes(a, w);
      XorCommutes(b, w);
      XorCancel(w, a, b);
    }
  }

  /** The byte loop computes the remainder of the message's bit string. */
  lemma {:induction false} FeedIsRun(c: Word, data: seq<Byte>)
    ensures Feed(c, data) == Run(c, MessageBits(data))
    decreases |data|
  {
    if |data| > 0 {
      var bits := BitsOf(data[0], BYTE_BITS);
      RunIsFold(c, bits);
      RunAppend(c, bits, MessageBits(data[1..]));
      FeedIsRun(ByteStep(c, data[0]), data[1..]);
    }
  }

  /** Feeding two spans in turn is feeding their concatenation. */
  lemma {:induction false} FeedAppend(c: Word, x: seq<Byte>, y: seq<Byte>)
    ensures Feed(c, x + y) == Feed(Feed(c, x), y)
    decreases |x|
  {
    if |x| == 0 {
      assert x + y == y;
    } else {
      assert (x + y)[1..] == x[1..] + y;
      FeedAppend(ByteStep(c, x[0]), x[1..], y);
    }
  }

  // ---- Error detection --------------------------------------------------------

  /** The two bit strings differ, and only inside the 32 bits from k. */
  ghost predicate Burst(x: seq<Bit>, y: seq<Bit>, k: nat) {
    && |x| == |y| && x != y
    && forall i :: 0 <= i < |x| && !(k <= i < k + WIDTH) ==> x[i] == y[i]
  }

  /** Within 32 bits, the register remembers exactly which bits went in. */
  lemma WindowRecovered(c: Word, before: seq<Bit>, x: seq<Bit>, y: seq<Bit>, after: seq<Bit>)
    requires |x| == |y| <= WIDTH
    requires Run(c, before + x + after) == Run(c, before + y + after)
    ensures x == y
  {
    var s := Run(c, before);
    RunAppend(c, before, x);
    RunAppend(c, before, y);
    RunAppend(c, before + x, after);
    RunAppend(c, before + y, after);
    RunInjective(Run(s, x), Run(s, y), after);
    RunIsFold(s, x);
    RunIsFold(s, y);
    StepsInjective(Xor(s, Widen(x)), Xor(s, Widen(y)), |x|);
    XorCancel(s, Widen(x), Widen(y));
    assert x == Widen(x)[..|x|] && y == Widen(y)[..|y|];
  }

  lemma SplitWindow(p: seq<Bit>, q: seq<Bit>, lo: nat, hi: nat)
    requires |p| == |q| && lo <= hi <= |p|
    requires forall i :: 0 <= i < |p| && !(lo <= i < hi) ==> p[i] == q[i]
    ensures p == p[..lo] + p[lo..hi] + p[hi..]
    ensures q == p[..lo] + q[lo..hi] + p[hi..]
  {
    assert q[..lo] == p[..lo] && q[hi..] == p[hi..];
  }

  lemma BurstRecovered(c: Word, p: seq<Bit>, q: seq<Bit>, k: nat)
    requires |p| == |q| && forall i :: 0 <= i < |p| && !(k <= i < k + WIDTH) ==> p[i] == q[i]
    requires Run(c, p) == Run(c, q)
    ensures p == q
  {
    var lo := if k < |p| then k else |p|;
    var hi := if k + WIDTH < |p| then k + WIDTH else |p|;
    SplitWindow(p, q, lo, hi);
    WindowRecovered(c, p[..lo], p[lo..hi], q[lo..hi], p[hi..]);
  }

  /** Two messages that differ by one burst of at most 32 bits have different
      checksums, wherever the burst lies and however long the messages are. */
  lemma CrcDetectsBurst(x: seq<Byte>, y: seq<Byte>, k: nat)
    requires Burst(MessageBits(x), MessageBits(y), k)
    ensures Crc(x) != Crc(y)
  {
    if Crc(x) == Crc(y) {
      CrcInjective(Feed(ONES, x), Feed(ONES, y));
      FeedIsRun(ONES, x);
      FeedIsRun(ONES, y);
      BurstRecovered(ONES, MessageBits(x), MessageBits(y), k);
    }
  }

  lemma CrcInjective(a: Word, b: Word)
    requires ValueOf(Not(a)) == ValueOf(Not(b))
    ensures a == b
  {
    BitsOfValue(Not(a));
    BitsOfValue(Not(b));
    forall i | 0 <= i < WIDTH
      ensures a[i] == b[i]
    {
      assert Not(a)[i] == Not(b)[i];
    }
  }

  // ---- The table-driven form of RFC 1952, section 8 ---------------------------

  /** make_crc_table's entry for one byte value. */
  function TableEntry(d: Byte): Word {
    Steps(Widen(BitsOf(d, BYTE_BITS)), BYTE_BITS)
  }

  /** update_crc without its pre- and post-conditioning: look the low byte up, and
      shift the rest down. */
  function TableFeed(c: Word, data: seq<Byte>): Word
    decreases |data|
  {
    if |data| == 0 then c
    else
      var index := LowByte(Xor(c, Widen(BitsOf(data[0], BYTE_BITS))));
      TableFeed(Xor(TableEntry(index), ShiftRight(c, BYTE_BITS)), data[1..])
  }

  function LowByte(w: Word): (d: Byte)
    ensures BitsOf(d, BYTE_BITS) == w[..8]
  {
    ValueBound(w[..8]);
    assert Pow2(8) == 256;
    BitsOfValue(w[..8]);
    ValueOf(w[..8])
  }

  /** Eight steps look only the low byte up; the rest is shifted down. */
  lemma StepsSplit(v: Word)
    ensures Steps(v, BYTE_BITS) == Xor(Steps(Widen(v[..8]), BYTE_BITS), ShiftRight(v, BYTE_BITS))
  {
    var low, high: Word := Widen(v[..8]), Zeros(8) + v[8..];
    assert v == Xor(low, high);
    StepsLinear(low, high, BYTE_BITS);
    StepsShift(high, BYTE_BITS);
  }

  lemma TableByte(c: Word, d: Byte)
    ensures var index := LowByte(Xor(c, Widen(BitsOf(d, BYTE_BITS))));
            ByteStep(c, d) == Xor(TableEntry(index), ShiftRight(c, BYTE_BITS))
  {
    var bits := BitsOf(d, BYTE_BITS);
    StepsSplit(Xor(c, Widen(bits)));
    HighKept(c, bits);
  }

  lemma HighKept(c: Word, bits: seq<Bit>)
    requires |bits| == 8
    ensures ShiftRight(Xor(c, Widen(bits)), 8) == ShiftRight(c, 8)
  {}

  /** The table-driven algorithm computes the same checksum on every message. */
  lemma {:induction false} TableFeedAgrees(c: Word, data: seq<Byte>)
    ensures TableFeed(c, data) == Feed(c, data)
    decreases |data|
  {
    if |data| > 0 {
      TableByte(c, data[0]);
      TableFeedAgrees(ByteStep(c, data[0]), data[1..]);
    }
  }
}
