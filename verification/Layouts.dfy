/** The four files byte by byte: where each field lies, how wide it is, and what a reader
    asks of a file before it trusts it. */
module Layouts {
  import opened Bits
  import opened Records
  import opened Crc32
  import opened Format

  /** n bytes at p hold a number, lowest byte first. */
  predicate TwoAt(s: seq<Byte>, p: nat, v: int)
    requires p + 2 <= |s|
  {
    s[p] as int + 256 * s[p + 1] as int == v
  }

  predicate FourAt(s: seq<Byte>, p: nat, v: int)
    requires p + 4 <= |s|
  {
    s[p] as int + 256 * s[p + 1] as int + 65536 * s[p + 2] as int + 16777216 * s[p + 3] as int == v
  }

  /** A field of the given width holds the text, or as much of it as leaves room for one
      zero, and zeros behind it. */
  predicate TextAt(s: seq<Byte>, p: nat, width: nat, t: Text)
    requires p + width <= |s|
  {
    forall i :: 0 <= i < width ==> s[p + i] == if i < |t| && i < width - 1 then t[i] else 0
  }

  lemma TextPlaced(s: seq<Byte>, p: nat, width: nat, t: Text)
    requires width > 0 && p + width <= |s| && s[p..p + width] == TextField(width, t)
    ensures TextAt(s, p, width, t)
  {
    forall i | 0 <= i < width
      ensures s[p + i] == if i < |t| && i < width - 1 then t[i] else 0
    {
      assert s[p + i] == s[p..p + width][i] == TextField(width, t)[i];
    }
  }

  lemma TwoPlaced(s: seq<Byte>, p: nat, v: Uint16)
    requires p + 2 <= |s| && s[p..p + 2] == U16Bytes(v)
    ensures TwoAt(s, p, v)
  {
    assert s[p] == s[p..p + 2][0] && s[p + 1] == s[p..p + 2][1];
  }

  lemma FourPlaced(s: seq<Byte>, p: nat, v: Uint32)
    requires p + 4 <= |s| && s[p..p + 4] == U32Bytes(v)
    ensures FourAt(s, p, v)
  {
    var x: int, b := v, U32Bytes(v);
    assert b[0..2] == U16Bytes(x % 0x1_0000) && b[2..4] == U16Bytes(x / 0x1_0000);
    TwoPlaced(b, 0, x % 0x1_0000);
    TwoPlaced(b, 2, x / 0x1_0000);
    assert s[p] == s[p..p + 4][0] && s[p + 1] == s[p..p + 4][1] && s[p + 2] == s[p..p + 4][2] && s[p + 3] == s[p..p + 4][3];
  }

  // ---- The records ------------------------------------------------------------

  /** A price as the two's complement of 32 bits. */
  function Word(price: Int32): int {
    price % 4294967296
  }

  /** The queue's record: 120 bytes. */
  lemma EntryLayout(e: Entry)
    ensures var s := EntryBytes(e);
            && |s| == 120
            && TextAt(s, 0, 24, e.transactionId) && TextAt(s, 24, 14, e.barcode) && TextAt(s, 38, 40, e.productName)
            && TextAt(s, 78, 12, e.residentId) && TextAt(s, 90, 24, e.residentName)
            && FourAt(s, 114, Word(e.priceRappen)) && s[118] == (if e.freeItem then 1 else 0)
            && s[119] == match e.kind
                         case Purchase => 0
                         case Void => 1
                         case Archive => 2
                         case Restore => 3
                         case Create => 4
                         case ChangePrice => 5
  {
    var s := EntryBytes(e);
    assert s[0..24] == TextField(24, e.transactionId) && s[24..38] == TextField(14, e.barcode);
    assert s[38..78] == TextField(40, e.productName) && s[78..90] == TextField(12, e.residentId);
    assert s[90..114] == TextField(24, e.residentName) && s[114..118] == U32Bytes(Unsigned(e.priceRappen));
    EntryTexts(s, e);
    FourPlaced(s, 114, Unsigned(e.priceRappen));
  }

  lemma EntryTexts(s: seq<Byte>, e: Entry)
    requires |s| == 120
    requires s[0..24] == TextField(24, e.transactionId) && s[24..38] == TextField(14, e.barcode)
    requires s[38..78] == TextField(40, e.productName) && s[78..90] == TextField(12, e.residentId)
    requires s[90..114] == TextField(24, e.residentName)
    ensures TextAt(s, 0, 24, e.transactionId) && TextAt(s, 24, 14, e.barcode) && TextAt(s, 38, 40, e.productName)
    ensures TextAt(s, 78, 12, e.residentId) && TextAt(s, 90, 24, e.residentName)
  {
    TextPlaced(s, 0, 24, e.transactionId);
    TextPlaced(s, 24, 14, e.barcode);
    TextPlaced(s, 38, 40, e.productName);
    TextPlaced(s, 78, 12, e.residentId);
    TextPlaced(s, 90, 24, e.residentName);
  }

  /** The catalog's: 219 bytes. */
  lemma ProductLayout(p: Product)
    ensures var s := ProductBytes(p);
            && |s| == 219
            && TextAt(s, 0, 14, p.barcode) && TextAt(s, 14, 40, p.name) && TextAt(s, 59, 160, p.imageUrl)
            && FourAt(s, 54, Word(p.priceRappen))
            && s[58] == (if p.freeItem then 1 else 0) + if p.active then 2 else 0
  {
    var s := ProductBytes(p);
    assert s[0..14] == TextField(14, p.barcode) && s[14..54] == TextField(40, p.name);
    assert s[54..58] == U32Bytes(Unsigned(p.priceRappen)) && s[59..219] == TextField(160, p.imageUrl);
    TextPlaced(s, 0, 14, p.barcode);
    TextPlaced(s, 14, 40, p.name);
    TextPlaced(s, 59, 160, p.imageUrl);
    FourPlaced(s, 54, Unsigned(p.priceRappen));
  }

  /** The residents': 36 bytes. */
  lemma ResidentLayout(r: Resident)
    ensures var s := ResidentBytes(r);
            |s| == 36 && TextAt(s, 0, 12, r.id) && TextAt(s, 12, 24, r.name)
  {
    var s := ResidentBytes(r);
    assert s[0..12] == TextField(12, r.id) && s[12..36] == TextField(24, r.name);
    TextPlaced(s, 0, 12, r.id);
    TextPlaced(s, 12, 24, r.name);
  }

  /** The figures': 42 bytes. */
  lemma TallyLayout(t: Tally)
    ensures var s := TallyBytes(t);
            && |s| == 42 && TextAt(s, 0, 12, t.residentId) && TextAt(s, 12, 24, t.residentName)
            && TwoAt(s, 36, t.drinks) && FourAt(s, 38, Word(t.totalRappen))
  {
    var s := TallyBytes(t);
    assert s[0..12] == TextField(12, t.residentId) && s[12..36] == TextField(24, t.residentName);
    assert s[36..38] == U16Bytes(t.drinks) && s[38..42] == U32Bytes(Unsigned(t.totalRappen));
    TextPlaced(s, 0, 12, t.residentId);
    TextPlaced(s, 12, 24, t.residentName);
    TwoPlaced(s, 36, t.drinks);
    FourPlaced(s, 38, Unsigned(t.totalRappen));
  }

  // ---- The file ---------------------------------------------------------------

  /** The header: magic, version 1, record size, revision, count, seed, checksum. */
  predicate HeaderOf(blob: seq<Byte>, magic: int, size: int, revision: int, count: int, seed: int)
    requires |blob| >= 20
  {
    && FourAt(blob, 0, magic) && TwoAt(blob, 4, 1) && TwoAt(blob, 6, size) && FourAt(blob, 8, revision)
    && TwoAt(blob, 12, count) && TwoAt(blob, 14, seed)
  }

  lemma HeaderLayout(blob: seq<Byte>, magic: Uint32, size: Uint16, revision: Uint32, count: Uint16, seed: Uint16)
    requires |blob| >= 20 && blob[..16] == Fields(magic, size, revision, count, seed)
    ensures HeaderOf(blob, magic, size, revision, count, seed)
  {
    var h := blob[..16];
    assert blob[0..4] == h[0..4] == U32Bytes(magic) && blob[4..6] == h[4..6] == U16Bytes(1);
    assert blob[6..8] == h[6..8] == U16Bytes(size) && blob[8..12] == h[8..12] == U32Bytes(revision);
    assert blob[12..14] == h[12..14] == U16Bytes(count) && blob[14..16] == h[14..16] == U16Bytes(seed);
    FourPlaced(blob, 0, magic);
    TwoPlaced(blob, 4, 1);
    TwoPlaced(blob, 6, size);
    FourPlaced(blob, 8, revision);
    TwoPlaced(blob, 12, count);
    TwoPlaced(blob, 14, seed);
  }

  /** The blob without its checksum. */
  function Zeroed(blob: seq<Byte>): seq<Byte>
    requires |blob| >= 20
  {
    blob[..16] + [0, 0, 0, 0] + blob[20..]
  }

  /** A file: the header, the checksum of everything with its own field zero, and the
      records one behind the other. */
  lemma FileLayout<T>(l: Layout<T>, xs: seq<T>, revision: Uint32, seed: Uint16)
    requires |xs| < 256 && forall x :: |l.enc(x)| == l.size as int
    ensures var blob := Encode(l, xs, revision, seed);
            && |blob| == 20 + |xs| * l.size as int
            && HeaderOf(blob, l.magic, l.size, revision, |xs|, seed) && FourAt(blob, 16, Crc(Zeroed(blob)))
            && forall i :: 0 <= i < |xs| ==> RecordAt(blob, l.enc(xs[i]), i, l.size as nat)
  {
    var fields, payload := Fields(l.magic, l.size, revision, |xs|, seed), Payload(l.enc, xs);
    var blob := Encode(l, xs, revision, seed);
    SealedBlob(fields, payload);
    HeaderLayout(blob, l.magic, l.size, revision, |xs|, seed);
    assert Zeroed(blob) == fields + CLEARED + payload;
    assert blob[16..20] == U32Bytes(Crc(fields + CLEARED + payload));
    FourPlaced(blob, 16, Crc(fields + CLEARED + payload));
    PayloadSize(l.enc, l.size as nat, xs);
    forall i | 0 <= i < |xs|
      ensures RecordAt(blob, l.enc(xs[i]), i, l.size as nat)
    {
      PayloadAt(l.enc, l.size as nat, xs, i);
      assert blob[20..] == payload;
    }
  }

  predicate RecordAt(blob: seq<Byte>, record: seq<Byte>, i: nat, size: nat) {
    20 + i * size + size <= |blob| && blob[20..][i * size..i * size + size] == record
  }

  lemma {:induction false} PayloadSize<T>(enc: T -> seq<Byte>, size: nat, xs: seq<T>)
    requires forall x :: |enc(x)| == size
    ensures |Payload(enc, xs)| == |xs| * size
    decreases |xs|
  {
    if |xs| > 0 {
      PayloadSize(enc, size, xs[1..]);
      assert (|xs| - 1) * size + size == |xs| * size;
    }
  }

  lemma {:induction false} PayloadAt<T>(enc: T -> seq<Byte>, size: nat, xs: seq<T>, i: nat)
    requires i < |xs| && forall x :: |enc(x)| == size
    ensures i * size + size <= |Payload(enc, xs)| && Payload(enc, xs)[i * size..i * size + size] == enc(xs[i])
    decreases |xs|
  {
    var first, rest := enc(xs[0]), Payload(enc, xs[1..]);
    if i > 0 {
      PayloadAt(enc, size, xs[1..], i - 1);
      assert i * size == size + (i - 1) * size;
      Behind(first, rest, (i - 1) * size, size);
    }
  }

  lemma Behind(x: seq<Byte>, y: seq<Byte>, p: nat, n: nat)
    requires p + n <= |y|
    ensures (x + y)[|x| + p..|x| + p + n] == y[p..p + n]
  {}

  /** The four kinds of file: "BRT1", "RRT1", "QTT1" and "SUT1" in front, and the sizes of
      their records. */
  lemma FourFiles()
    ensures QUEUE.magic == 0x51 + 256 * 0x54 + 65536 * 0x54 + 16777216 * 0x31 && QUEUE.size == 120
    ensures CATALOG.magic == 0x42 + 256 * 0x52 + 65536 * 0x54 + 16777216 * 0x31 && CATALOG.size == 219
    ensures RESIDENTS.magic == 0x52 + 256 * 0x52 + 65536 * 0x54 + 16777216 * 0x31 && RESIDENTS.size == 36
    ensures SUMMARY.magic == 0x53 + 256 * 0x55 + 65536 * 0x54 + 16777216 * 0x31 && SUMMARY.size == 42
  {}

  // ---- What a reader asks -----------------------------------------------------

  /** A blob is accepted if and only if its header names this kind, version 1 and this record
      size, its count is within capacity and fits its length, and the checksum is right. */
  lemma AcceptedIff(blob: seq<Byte>, magic: Uint32, size: Uint16, capacity: Byte)
    ensures Check(blob, magic, size, capacity).Some? <==>
              && |blob| >= 20
              && exists revision: Uint32, count: Uint16, seed: Uint16 ::
                   && HeaderOf(blob, magic, size, revision, count, seed)
                   && count as int <= capacity as int && |blob| == 20 + count as int * size as int
                   && FourAt(blob, 16, Crc(Zeroed(blob)))
  {
    if |blob| >= 20 {
      Reads(blob, 0);
      Reads(blob, 8);
      Reads(blob, 16);
      assert HeaderOf(blob, GetU32(blob, 0), GetU16(blob, 6), GetU32(blob, 8), GetU16(blob, 12), GetU16(blob, 14))
             <==> GetU16(blob, 4) == 1;
    }
  }

  lemma Reads(s: seq<Byte>, p: nat)
    requires p + 4 <= |s|
    ensures FourAt(s, p, GetU32(s, p))
  {}

  /** Of a record's last byte only the five other kinds are told apart; everything else
      reads as a purchase. */
  lemma KindRead(b: Byte)
    ensures KindOf(b) == match b
                         case 1 => Void
                         case 2 => Archive
                         case 3 => Restore
                         case 4 => Create
                         case 5 => ChangePrice
                         case _ => Purchase
  {}
}
