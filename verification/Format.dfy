/** The on-flash format: a 20-byte header whose checksum covers the whole blob with
    its own field cleared, followed by fixed-size records. */
module Format {
  import opened Bits
  import opened Records
  import opened Wrappers
  import opened Crc32

  const MAGIC_CATALOG: Uint32 := 0x3154_5242
  const MAGIC_RESIDENTS: Uint32 := 0x3154_5252
  const MAGIC_QUEUE: Uint32 := 0x3154_5451
  const MAGIC_SUMMARY: Uint32 := 0x3154_5553

  const FORMAT_VERSION: Uint16 := 1
  const HEADER_BYTES: nat := 20
  const CRC_OFFSET: nat := 16

  const BARCODE: nat := 14
  const NAME: nat := 40
  const IMAGE_URL: nat := 160
  const RESIDENT_ID: nat := 12
  const RESIDENT_NAME: nat := 24
  const TXN_ID: nat := 24

  const CATALOG_RECORD: nat := 219
  const RESIDENT_RECORD: nat := 36
  const QUEUE_RECORD: nat := 120
  const SUMMARY_RECORD: nat := 42

  // ---- Integers ---------------------------------------------------------------

  function U16Bytes(v: Uint16): (b: seq<Byte>)
    ensures |b| == 2
  {
    var x: int := v;
    [x % 0x100, x / 0x100]
  }

  /** Little-endian, so the low half comes first. */
  function U32Bytes(v: Uint32): (b: seq<Byte>)
    ensures |b| == 4
  {
    var x: int := v;
    U16Bytes(x % 0x1_0000) + U16Bytes(x / 0x1_0000)
  }

  function GetU16(s: seq<Byte>, at: nat): Uint16
    requires at + 2 <= |s|
  {
    var low: int, high: int := s[at], s[at + 1];
    low + 0x100 * high
  }

  function GetU32(s: seq<Byte>, at: nat): Uint32
    requires at + 4 <= |s|
  {
    var low: int, high: int := GetU16(s, at), GetU16(s, at + 2);
    low + 0x1_0000 * high
  }

  /** static_cast<uint32_t>(x) and back. */
  function Unsigned(x: Int32): Uint32 {
    if x < 0 then x + 0x1_0000_0000 else x
  }

  function Signed(v: Uint32): Int32 {
    if v < 0x8000_0000 then v else v - 0x1_0000_0000
  }

  lemma U16RoundTrip(s: seq<Byte>, at: nat, v: Uint16)
    requires at + 2 <= |s| && s[at..at + 2] == U16Bytes(v)
    ensures GetU16(s, at) == v
  {
    assert s[at] == s[at..at + 2][0] && s[at + 1] == s[at..at + 2][1];
  }

  lemma U32RoundTrip(s: seq<Byte>, at: nat, v: Uint32)
    requires at + 4 <= |s| && s[at..at + 4] == U32Bytes(v)
    ensures GetU32(s, at) == v
  {
    var x: int := v;
    assert s[at..at + 2] == s[at..at + 4][..2] == U16Bytes(x % 0x1_0000);
    assert s[at + 2..at + 4] == s[at..at + 4][2..] == U16Bytes(x / 0x1_0000);
    U16RoundTrip(s, at, x % 0x1_0000);
    U16RoundTrip(s, at + 2, x / 0x1_0000);
  }

  lemma U32Injective(s: seq<Byte>, t: seq<Byte>)
    requires |s| == |t| == 4 && GetU32(s, 0) == GetU32(t, 0)
    ensures s == t
  {
    assert GetU16(s, 0) == GetU16(t, 0) && GetU16(s, 2) == GetU16(t, 2);
  }

  // ---- Text fields ------------------------------------------------------------

  function Min(a: nat, b: nat): nat {
    if a < b then a else b
  }

  /** The longest part of t that fits the field with its terminator. */
  function Clip(field: nat, t: Text): Text
    requires field > 0
  {
    t[..Min(|t|, field - 1)]
  }

  function TextField(field: nat, t: Text): (b: seq<Byte>)
    requires field > 0
    ensures |b| == field
  {
    Clip(field, t) + seq(field - |Clip(field, t)|, _ => 0)
  }

  /** strnlen */
  function TextLength(s: seq<Byte>): (n: nat)
    ensures n <= |s| && 0 !in s[..n] && (n < |s| ==> s[n] == 0)
    decreases |s|
  {
    if |s| == 0 || s[0] == 0 then 0
    else
      assert s == [s[0]] + s[1..];
      1 + TextLength(s[1..])
  }

  function GetText(field: nat, s: seq<Byte>): (t: Text)
    requires 0 < field <= |s|
    ensures |t| < field
  {
    s[..Min(TextLength(s[..field]), field - 1)]
  }

  lemma TextRoundTrip(field: nat, t: Text, s: seq<Byte>)
    requires 0 < field <= |s| && s[..field] == TextField(field, t)
    ensures GetText(field, s) == Clip(field, t)
  {
    var c, b := Clip(field, t), s[..field];
    TextLengthIs(b, |c|);
    assert b[..|c|] == c;
    assert s[..|c|] == b[..|c|];
  }

  lemma {:induction false} TextLengthIs(s: seq<Byte>, n: nat)
    requires n <= |s| && 0 !in s[..n] && (n < |s| ==> s[n] == 0)
    ensures TextLength(s) == n
    decreases n
  {
    if n > 0 {
      assert s[0] == s[..n][0];
      assert s[1..][..n - 1] == s[..n][1..];
      TextLengthIs(s[1..], n - 1);
    }
  }

  // ---- The header and its checksum --------------------------------------------

  function Fields(magic: Uint32, recordSize: Uint16, revision: Uint32, count: Uint16, seed: Uint16): (h: seq<Byte>)
    ensures |h| == CRC_OFFSET
  {
    U32Bytes(magic) + U16Bytes(FORMAT_VERSION) + U16Bytes(recordSize) + U32Bytes(revision)
    + U16Bytes(count) + U16Bytes(seed)
  }

  const CLEARED: seq<Byte> := [0, 0, 0, 0]

  /** Fields and payload around the checksum of the two with a cleared field between. */
  function Seal(fields: seq<Byte>, payload: seq<Byte>): seq<Byte> {
    fields + U32Bytes(Crc(fields + CLEARED + payload)) + payload
  }

  function Cleared(blob: seq<Byte>): seq<Byte>
    requires |blob| >= HEADER_BYTES
  {
    blob[..CRC_OFFSET] + CLEARED + blob[HEADER_BYTES..]
  }

  datatype Head = Head(count: Uint16, revision: Uint32, seed: Uint16)

  /** Everything `check` looks at before it trusts a blob. */
  function Check(blob: seq<Byte>, magic: Uint32, recordSize: Uint16, capacity: Byte): Option<Head> {
    if |blob| < HEADER_BYTES then None
    else if GetU32(blob, 0) != magic then None
    else if GetU16(blob, 4) != FORMAT_VERSION then None
    else if GetU16(blob, 6) != recordSize then None
    else
      var count: nat := GetU16(blob, 12);
      if count > capacity as int then None
      else if |blob| != HEADER_BYTES + count * recordSize then None
      else if Crc(Cleared(blob)) != GetU32(blob, CRC_OFFSET) then None
      else Some(Head(count, GetU32(blob, 8), GetU16(blob, 14)))
  }

  lemma FieldsRoundTrip(magic: Uint32, recordSize: Uint16, revision: Uint32, count: Uint16, seed: Uint16, blob: seq<Byte>)
    requires |blob| >= CRC_OFFSET && blob[..CRC_OFFSET] == Fields(magic, recordSize, revision, count, seed)
    ensures GetU32(blob, 0) == magic && GetU16(blob, 4) == FORMAT_VERSION && GetU16(blob, 6) == recordSize
    ensures GetU32(blob, 8) == revision && GetU16(blob, 12) == count && GetU16(blob, 14) == seed
  {
    var h := blob[..CRC_OFFSET];
    assert blob[0..4] == h[0..4] == U32Bytes(magic);
    assert blob[4..6] == h[4..6] == U16Bytes(FORMAT_VERSION);
    assert blob[6..8] == h[6..8] == U16Bytes(recordSize);
    assert blob[8..12] == h[8..12] == U32Bytes(revision);
    assert blob[12..14] == h[12..14] == U16Bytes(count);
    assert blob[14..16] == h[14..16] == U16Bytes(seed);
    U32RoundTrip(blob, 0, magic);
    U16RoundTrip(blob, 4, FORMAT_VERSION);
    U16RoundTrip(blob, 6, recordSize);
    U32RoundTrip(blob, 8, revision);
    U16RoundTrip(blob, 12, count);
    U16RoundTrip(blob, 14, seed);
  }

  lemma Parts<T>(x: seq<T>, y: seq<T>, z: seq<T>)
    ensures var s := x + y + z;
            s[..|x|] == x && s[|x|..|x| + |y|] == y && s[|x| + |y|..] == z
  {}

  lemma Rejoin<T>(s: seq<T>, i: nat, j: nat)
    requires i <= j <= |s|
    ensures s == s[..i] + s[i..j] + s[j..]
  {}

  lemma SealedBlob(fields: seq<Byte>, payload: seq<Byte>)
    requires |fields| == CRC_OFFSET
    ensures var blob := Seal(fields, payload);
            && |blob| == HEADER_BYTES + |payload|
            && blob[..CRC_OFFSET] == fields && blob[HEADER_BYTES..] == payload
            && Crc(Cleared(blob)) == GetU32(blob, CRC_OFFSET)
  {
    var crc := Crc(fields + CLEARED + payload);
    Parts(fields, U32Bytes(crc), payload);
    U32RoundTrip(Seal(fields, payload), CRC_OFFSET, crc);
  }

  lemma SealChecks(magic: Uint32, recordSize: Uint16, revision: Uint32, count: Uint16, seed: Uint16,
                   payload: seq<Byte>, capacity: Byte)
    requires count as int <= capacity as int && |payload| == count as int * recordSize as int
    ensures Check(Seal(Fields(magic, recordSize, revision, count, seed), payload), magic, recordSize, capacity)
            == Some(Head(count, revision, seed))
  {
    var fields := Fields(magic, recordSize, revision, count, seed);
    SealedBlob(fields, payload);
    FieldsRoundTrip(magic, recordSize, revision, count, seed, Seal(fields, payload));
  }

  // ---- Damage is noticed ------------------------------------------------------

  lemma {:induction false} BitsAppend(x: seq<Byte>, y: seq<Byte>)
    ensures MessageBits(x + y) == MessageBits(x) + MessageBits(y)
    decreases |x|
  {
    if |x| == 0 {
      assert x + y == y;
    } else {
      assert (x + y)[1..] == x[1..] + y;
      BitsAppend(x[1..], y);
    }
  }

  lemma {:induction false} BitsInjective(x: seq<Byte>, y: seq<Byte>)
    requires MessageBits(x) == MessageBits(y)
    ensures x == y
    decreases |x|
  {
    if |x| > 0 {
      var p, q := MessageBits(x), MessageBits(y);
      assert p[..8] == BitsOf(x[0], BYTE_BITS) && q[..8] == BitsOf(y[0], BYTE_BITS);
      assert p[8..] == MessageBits(x[1..]) && q[8..] == MessageBits(y[1..]);
      assert Pow2(BYTE_BITS) == 256;
      BitsOfInjective(x[0], y[0], BYTE_BITS);
      BitsInjective(x[1..], y[1..]);
      assert x == [x[0]] + x[1..] && y == [y[0]] + y[1..];
    }
  }

  lemma BitsSlice(s: seq<Byte>, i: nat, j: nat)
    requires i <= j <= |s|
    ensures MessageBits(s)[8 * i..8 * j] == MessageBits(s[i..j])
  {
    Rejoin(s, i, j);
    BitsAppend(s[..i] + s[i..j], s[j..]);
    BitsAppend(s[..i], s[i..j]);
    Parts(MessageBits(s[..i]), MessageBits(s[i..j]), MessageBits(s[j..]));
  }

  /** Bytes whose bits agree agree. */
  lemma SliceAgrees(a: seq<Byte>, b: seq<Byte>, i: nat, j: nat)
    requires i <= j <= |a| == |b|
    requires forall m :: 8 * i <= m < 8 * j ==> MessageBits(a)[m] == MessageBits(b)[m]
    ensures a[i..j] == b[i..j]
  {
    BitsSlice(a, i, j);
    BitsSlice(b, i, j);
    SameSlice(MessageBits(a), MessageBits(b), 8 * i, 8 * j);
    BitsInjective(a[i..j], b[i..j]);
  }

  lemma SameSlice<T>(p: seq<T>, q: seq<T>, i: nat, j: nat)
    requires i <= j <= |p| == |q|
    requires forall m :: i <= m < j ==> p[m] == q[m]
    ensures p[i..j] == q[i..j]
  {}

  lemma BitsSplit(x: seq<Byte>, y: seq<Byte>, z: seq<Byte>)
    ensures MessageBits(x + y + z) == MessageBits(x) + MessageBits(y) + MessageBits(z)
  {
    BitsAppend(x + y, z);
    BitsAppend(x, y);
  }

  lemma SharedEnds<T>(x: seq<T>, y: seq<T>, y': seq<T>, z: seq<T>)
    requires |y| == |y'|
    ensures var p, q := x + y + z, x + y' + z;
            |p| == |q| && forall m :: 0 <= m < |p| && !(|x| <= m < |x| + |y|) ==> p[m] == q[m]
  {}

  /** Messages that share both ends share the bits of both ends. */
  lemma SharedEndBits(x: seq<Byte>, y: seq<Byte>, y': seq<Byte>, z: seq<Byte>)
    requires |y| == |y'|
    ensures var p, q := MessageBits(x + y + z), MessageBits(x + y' + z);
            |p| == |q| && forall m :: 0 <= m < |p| && !(8 * |x| <= m < 8 * (|x| + |y|)) ==> p[m] == q[m]
  {
    BitsSplit(x, y, z);
    BitsSplit(x, y', z);
    SharedEnds(MessageBits(x), MessageBits(y), MessageBits(y'), MessageBits(z));
  }

  lemma ClearedBits(blob: seq<Byte>)
    requires |blob| >= HEADER_BYTES
    ensures |Cleared(blob)| == |blob|
    ensures forall m :: 0 <= m < 8 * |blob| && !(128 <= m < 160)
                        ==> MessageBits(Cleared(blob))[m] == MessageBits(blob)[m]
  {
    Rejoin(blob, 16, 20);
    SharedEndBits(blob[..16], CLEARED, blob[16..20], blob[20..]);
  }

  lemma SameInField(blob: seq<Byte>, other: seq<Byte>)
    requires |blob| == |other| >= HEADER_BYTES
    ensures MessageBits(Cleared(blob))[128..160] == MessageBits(Cleared(other))[128..160]
  {
    BitsSplit(blob[..16], CLEARED, blob[20..]);
    BitsSplit(other[..16], CLEARED, other[20..]);
  }

  lemma FieldDamage(a: seq<Byte>, b: seq<Byte>)
    requires |a| == |b| >= HEADER_BYTES && Burst(MessageBits(a), MessageBits(b), 128)
    ensures Cleared(a) == Cleared(b) && GetU32(a, CRC_OFFSET) != GetU32(b, CRC_OFFSET)
  {
    SliceAgrees(a, b, 0, 16);
    SliceAgrees(a, b, 20, |a|);
    FieldDiffers(a, b);
  }

  lemma SameField(a: seq<Byte>, b: seq<Byte>)
    requires |a| == |b| >= HEADER_BYTES
    requires a[..16] == b[..16] && a[20..] == b[20..] && GetU32(a, CRC_OFFSET) == GetU32(b, CRC_OFFSET)
    ensures a == b
  {
    assert GetU32(a[16..20], 0) == GetU32(a, 16) && GetU32(b[16..20], 0) == GetU32(b, 16);
    U32Injective(a[16..20], b[16..20]);
    Rejoin(a, 16, 20);
    Rejoin(b, 16, 20);
  }

  lemma FieldDiffers(a: seq<Byte>, b: seq<Byte>)
    requires |a| == |b| >= HEADER_BYTES && a != b
    requires a[0..16] == b[0..16] && a[20..|a|] == b[20..|b|]
    ensures Cleared(a) == Cleared(b) && GetU32(a, CRC_OFFSET) != GetU32(b, CRC_OFFSET)
  {
    assert a[..16] == a[0..16] && a[20..] == a[20..|a|];
    assert b[..16] == b[0..16] && b[20..] == b[20..|b|];
    if GetU32(a, CRC_OFFSET) == GetU32(b, CRC_OFFSET) {
      SameField(a, b);
    }
  }

  lemma BodyDamage(a: seq<Byte>, b: seq<Byte>, k: nat)
    requires |a| == |b| >= HEADER_BYTES
    requires Burst(MessageBits(a), MessageBits(b), k) && (k + 32 <= 128 || 160 <= k)
    ensures Crc(Cleared(a)) != Crc(Cleared(b)) && GetU32(a, CRC_OFFSET) == GetU32(b, CRC_OFFSET)
  {
    SliceAgrees(a, b, 16, 20);
    assert GetU32(a[16..20], 0) == GetU32(a, 16) && GetU32(b[16..20], 0) == GetU32(b, 16);
    ClearedBurst(a, b, k);
    CrcDetectsBurst(Cleared(a), Cleared(b), k);
  }

  lemma ClearedBurst(a: seq<Byte>, b: seq<Byte>, k: nat)
    requires |a| == |b| >= HEADER_BYTES
    requires Burst(MessageBits(a), MessageBits(b), k) && (k + 32 <= 128 || 160 <= k)
    ensures Burst(MessageBits(Cleared(a)), MessageBits(Cleared(b)), k)
  {
    ClearedBits(a);
    ClearedBits(b);
    SameInField(a, b);
    var p, q := MessageBits(Cleared(a)), MessageBits(Cleared(b));
    forall m | 0 <= m < |p| && !(k <= m < k + WIDTH)
      ensures p[m] == q[m]
    {
      if 128 <= m < 160 {
        assert p[m] == p[128..160][m - 128] == q[128..160][m - 128];
      }
    }
    var m :| 0 <= m < |p| && MessageBits(a)[m] != MessageBits(b)[m];
    assert p[m] != q[m];
  }

  /** A valid blob damaged by one burst of at most 32 bits, wholly inside or wholly
      outside the checksum field, is rejected, whatever is being looked for. */
  lemma BurstRejected(a: seq<Byte>, b: seq<Byte>, k: nat, magic: Uint32, recordSize: Uint16, capacity: Byte,
                      magic': Uint32, recordSize': Uint16, capacity': Byte)
    requires Burst(MessageBits(a), MessageBits(b), k)
    requires k + 32 <= 128 || k == 128 || 160 <= k
    ensures Check(a, magic, recordSize, capacity).Some? ==> Check(b, magic', recordSize', capacity').None?
  {
    if Check(a, magic, recordSize, capacity).Some? {
      assert |a| == |b|;
      if k == 128 {
        FieldDamage(a, b);
      } else {
        BodyDamage(a, b, k);
      }
    }
  }

  lemma FourByteBurst(a: seq<Byte>, b: seq<Byte>, i: nat, hi: nat)
    requires i < hi <= i + 4 && hi <= |a| == |b| && a != b
    requires a[..i] == b[..i] && a[hi..] == b[hi..]
    ensures Burst(MessageBits(a), MessageBits(b), 8 * i)
  {
    Rejoin(a, i, hi);
    Rejoin(b, i, hi);
    SharedEndBits(a[..i], a[i..hi], b[i..hi], a[hi..]);
    if MessageBits(a) == MessageBits(b) {
      BitsInjective(a, b);
    }
  }

  lemma FourBytesBurst(a: seq<Byte>, b: seq<Byte>, i: nat)
    requires |a| == |b| && a != b
    requires forall j :: 0 <= j < |a| && !(i <= j < i + 4) ==> a[j] == b[j]
    ensures Burst(MessageBits(a), MessageBits(b), 8 * i)
  {
    var j :| 0 <= j < |a| && a[j] != b[j];
    var hi := Min(i + 4, |a|);
    FourByteBurst(a, b, i, hi);
  }

  /** In particular, any change confined to four neighbouring bytes. */
  lemma FourBytesRejected(a: seq<Byte>, b: seq<Byte>, i: nat, magic: Uint32, recordSize: Uint16, capacity: Byte)
    requires |a| == |b| && a != b
    requires forall j :: 0 <= j < |a| && !(i <= j < i + 4) ==> a[j] == b[j]
    requires i + 4 <= CRC_OFFSET || i == CRC_OFFSET || HEADER_BYTES <= i
    ensures Check(a, magic, recordSize, capacity).Some? ==> Check(b, magic, recordSize, capacity).None?
  {
    FourBytesBurst(a, b, i);
    BurstRejected(a, b, 8 * i, magic, recordSize, capacity, magic, recordSize, capacity);
  }

  // ---- Records ----------------------------------------------------------------

  function KindByte(k: Kind): Byte {
    match k
    case Purchase => 0
    case Void => 1
    case Archive => 2
    case Restore => 3
    case Create => 4
    case ChangePrice => 5
  }

  /** An unknown marker reads as a purchase, the kind that must never be lost. */
  function KindOf(b: Byte): Kind {
    if b == 1 then Void
    else if b == 2 then Archive
    else if b == 3 then Restore
    else if b == 4 then Create
    else if b == 5 then ChangePrice
    else Purchase
  }

  // What a slice of the wrong size would read as; no decoder ever takes one.
  const BLANK_ENTRY := Entry([], [], [], [], [], 0, false, Purchase)
  const BLANK_PRODUCT := Product([], [], 0, false, [], false)
  const BLANK_RESIDENT := Resident([], [])
  const BLANK_TALLY := Tally([], [], 0, 0)

  function BoolByte(b: bool): Byte {
    if b then 1 else 0
  }

  function EntryTail(e: Entry): (b: seq<Byte>)
    ensures |b| == 6
  {
    U32Bytes(Unsigned(e.priceRappen)) + [BoolByte(e.freeItem), KindByte(e.kind)]
  }

  function EntryBytes(e: Entry): (b: seq<Byte>)
    ensures |b| == QUEUE_RECORD
  {
    TextField(TXN_ID, e.transactionId) + (TextField(BARCODE, e.barcode) + (TextField(NAME, e.productName)
    + (TextField(RESIDENT_ID, e.residentId) + (TextField(RESIDENT_NAME, e.residentName) + EntryTail(e)))))
  }

  function EntryOf(s: seq<Byte>): Entry {
    if |s| != QUEUE_RECORD then BLANK_ENTRY
    else
      Entry(GetText(TXN_ID, s), GetText(BARCODE, s[24..]), GetText(NAME, s[38..]), GetText(RESIDENT_ID, s[78..]),
            GetText(RESIDENT_NAME, s[90..]), Signed(GetU32(s, 114)), s[118] != 0, KindOf(s[119]))
  }

  function ClipEntry(e: Entry): Entry {
    Entry(Clip(TXN_ID, e.transactionId), Clip(BARCODE, e.barcode), Clip(NAME, e.productName),
          Clip(RESIDENT_ID, e.residentId), Clip(RESIDENT_NAME, e.residentName), e.priceRappen, e.freeItem, e.kind)
  }

  /** What the fixed-size character arrays of the source can hold. */
  predicate EntryFits(e: Entry) {
    && |e.transactionId| < TXN_ID && |e.barcode| < BARCODE && |e.productName| < NAME
    && |e.residentId| < RESIDENT_ID && |e.residentName| < RESIDENT_NAME
  }

  lemma EntryRoundTrip(e: Entry)
    ensures EntryOf(EntryBytes(e)) == ClipEntry(e)
  {
    var s := EntryBytes(e);
    var s5 := EntryTail(e);
    var s4 := TextField(RESIDENT_NAME, e.residentName) + s5;
    var s3 := TextField(RESIDENT_ID, e.residentId) + s4;
    var s2 := TextField(NAME, e.productName) + s3;
    var s1 := TextField(BARCODE, e.barcode) + s2;
    FirstField(TXN_ID, e.transactionId, s1);
    FirstField(BARCODE, e.barcode, s2);
    FirstField(NAME, e.productName, s3);
    FirstField(RESIDENT_ID, e.residentId, s4);
    FirstField(RESIDENT_NAME, e.residentName, s5);
    Tails(s, TXN_ID, BARCODE, NAME);
    Tails(s, 38, NAME, RESIDENT_ID);
    Tails(s, 78, RESIDENT_ID, RESIDENT_NAME);
    Tails(s, 90, RESIDENT_NAME, 0);
    EntryTailRoundTrip(e, s);
  }

  lemma EntryTailRoundTrip(e: Entry, s: seq<Byte>)
    requires |s| == QUEUE_RECORD && s[114..] == EntryTail(e)
    ensures Signed(GetU32(s, 114)) == e.priceRappen && (s[118] != 0) == e.freeItem && KindOf(s[119]) == e.kind
  {
    var t := s[114..];
    assert s[114..118] == t[..4] == U32Bytes(Unsigned(e.priceRappen));
    assert s[118] == t[4] && s[119] == t[5];
    U32RoundTrip(s, 114, Unsigned(e.priceRappen));
  }

  /** A text field is read back from in front of whatever follows it. */
  lemma FirstField(field: nat, t: Text, rest: seq<Byte>)
    requires field > 0
    ensures GetText(field, TextField(field, t) + rest) == Clip(field, t)
    ensures (TextField(field, t) + rest)[field..] == rest
  {
    TextRoundTrip(field, t, TextField(field, t) + rest);
  }

  lemma Tails<T>(s: seq<T>, i: nat, j: nat, k: nat)
    requires i + j + k <= |s|
    ensures s[i..][j..] == s[i + j..] && s[i + j..][k..] == s[i + j + k..]
  {}

  function FlagByte(freeItem: bool, active: bool): Byte {
    (if freeItem then 1 else 0) + (if active then 2 else 0)
  }

  function ProductNumbers(p: Product): (b: seq<Byte>)
    ensures |b| == 5
  {
    U32Bytes(Unsigned(p.priceRappen)) + [FlagByte(p.freeItem, p.active)]
  }

  function ProductBytes(p: Product): (b: seq<Byte>)
    ensures |b| == CATALOG_RECORD
  {
    TextField(BARCODE, p.barcode) + (TextField(NAME, p.name) + (ProductNumbers(p) + TextField(IMAGE_URL, p.imageUrl)))
  }

  function ProductOf(s: seq<Byte>): Product {
    if |s| != CATALOG_RECORD then BLANK_PRODUCT
    else
      var flags: int := s[58];
      Product(GetText(BARCODE, s), GetText(NAME, s[14..]), Signed(GetU32(s, 54)), flags % 2 != 0,
              GetText(IMAGE_URL, s[59..]), flags / 2 % 2 != 0)
  }

  function ClipProduct(p: Product): Product {
    Product(Clip(BARCODE, p.barcode), Clip(NAME, p.name), p.priceRappen, p.freeItem, Clip(IMAGE_URL, p.imageUrl), p.active)
  }

  predicate ProductFits(p: Product) {
    |p.barcode| < BARCODE && |p.name| < NAME && |p.imageUrl| < IMAGE_URL
  }

  lemma ProductRoundTrip(p: Product)
    ensures ProductOf(ProductBytes(p)) == ClipProduct(p)
  {
    var s := ProductBytes(p);
    var s3 := TextField(IMAGE_URL, p.imageUrl) + [];
    var s2 := ProductNumbers(p) + s3;
    var s1 := TextField(NAME, p.name) + s2;
    FirstField(BARCODE, p.barcode, s1);
    FirstField(NAME, p.name, s2);
    FirstField(IMAGE_URL, p.imageUrl, []);
    assert s3 == TextField(IMAGE_URL, p.imageUrl) && s2[5..] == s3;
    Tails(s, BARCODE, NAME, 5);
    ProductNumbersRoundTrip(p, s, s3);
  }

  lemma ProductNumbersRoundTrip(p: Product, s: seq<Byte>, rest: seq<Byte>)
    requires |s| == CATALOG_RECORD && s[54..] == ProductNumbers(p) + rest
    ensures var flags: int := s[58];
            Signed(GetU32(s, 54)) == p.priceRappen && (flags % 2 != 0) == p.freeItem && (flags / 2 % 2 != 0) == p.active
  {
    var t := s[54..];
    assert s[54..58] == t[..4] == U32Bytes(Unsigned(p.priceRappen));
    assert s[58] == t[4];
    U32RoundTrip(s, 54, Unsigned(p.priceRappen));
  }

  function ResidentBytes(r: Resident): (b: seq<Byte>)
    ensures |b| == RESIDENT_RECORD
  {
    TextField(RESIDENT_ID, r.id) + TextField(RESIDENT_NAME, r.name)
  }

  function ResidentOf(s: seq<Byte>): Resident {
    if |s| != RESIDENT_RECORD then BLANK_RESIDENT
    else
      Resident(GetText(RESIDENT_ID, s), GetText(RESIDENT_NAME, s[12..]))
  }

  function ClipResident(r: Resident): Resident {
    Resident(Clip(RESIDENT_ID, r.id), Clip(RESIDENT_NAME, r.name))
  }

  predicate ResidentFits(r: Resident) {
    |r.id| < RESIDENT_ID && |r.name| < RESIDENT_NAME
  }

  lemma ResidentRoundTrip(r: Resident)
    ensures ResidentOf(ResidentBytes(r)) == ClipResident(r)
  {
    FirstField(RESIDENT_ID, r.id, TextField(RESIDENT_NAME, r.name));
    FirstField(RESIDENT_NAME, r.name, []);
    assert TextField(RESIDENT_NAME, r.name) + [] == TextField(RESIDENT_NAME, r.name);
  }

  function TallyBytes(t: Tally): (b: seq<Byte>)
    ensures |b| == SUMMARY_RECORD
  {
    TextField(RESIDENT_ID, t.residentId) + (TextField(RESIDENT_NAME, t.residentName)
    + (U16Bytes(t.drinks) + U32Bytes(Unsigned(t.totalRappen))))
  }

  function TallyOf(s: seq<Byte>): Tally {
    if |s| != SUMMARY_RECORD then BLANK_TALLY
    else
      Tally(GetText(RESIDENT_ID, s), GetText(RESIDENT_NAME, s[12..]), GetU16(s, 36), Signed(GetU32(s, 38)))
  }

  function ClipTally(t: Tally): Tally {
    Tally(Clip(RESIDENT_ID, t.residentId), Clip(RESIDENT_NAME, t.residentName), t.drinks, t.totalRappen)
  }

  predicate TallyFits(t: Tally) {
    |t.residentId| < RESIDENT_ID && |t.residentName| < RESIDENT_NAME
  }

  lemma TallyRoundTrip(t: Tally)
    ensures TallyOf(TallyBytes(t)) == ClipTally(t)
  {
    var s := TallyBytes(t);
    var s2 := U16Bytes(t.drinks) + U32Bytes(Unsigned(t.totalRappen));
    var s1 := TextField(RESIDENT_NAME, t.residentName) + s2;
    FirstField(RESIDENT_ID, t.residentId, s1);
    FirstField(RESIDENT_NAME, t.residentName, s2);
    Tails(s, RESIDENT_ID, RESIDENT_NAME, 0);
    assert s[36..38] == s2[..2] == U16Bytes(t.drinks) && s[38..42] == s2[2..] == U32Bytes(Unsigned(t.totalRappen));
    U16RoundTrip(s, 36, t.drinks);
    U32RoundTrip(s, 38, Unsigned(t.totalRappen));
  }

  // ---- Lists of records -------------------------------------------------------

  function Payload<T>(enc: T -> seq<Byte>, xs: seq<T>): seq<Byte>
    decreases |xs|
  {
    if |xs| == 0 then [] else enc(xs[0]) + Payload(enc, xs[1..])
  }

  /** The records of a payload, any incomplete tail ignored. */
  function RecordsOf<T(!new)>(dec: seq<Byte> -> T, size: nat, s: seq<Byte>): seq<T>
    requires size > 0
    decreases |s|
  {
    if |s| < size then [] else [dec(s[..size])] + RecordsOf(dec, size, s[size..])
  }

  function Map<T, U>(f: T -> U, xs: seq<T>): (ys: seq<U>)
    ensures |ys| == |xs| && forall i :: 0 <= i < |xs| ==> ys[i] == f(xs[i])
  {
    seq(|xs|, i requires 0 <= i < |xs| => f(xs[i]))
  }

  lemma {:induction false} PayloadRoundTrip<T(!new)>(enc: T -> seq<Byte>, dec: seq<Byte> -> T, clip: T -> T, size: nat,
                                                    xs: seq<T>)
    requires size > 0
    requires forall x :: |enc(x)| == size && dec(enc(x)) == clip(x)
    ensures |Payload(enc, xs)| == |xs| * size
    ensures RecordsOf(dec, size, Payload(enc, xs)) == Map(clip, xs)
    decreases |xs|
  {
    if |xs| > 0 {
      PayloadRoundTrip(enc, dec, clip, size, xs[1..]);
      var first, rest := enc(xs[0]), Payload(enc, xs[1..]);
      assert |first + rest| == size + (|xs| - 1) * size == |xs| * size;
      assert (first + rest)[..size] == first && (first + rest)[size..] == rest;
      assert Map(clip, xs) == [clip(xs[0])] + Map(clip, xs[1..]);
    }
  }

  // ---- The four files ---------------------------------------------------------

  /** How one kind of file is laid out. */
  datatype Layout<!T> = Layout(
    magic: Uint32,
    size: Uint16,
    enc: T -> seq<Byte>,
    dec: seq<Byte> -> T,
    clip: T -> T,
    fits: T -> bool)

  ghost predicate Sound<T(!new)>(l: Layout<T>) {
    && l.size > 0
    && (forall x :: |l.enc(x)| == l.size as int && l.dec(l.enc(x)) == l.clip(x))
    && (forall x :: l.clip(x) == x <==> l.fits(x))
  }

  function Encode<T>(l: Layout<T>, xs: seq<T>, revision: Uint32, seed: Uint16): seq<Byte>
    requires |xs| < 256
  {
    Seal(Fields(l.magic, l.size, revision, |xs|, seed), Payload(l.enc, xs))
  }

  datatype File<+T> = File(records: seq<T>, revision: Uint32, seed: Uint16)

  function Decode<T(!new)>(l: Layout<T>, blob: seq<Byte>, capacity: Byte): Option<File<T>>
    requires l.size > 0
  {
    match Check(blob, l.magic, l.size, capacity)
    case None => None
    case Some(head) => Some(File(RecordsOf(l.dec, l.size, blob[HEADER_BYTES..]), head.revision, head.seed))
  }

  const QUEUE := Layout(MAGIC_QUEUE, QUEUE_RECORD, EntryBytes, EntryOf, ClipEntry, EntryFits)
  const CATALOG := Layout(MAGIC_CATALOG, CATALOG_RECORD, ProductBytes, ProductOf, ClipProduct, ProductFits)
  const RESIDENTS := Layout(MAGIC_RESIDENTS, RESIDENT_RECORD, ResidentBytes, ResidentOf, ClipResident, ResidentFits)
  const SUMMARY := Layout(MAGIC_SUMMARY, SUMMARY_RECORD, TallyBytes, TallyOf, ClipTally, TallyFits)

  lemma EntryClip(e: Entry)
    ensures ClipEntry(e) == e <==> EntryFits(e)
  {
    ClipIdentity(TXN_ID, e.transactionId);
    ClipIdentity(BARCODE, e.barcode);
    ClipIdentity(NAME, e.productName);
    ClipIdentity(RESIDENT_ID, e.residentId);
    ClipIdentity(RESIDENT_NAME, e.residentName);
  }

  lemma ClipIdentity(field: nat, t: Text)
    requires field > 0
    ensures Clip(field, t) == t <==> |t| < field
  {}

  lemma QueueSound()
    ensures Sound(QUEUE)
  {
    forall e: Entry
      ensures EntryOf(EntryBytes(e)) == ClipEntry(e) && (ClipEntry(e) == e <==> EntryFits(e))
    {
      EntryRoundTrip(e);
      EntryClip(e);
    }
  }

  lemma CatalogSound()
    ensures Sound(CATALOG)
  {
    forall p: Product
      ensures ProductOf(ProductBytes(p)) == ClipProduct(p) && (ClipProduct(p) == p <==> ProductFits(p))
    {
      ProductRoundTrip(p);
      ClipIdentity(BARCODE, p.barcode);
      ClipIdentity(NAME, p.name);
      ClipIdentity(IMAGE_URL, p.imageUrl);
    }
  }

  lemma ResidentsSound()
    ensures Sound(RESIDENTS)
  {
    forall r: Resident ensures ResidentOf(ResidentBytes(r)) == ClipResident(r) {
      ResidentRoundTrip(r);
    }
  }

  lemma SummarySound()
    ensures Sound(SUMMARY)
  {
    forall t: Tally ensures TallyOf(TallyBytes(t)) == ClipTally(t) {
      TallyRoundTrip(t);
    }
  }

  /** What is written is what is read back: any list of at most `capacity` records,
      any prices, kinds and flags, each text cut to its field; and exactly the same
      list if and only if every text fits. */
  lemma RoundTrip<T(!new)>(l: Layout<T>, xs: seq<T>, revision: Uint32, seed: Uint16, capacity: Byte)
    requires Sound(l) && |xs| <= capacity as int
    ensures Decode(l, Encode(l, xs, revision, seed), capacity) == Some(File(Map(l.clip, xs), revision, seed))
    ensures Map(l.clip, xs) == xs <==> forall i :: 0 <= i < |xs| ==> l.fits(xs[i])
  {
    PayloadRoundTrip(l.enc, l.dec, l.clip, l.size, xs);
    SealChecks(l.magic, l.size, revision, |xs|, seed, Payload(l.enc, xs), capacity);
    SealedBlob(Fields(l.magic, l.size, revision, |xs|, seed), Payload(l.enc, xs));
    if Map(l.clip, xs) == xs {
      forall i | 0 <= i < |xs| ensures l.fits(xs[i]) {
        assert Map(l.clip, xs)[i] == l.clip(xs[i]);
      }
    }
  }

  /** One kind of file is never taken for another. */
  lemma KindsDistinct<T(!new), U(!new)>(l: Layout<T>, m: Layout<U>, xs: seq<T>, revision: Uint32, seed: Uint16, capacity: Byte)
    requires Sound(l) && Sound(m) && l.magic != m.magic && |xs| < 256
    ensures Decode(m, Encode(l, xs, revision, seed), capacity).None?
  {
    var fields := Fields(l.magic, l.size, revision, |xs|, seed);
    SealedBlob(fields, Payload(l.enc, xs));
    FieldsRoundTrip(l.magic, l.size, revision, |xs|, seed, Encode(l, xs, revision, seed));
  }
}
