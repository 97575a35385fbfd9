/** The encoders and decoders themselves: byte buffers filled and read in place,
    each proved against the format. */
module Codec {
  import opened Bits
  import opened Records
  import opened Wrappers
  import opened Crc32
  import opened Format

  // ---- Writing into a buffer --------------------------------------------------

  /** s with the bytes from `at` replaced by `piece`. */
  function Splice<T>(s: seq<T>, at: nat, piece: seq<T>): (r: seq<T>)
    requires at + |piece| <= |s|
    ensures |r| == |s|
  {
    s[..at] + piece + s[at + |piece|..]
  }

  lemma SpliceTwice<T>(s: seq<T>, at: nat, x: seq<T>, y: seq<T>)
    requires at + |x| + |y| <= |s|
    ensures Splice(Splice(s, at, x), at + |x|, y) == Splice(s, at, x + y)
  {}

  method PutByte(out: array<Byte>, at: nat, b: Byte)
    requires at < out.Length
    modifies out
    ensures out[..] == Splice(old(out[..]), at, [b])
  {
    out[at] := b;
  }

  method PutU16(out: array<Byte>, at: nat, v: Uint16)
    requires at + 2 <= out.Length
    modifies out
    ensures out[..] == Splice(old(out[..]), at, U16Bytes(v))
  {
    var x: int := v;
    out[at] := x % 0x100;
    out[at + 1] := x / 0x100;
  }

  method PutU32(out: array<Byte>, at: nat, v: Uint32)
    requires at + 4 <= out.Length
    modifies out
    ensures out[..] == Splice(old(out[..]), at, U32Bytes(v))
  {
    var x: int := v;
    PutU16(out, at, x % 0x1_0000);
    PutU16(out, at + 2, x / 0x1_0000);
    SpliceTwice(old(out[..]), at, U16Bytes(x % 0x1_0000), U16Bytes(x / 0x1_0000));
  }

  method PutText(out: array<Byte>, at: nat, field: nat, src: Text)
    requires field > 0 && at + field <= out.Length
    modifies out
    ensures out[..] == Splice(old(out[..]), at, TextField(field, src))
  {
    for i := 0 to field
      invariant forall j :: at <= j < at + i ==> out[j] == 0
      invariant forall j :: 0 <= j < out.Length && !(at <= j < at + field) ==> out[j] == old(out[j])
    {
      out[at + i] := 0;
    }
    var n := Min(|src|, field - 1);
    for i := 0 to n
      invariant forall j :: 0 <= j < i ==> out[at + j] == src[j]
      invariant forall j :: at + i <= j < at + field ==> out[j] == 0
      invariant forall j :: 0 <= j < out.Length && !(at <= j < at + field) ==> out[j] == old(out[j])
    {
      out[at + i] := src[i];
    }
    ghost var want := Splice(old(out[..]), at, TextField(field, src));
    forall j | 0 <= j < out.Length ensures out[..][j] == want[j] {
      if at <= j < at + field {
        assert want[j] == TextField(field, src)[j - at];
      }
    }
  }

  method PutFields(out: array<Byte>, magic: Uint32, recordSize: Uint16, revision: Uint32, count: Uint16, seed: Uint16)
    requires out.Length >= HEADER_BYTES
    modifies out
    ensures out[..] == Splice(old(out[..]), 0, Fields(magic, recordSize, revision, count, seed))
  {
    ghost var s := out[..];
    PutU32(out, 0, magic);
    PutU16(out, 4, FORMAT_VERSION);
    SpliceTwice(s, 0, U32Bytes(magic), U16Bytes(FORMAT_VERSION));
    ghost var h := U32Bytes(magic) + U16Bytes(FORMAT_VERSION);
    PutU16(out, 6, recordSize);
    SpliceTwice(s, 0, h, U16Bytes(recordSize));
    h := h + U16Bytes(recordSize);
    PutU32(out, 8, revision);
    SpliceTwice(s, 0, h, U32Bytes(revision));
    h := h + U32Bytes(revision);
    PutU16(out, 12, count);
    SpliceTwice(s, 0, h, U16Bytes(count));
    h := h + U16Bytes(count);
    PutU16(out, 14, seed);
    SpliceTwice(s, 0, h, U16Bytes(seed));
  }

  lemma SealInPlace<T>(s: seq<T>, len: nat, field: seq<T>, crc: seq<T>)
    requires HEADER_BYTES <= len <= |s| && |field| == |crc| == 4
    ensures Splice(s, CRC_OFFSET, field)[..len] == s[..CRC_OFFSET] + field + s[HEADER_BYTES..len]
    ensures Splice(Splice(s, CRC_OFFSET, field), CRC_OFFSET, crc)
            == Splice(s, 0, s[..CRC_OFFSET] + crc + s[HEADER_BYTES..len])
  {}

  method ComputeCrc(data: seq<Byte>) returns (crc: Uint32)
    ensures crc == Crc(data)
  {
    var c := CrcFeed(ONES, data);
    WordBound(Not(c));
    crc := ValueOf(Not(c));
  }

  method Finalise(out: array<Byte>, len: nat)
    requires HEADER_BYTES <= len <= out.Length
    modifies out
    ensures out[..] == Splice(old(out[..]), 0, Seal(old(out[..CRC_OFFSET]), old(out[HEADER_BYTES..len])))
  {
    ghost var s := out[..];
    PutU32(out, CRC_OFFSET, 0);
    var crc := ComputeCrc(out[..len]);
    SealInPlace(s, len, U32Bytes(0), U32Bytes(crc));
    ZeroIsCleared();
    PutU32(out, CRC_OFFSET, crc);
  }

  lemma ZeroIsCleared()
    ensures U32Bytes(0) == CLEARED
  {
    var zero: Uint32 := 0;
    assert zero as int % 0x1_0000 == 0 && zero as int / 0x1_0000 == 0;
    assert U16Bytes(0) == [0, 0];
  }

  // ---- Encoders ---------------------------------------------------------------

  lemma {:induction false} PayloadSnoc<T>(enc: T -> seq<Byte>, xs: seq<T>, x: T)
    ensures Payload(enc, xs + [x]) == Payload(enc, xs) + enc(x)
    decreases |xs|
  {
    if |xs| == 0 {
      assert Payload(enc, [x]) == enc(x) + Payload(enc, []);
      assert xs + [x] == [x];
    } else {
      assert (xs + [x])[1..] == xs[1..] + [x];
      PayloadSnoc(enc, xs[1..], x);
    }
  }

  /** Writing the next record directly behind the last extends the payload. */
  /** The i-th record goes behind the first i. */
  lemma NextRecord<T>(s: seq<Byte>, enc: T -> seq<Byte>, xs: seq<T>, i: nat, size: nat, p: nat)
    requires i < |xs| && |enc(xs[i])| == size && |Payload(enc, xs[..i])| == i * size
    requires p == HEADER_BYTES + i * size && HEADER_BYTES + |xs| * size <= |s|
    ensures p + size <= |s| && |Payload(enc, xs[..i + 1])| == (i + 1) * size && p + size == HEADER_BYTES + (i + 1) * size
    ensures Splice(Splice(s, HEADER_BYTES, Payload(enc, xs[..i])), p, enc(xs[i]))
            == Splice(s, HEADER_BYTES, Payload(enc, xs[..i + 1]))
  {
    Behind(i, |xs|, size);
    PayloadSnoc(enc, xs[..i], xs[i]);
    assert xs[..i + 1] == xs[..i] + [xs[i]];
    SpliceTwice(s, HEADER_BYTES, Payload(enc, xs[..i]), enc(xs[i]));
  }

  lemma Behind(i: nat, n: nat, size: nat)
    requires i < n
    ensures i * size + size == (i + 1) * size <= n * size
  {
    assert n * size == (i + 1) * size + (n - i - 1) * size;
  }

  /** Header fields, then payload, then the seal: the buffer starts with the blob
      and keeps its old bytes behind it. */
  lemma BlobInPlace(s: seq<Byte>, fields: seq<Byte>, payload: seq<Byte>)
    requires |fields| == CRC_OFFSET && HEADER_BYTES + |payload| <= |s|
    ensures var len := HEADER_BYTES + |payload|;
            var t := Splice(Splice(s, 0, fields), HEADER_BYTES, payload);
            Splice(t, 0, Seal(t[..CRC_OFFSET], t[HEADER_BYTES..len])) == Seal(fields, payload) + s[len..]
  {
    var len := HEADER_BYTES + |payload|;
    var t := Splice(Splice(s, 0, fields), HEADER_BYTES, payload);
    assert t[..CRC_OFFSET] == fields && t[HEADER_BYTES..len] == payload && t[len..] == s[len..];
  }

  // The queue.

  method PutEntry(out: array<Byte>, p: nat, e: Entry)
    requires p + QUEUE_RECORD <= out.Length
    modifies out
    ensures out[..] == Splice(old(out[..]), p, EntryBytes(e))
  {
    ghost var s := out[..];
    ghost var b := TextField(TXN_ID, e.transactionId);
    PutText(out, p, TXN_ID, e.transactionId);
    PutText(out, p + 24, BARCODE, e.barcode);
    SpliceTwice(s, p, b, TextField(BARCODE, e.barcode));
    b := b + TextField(BARCODE, e.barcode);
    PutText(out, p + 38, NAME, e.productName);
    SpliceTwice(s, p, b, TextField(NAME, e.productName));
    b := b + TextField(NAME, e.productName);
    PutText(out, p + 78, RESIDENT_ID, e.residentId);
    SpliceTwice(s, p, b, TextField(RESIDENT_ID, e.residentId));
    b := b + TextField(RESIDENT_ID, e.residentId);
    PutText(out, p + 90, RESIDENT_NAME, e.residentName);
    SpliceTwice(s, p, b, TextField(RESIDENT_NAME, e.residentName));
    b := b + TextField(RESIDENT_NAME, e.residentName);
    PutEntryTail(out, p + 114, e);
    SpliceTwice(s, p, b, EntryTail(e));
    assert b + EntryTail(e) == EntryBytes(e);
  }

  method PutEntryTail(out: array<Byte>, at: nat, e: Entry)
    requires at + 6 <= out.Length
    modifies out
    ensures out[..] == Splice(old(out[..]), at, EntryTail(e))
  {
    ghost var s := out[..];
    PutU32(out, at, Unsigned(e.priceRappen));
    out[at + 4] := BoolByte(e.freeItem);
    out[at + 5] := KindByte(e.kind);
    assert out[..] == Splice(s, at, EntryTail(e));
  }

  method PutEntries(xs: seq<Entry>, out: array<Byte>)
    requires HEADER_BYTES + |xs| * QUEUE_RECORD <= out.Length
    modifies out
    ensures |Payload(EntryBytes, xs)| == |xs| * QUEUE_RECORD
    ensures out[..] == Splice(old(out[..]), HEADER_BYTES, Payload(EntryBytes, xs))
  {
    ghost var s := out[..];
    var p := HEADER_BYTES;
    for i := 0 to |xs|
      invariant p == HEADER_BYTES + i * QUEUE_RECORD && |Payload(EntryBytes, xs[..i])| == i * QUEUE_RECORD
      invariant out[..] == Splice(s, HEADER_BYTES, Payload(EntryBytes, xs[..i]))
    {
      NextRecord(s, EntryBytes, xs, i, QUEUE_RECORD, p);
      PutEntry(out, p, xs[i]);
      p := p + QUEUE_RECORD;
    }
    assert xs[..|xs|] == xs;
  }

  method EncodeQueue(xs: seq<Entry>, out: array<Byte>) returns (len: nat)
    requires |xs| < 256
    modifies out
    ensures len == if out.Length < HEADER_BYTES + |xs| * QUEUE_RECORD then 0 else HEADER_BYTES + |xs| * QUEUE_RECORD
    ensures len == 0 ==> out[..] == old(out[..])
    ensures len > 0 ==> out[..] == Encode(QUEUE, xs, 0, 0) + old(out[..])[len..]
  {
    len := HEADER_BYTES + |xs| * QUEUE_RECORD;
    if out.Length < len {
      return 0;
    }
    ghost var s := out[..];
    PutFields(out, MAGIC_QUEUE, QUEUE_RECORD, 0, |xs|, 0);
    PutEntries(xs, out);
    Finalise(out, len);
    BlobInPlace(s, Fields(MAGIC_QUEUE, QUEUE_RECORD, 0, |xs|, 0), Payload(EntryBytes, xs));
  }

  // The catalog.

  method PutProduct(out: array<Byte>, p: nat, item: Product)
    requires p + CATALOG_RECORD <= out.Length
    modifies out
    ensures out[..] == Splice(old(out[..]), p, ProductBytes(item))
  {
    ghost var s := out[..];
    ghost var b := TextField(BARCODE, item.barcode);
    PutText(out, p, BARCODE, item.barcode);
    PutText(out, p + 14, NAME, item.name);
    SpliceTwice(s, p, b, TextField(NAME, item.name));
    b := b + TextField(NAME, item.name);
    PutU32(out, p + 54, Unsigned(item.priceRappen));
    SpliceTwice(s, p, b, U32Bytes(Unsigned(item.priceRappen)));
    b := b + U32Bytes(Unsigned(item.priceRappen));
    PutByte(out, p + 58, FlagByte(item.freeItem, item.active));
    SpliceTwice(s, p, b, [FlagByte(item.freeItem, item.active)]);
    b := b + [FlagByte(item.freeItem, item.active)];
    PutText(out, p + 59, IMAGE_URL, item.imageUrl);
    SpliceTwice(s, p, b, TextField(IMAGE_URL, item.imageUrl));
    assert b + TextField(IMAGE_URL, item.imageUrl) == ProductBytes(item);
  }

  method PutProducts(xs: seq<Product>, out: array<Byte>)
    requires HEADER_BYTES + |xs| * CATALOG_RECORD <= out.Length
    modifies out
    ensures |Payload(ProductBytes, xs)| == |xs| * CATALOG_RECORD
    ensures out[..] == Splice(old(out[..]), HEADER_BYTES, Payload(ProductBytes, xs))
  {
    ghost var s := out[..];
    var p := HEADER_BYTES;
    for i := 0 to |xs|
      invariant p == HEADER_BYTES + i * CATALOG_RECORD && |Payload(ProductBytes, xs[..i])| == i * CATALOG_RECORD
      invariant out[..] == Splice(s, HEADER_BYTES, Payload(ProductBytes, xs[..i]))
    {
      NextRecord(s, ProductBytes, xs, i, CATALOG_RECORD, p);
      PutProduct(out, p, xs[i]);
      p := p + CATALOG_RECORD;
    }
    assert xs[..|xs|] == xs;
  }

  method EncodeCatalog(xs: seq<Product>, revision: Uint32, seed: Uint16, out: array<Byte>) returns (len: nat)
    requires |xs| < 256
    modifies out
    ensures len == if out.Length < HEADER_BYTES + |xs| * CATALOG_RECORD then 0 else HEADER_BYTES + |xs| * CATALOG_RECORD
    ensures len == 0 ==> out[..] == old(out[..])
    ensures len > 0 ==> out[..] == Encode(CATALOG, xs, revision, seed) + old(out[..])[len..]
  {
    len := HEADER_BYTES + |xs| * CATALOG_RECORD;
    if out.Length < len {
      return 0;
    }
    ghost var s := out[..];
    PutFields(out, MAGIC_CATALOG, CATALOG_RECORD, revision, |xs|, seed);
    PutProducts(xs, out);
    Finalise(out, len);
    BlobInPlace(s, Fields(MAGIC_CATALOG, CATALOG_RECORD, revision, |xs|, seed), Payload(ProductBytes, xs));
  }

  // The residents.

  method PutResident(out: array<Byte>, p: nat, r: Resident)
    requires p + RESIDENT_RECORD <= out.Length
    modifies out
    ensures out[..] == Splice(old(out[..]), p, ResidentBytes(r))
  {
    PutText(out, p, RESIDENT_ID, r.id);
    PutText(out, p + 12, RESIDENT_NAME, r.name);
    SpliceTwice(old(out[..]), p, TextField(RESIDENT_ID, r.id), TextField(RESIDENT_NAME, r.name));
  }

  method PutResidentRecords(xs: seq<Resident>, out: array<Byte>)
    requires HEADER_BYTES + |xs| * RESIDENT_RECORD <= out.Length
    modifies out
    ensures |Payload(ResidentBytes, xs)| == |xs| * RESIDENT_RECORD
    ensures out[..] == Splice(old(out[..]), HEADER_BYTES, Payload(ResidentBytes, xs))
  {
    ghost var s := out[..];
    var p := HEADER_BYTES;
    for i := 0 to |xs|
      invariant p == HEADER_BYTES + i * RESIDENT_RECORD && |Payload(ResidentBytes, xs[..i])| == i * RESIDENT_RECORD
      invariant out[..] == Splice(s, HEADER_BYTES, Payload(ResidentBytes, xs[..i]))
    {
      NextRecord(s, ResidentBytes, xs, i, RESIDENT_RECORD, p);
      PutResident(out, p, xs[i]);
      p := p + RESIDENT_RECORD;
    }
    assert xs[..|xs|] == xs;
  }

  method EncodeResidents(xs: seq<Resident>, out: array<Byte>) returns (len: nat)
    requires |xs| < 256
    modifies out
    ensures len == if out.Length < HEADER_BYTES + |xs| * RESIDENT_RECORD then 0 else HEADER_BYTES + |xs| * RESIDENT_RECORD
    ensures len == 0 ==> out[..] == old(out[..])
    ensures len > 0 ==> out[..] == Encode(RESIDENTS, xs, 0, 0) + old(out[..])[len..]
  {
    len := HEADER_BYTES + |xs| * RESIDENT_RECORD;
    if out.Length < len {
      return 0;
    }
    ghost var s := out[..];
    PutFields(out, MAGIC_RESIDENTS, RESIDENT_RECORD, 0, |xs|, 0);
    PutResidentRecords(xs, out);
    Finalise(out, len);
    BlobInPlace(s, Fields(MAGIC_RESIDENTS, RESIDENT_RECORD, 0, |xs|, 0), Payload(ResidentBytes, xs));
  }

  // The consumption summary.

  method PutTally(out: array<Byte>, p: nat, t: Tally)
    requires p + SUMMARY_RECORD <= out.Length
    modifies out
    ensures out[..] == Splice(old(out[..]), p, TallyBytes(t))
  {
    ghost var s := out[..];
    ghost var b := TextField(RESIDENT_ID, t.residentId);
    PutText(out, p, RESIDENT_ID, t.residentId);
    PutText(out, p + 12, RESIDENT_NAME, t.residentName);
    SpliceTwice(s, p, b, TextField(RESIDENT_NAME, t.residentName));
    b := b + TextField(RESIDENT_NAME, t.residentName);
    PutU16(out, p + 36, t.drinks);
    SpliceTwice(s, p, b, U16Bytes(t.drinks));
    b := b + U16Bytes(t.drinks);
    PutU32(out, p + 38, Unsigned(t.totalRappen));
    SpliceTwice(s, p, b, U32Bytes(Unsigned(t.totalRappen)));
    assert b + U32Bytes(Unsigned(t.totalRappen)) == TallyBytes(t);
  }

  method PutTallies(xs: seq<Tally>, out: array<Byte>)
    requires HEADER_BYTES + |xs| * SUMMARY_RECORD <= out.Length
    modifies out
    ensures |Payload(TallyBytes, xs)| == |xs| * SUMMARY_RECORD
    ensures out[..] == Splice(old(out[..]), HEADER_BYTES, Payload(TallyBytes, xs))
  {
    ghost var s := out[..];
    var p := HEADER_BYTES;
    for i := 0 to |xs|
      invariant p == HEADER_BYTES + i * SUMMARY_RECORD && |Payload(TallyBytes, xs[..i])| == i * SUMMARY_RECORD
      invariant out[..] == Splice(s, HEADER_BYTES, Payload(TallyBytes, xs[..i]))
    {
      NextRecord(s, TallyBytes, xs, i, SUMMARY_RECORD, p);
      PutTally(out, p, xs[i]);
      p := p + SUMMARY_RECORD;
    }
    assert xs[..|xs|] == xs;
  }

  method EncodeSummary(xs: seq<Tally>, out: array<Byte>) returns (len: nat)
    requires |xs| < 256
    modifies out
    ensures len == if out.Length < HEADER_BYTES + |xs| * SUMMARY_RECORD then 0 else HEADER_BYTES + |xs| * SUMMARY_RECORD
    ensures len == 0 ==> out[..] == old(out[..])
    ensures len > 0 ==> out[..] == Encode(SUMMARY, xs, 0, 0) + old(out[..])[len..]
  {
    len := HEADER_BYTES + |xs| * SUMMARY_RECORD;
    if out.Length < len {
      return 0;
    }
    ghost var s := out[..];
    PutFields(out, MAGIC_SUMMARY, SUMMARY_RECORD, 0, |xs|, 0);
    PutTallies(xs, out);
    Finalise(out, len);
    BlobInPlace(s, Fields(MAGIC_SUMMARY, SUMMARY_RECORD, 0, |xs|, 0), Payload(TallyBytes, xs));
  }

  // ---- Decoders ---------------------------------------------------------------

  /** The checksum over a header copy with its field cleared, then over the rest. */
  method CheckBlob(input: seq<Byte>, magic: Uint32, recordSize: Uint16, capacity: Byte) returns (head: Option<Head>)
    ensures head == Check(input, magic, recordSize, capacity)
  {
    if |input| < HEADER_BYTES || GetU32(input, 0) != magic || GetU16(input, 4) != FORMAT_VERSION
       || GetU16(input, 6) != recordSize {
      return None;
    }
    var count: nat := GetU16(input, 12);
    if count > capacity as int || |input| != HEADER_BYTES + count * recordSize {
      return None;
    }
    var crc := TwoSpanCrc(input);
    if crc != GetU32(input, CRC_OFFSET) {
      return None;
    }
    return Some(Head(count, GetU32(input, 8), GetU16(input, 14)));
  }

  method TwoSpanCrc(input: seq<Byte>) returns (crc: Uint32)
    requires |input| >= HEADER_BYTES
    ensures crc == Crc(Cleared(input))
  {
    var head := input[..CRC_OFFSET] + CLEARED;
    var c := CrcFeed(ONES, head);
    c := CrcFeed(c, input[HEADER_BYTES..]);
    FeedAppend(ONES, head, input[HEADER_BYTES..]);
    WordBound(Not(c));
    crc := ValueOf(Not(c));
  }

  lemma {:induction false} RecordCount<T(!new)>(dec: seq<Byte> -> T, size: nat, s: seq<Byte>, n: nat)
    requires size > 0 && |s| == n * size
    ensures |RecordsOf(dec, size, s)| == n
    decreases n
  {
    if n > 0 {
      assert n * size == size + (n - 1) * size;
      RecordCount(dec, size, s[size..], n - 1);
    }
  }

  /** Peeling the next record off the front of the payload. */
  lemma NextRead<T(!new)>(dec: seq<Byte> -> T, size: nat, input: seq<Byte>, p: nat)
    requires size > 0 && p <= |input| && |RecordsOf(dec, size, input[p..])| > 0
    ensures p + size <= |input|
    ensures RecordsOf(dec, size, input[p..]) == [dec(input[p..p + size])] + RecordsOf(dec, size, input[p + size..])
  {
    assert input[p..][..size] == input[p..p + size] && input[p..][size..] == input[p + size..];
  }

  /** The decoding loop: one record after another, through a moving pointer. */
  method ReadRecords<T(!new)>(dec: seq<Byte> -> T, size: nat, input: seq<Byte>, entries: array<T>, count: nat)
    requires size > 0 && count <= entries.Length && |input| == HEADER_BYTES + count * size
    modifies entries
    ensures |RecordsOf(dec, size, input[HEADER_BYTES..])| == count
    ensures entries[..] == RecordsOf(dec, size, input[HEADER_BYTES..]) + old(entries[..])[count..]
  {
    ghost var records := RecordsOf(dec, size, input[HEADER_BYTES..]);
    RecordCount(dec, size, input[HEADER_BYTES..], count);
    var p := HEADER_BYTES;
    for i := 0 to count
      invariant HEADER_BYTES <= p <= |input|
      invariant records[i..] == RecordsOf(dec, size, input[p..])
      invariant forall j :: 0 <= j < i ==> entries[j] == records[j]
      invariant forall j :: i <= j < entries.Length ==> entries[j] == old(entries[j])
    {
      NextRead(dec, size, input, p);
      entries[i] := dec(input[p..p + size]);
      p := p + size;
    }
  }

  method DecodeQueue(input: seq<Byte>, entries: array<Entry>, capacity: Byte) returns (ok: bool, count: Byte)
    requires capacity as int <= entries.Length
    modifies entries
    ensures match Decode(QUEUE, input, capacity)
            case None => !ok && entries[..] == old(entries[..])
            case Some(file) => ok && count as int == |file.records| <= entries.Length
                               && entries[..] == file.records + old(entries[..])[count..]
  {
    var head := CheckBlob(input, MAGIC_QUEUE, QUEUE_RECORD, capacity);
    if head.None? {
      return false, 0;
    }
    ReadRecords(EntryOf, QUEUE_RECORD, input, entries, head.value.count);
    return true, head.value.count;
  }

  method DecodeCatalog(input: seq<Byte>, entries: array<Product>, capacity: Byte)
    returns (ok: bool, count: Byte, revision: Uint32, seed: Uint16)
    requires capacity as int <= entries.Length
    modifies entries
    ensures match Decode(CATALOG, input, capacity)
            case None => !ok && entries[..] == old(entries[..])
            case Some(file) => ok && count as int == |file.records| <= entries.Length
                               && entries[..] == file.records + old(entries[..])[count..]
                               && revision == file.revision && seed == file.seed
  {
    var head := CheckBlob(input, MAGIC_CATALOG, CATALOG_RECORD, capacity);
    if head.None? {
      return false, 0, 0, 0;
    }
    ReadRecords(ProductOf, CATALOG_RECORD, input, entries, head.value.count);
    return true, head.value.count, head.value.revision, head.value.seed;
  }

  method DecodeResidents(input: seq<Byte>, entries: array<Resident>, capacity: Byte) returns (ok: bool, count: Byte)
    requires capacity as int <= entries.Length
    modifies entries
    ensures match Decode(RESIDENTS, input, capacity)
            case None => !ok && entries[..] == old(entries[..])
            case Some(file) => ok && count as int == |file.records| <= entries.Length
                               && entries[..] == file.records + old(entries[..])[count..]
  {
    var head := CheckBlob(input, MAGIC_RESIDENTS, RESIDENT_RECORD, capacity);
    if head.None? {
      return false, 0;
    }
    ReadRecords(ResidentOf, RESIDENT_RECORD, input, entries, head.value.count);
    return true, head.value.count;
  }

  method DecodeSummary(input: seq<Byte>, entries: array<Tally>, capacity: Byte) returns (ok: bool, count: Byte)
    requires capacity as int <= entries.Length
    modifies entries
    ensures match Decode(SUMMARY, input, capacity)
            case None => !ok && entries[..] == old(entries[..])
            case Some(file) => ok && count as int == |file.records| <= entries.Length
                               && entries[..] == file.records + old(entries[..])[count..]
  {
    var head := CheckBlob(input, MAGIC_SUMMARY, SUMMARY_RECORD, capacity);
    if head.None? {
      return false, 0;
    }
    ReadRecords(TallyOf, SUMMARY_RECORD, input, entries, head.value.count);
    return true, head.value.count;
  }
}
