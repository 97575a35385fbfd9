/** The durable queue: a bounded array drained from the front and written to flash. */
module TransactionQueue {
  import opened Bits
  import opened Records
  import opened Wrappers
  import opened Settings
  import Format
  import Codec
  import opened DeviceStorage

  const PATH: Path := "/queue.bin"
  const MAX_BYTES: nat := 20 + 64 * 120

  // ---- The queue as a sequence ------------------------------------------------

  /** q without the first element that satisfies p. */
  function RemoveFirst<T>(q: seq<T>, p: T -> bool): seq<T>
    decreases |q|
  {
    if |q| == 0 then [] else if p(q[0]) then q[1..] else [q[0]] + RemoveFirst(q[1..], p)
  }

  ghost predicate IsFirst<T>(q: seq<T>, p: T -> bool, i: nat) {
    i < |q| && p(q[i]) && forall j :: 0 <= j < i ==> !p(q[j])
  }

  /** Exactly one element leaves, the first that matches; every other one stays, in
      order. Without a match nothing changes. */
  lemma {:induction false} RemoveFirstIs<T>(q: seq<T>, p: T -> bool, i: nat)
    requires IsFirst(q, p, i)
    ensures RemoveFirst(q, p) == q[..i] + q[i + 1..]
    decreases i
  {
    if i > 0 {
      RemoveFirstIs(q[1..], p, i - 1);
      assert q[..i] == [q[0]] + q[1..][..i - 1];
    }
  }

  lemma {:induction false} RemoveFirstNone<T>(q: seq<T>, p: T -> bool)
    requires forall j :: 0 <= j < |q| ==> !p(q[j])
    ensures RemoveFirst(q, p) == q
    decreases |q|
  {
    if |q| > 0 {
      RemoveFirstNone(q[1..], p);
    }
  }

  function PurchaseOf(id: Text): Entry -> bool {
    (e: Entry) => e.kind == Purchase && e.transactionId == id
  }

  predicate HoldsPurchase(q: seq<Entry>, id: Text) {
    exists i :: 0 <= i < |q| && q[i].kind == Purchase && q[i].transactionId == id
  }

  lemma {:induction false} Shortens(q: seq<Entry>, id: Text)
    requires HoldsPurchase(q, id)
    ensures |RemoveFirst(q, PurchaseOf(id))| == |q| - 1
    decreases |q|
  {
    if !(q[0].kind == Purchase && q[0].transactionId == id) {
      var i :| 0 <= i < |q| && q[i].kind == Purchase && q[i].transactionId == id;
      assert q[1..][i - 1].kind == Purchase && q[1..][i - 1].transactionId == id;
      Shortens(q[1..], id);
    }
  }

  predicate ChangesProducts(q: seq<Entry>) {
    exists i :: 0 <= i < |q| && q[i].kind.IsProductChange()
  }

  ghost predicate AllFit(q: seq<Entry>) {
    forall i :: 0 <= i < |q| ==> Format.EntryFits(q[i])
  }

  // ---- The queue on flash -----------------------------------------------------

  function Load(files: Files): Option<seq<Entry>> {
    match Lookup(files, PATH)
    case None => None
    case Some(blob) =>
      if |blob| == 0 || |blob| > MAX_BYTES then None
      else
        match Format.Decode(Format.QUEUE, blob, 64)
        case None => None
        case Some(file) => Some(file.records)
  }

  /** There is a file that read() returns. */
  predicate Readable(files: Files) {
    PATH in files && 0 < |files[PATH]| <= MAX_BYTES
  }

  /** What `begin` starts with: an absent or unreadable file is an empty queue. */
  function Booted(files: Files): seq<Entry> {
    match Load(files)
    case None => []
    case Some(q) => q
  }

  function Blob(q: seq<Entry>): seq<Byte>
    requires |q| <= MAX_QUEUED
  {
    Format.Encode(Format.QUEUE, q, 0, 0)
  }

  lemma BlobSize(q: seq<Entry>)
    requires |q| <= MAX_QUEUED
    ensures 0 < |Blob(q)| == 20 + |q| * 120 <= MAX_BYTES
  {
    Format.QueueSound();
    Format.PayloadRoundTrip(Format.EntryBytes, Format.EntryOf, Format.ClipEntry, 120, q);
    Format.SealedBlob(Format.Fields(Format.MAGIC_QUEUE, Format.QUEUE_RECORD, 0, |q|, 0), Format.Payload(Format.EntryBytes, q));
  }

  /** A queue that was written is the queue that is loaded. */
  lemma FlushThenBegin(files: Files, q: seq<Entry>)
    requires |q| <= MAX_QUEUED && AllFit(q) && Lookup(files, PATH) == Some(Blob(q))
    ensures Load(files) == Some(q)
  {
    Format.QueueSound();
    Format.RoundTrip(Format.QUEUE, q, 0, 0, 64);
    BlobSize(q);
  }

  /** Power loss after any step of a flush: the next boot finds exactly the old
      queue, exactly the new one, or none, never a mixture or a truncation; and none
      only in the window between the removal and the rename. */
  lemma FlushCrashAtomic(files: Files, q: seq<Entry>, fate: Fate, k: nat)
    requires |q| <= MAX_QUEUED && AllFit(q)
    requires k < |Trace(files, PATH, Blob(q), fate)|
    ensures var n := |Blob(q)|;
            Booted(Trace(files, PATH, Blob(q), fate)[k])
            == if k <= n || Taken(Blob(q), fate) < n then Booted(files)
               else if k == n + 1 || !fate.renames then []
               else q
  {
    CrashAtomic(files, PATH, Blob(q), fate, k);
    var s := Trace(files, PATH, Blob(q), fate)[k];
    if Lookup(s, PATH) == Some(Blob(q)) {
      FlushThenBegin(s, q);
    }
  }

  // ---- The array --------------------------------------------------------------

  class Queue {
    const flash: Flash
    const items: array<Entry>
    const blob: array<Byte>
    var count: nat
    var dirty: bool

    ghost predicate Valid()
      reads this, items
    {
      items.Length == MAX_QUEUED && blob.Length == MAX_BYTES && count <= MAX_QUEUED && AllFit(items[..count])
    }

    ghost function Contents(): (q: seq<Entry>)
      requires Valid()
      reads this, items
      ensures |q| <= MAX_QUEUED
    {
      items[..count]
    }

    constructor (flash: Flash)
      ensures Valid() && Contents() == [] && !dirty && this.flash == flash && fresh(items) && fresh(blob)
    {
      this.flash := flash;
      items := new Entry[MAX_QUEUED](_ => Format.BLANK_ENTRY);
      blob := new Byte[MAX_BYTES](_ => 0);
      count := 0;
      dirty := false;
    }

    method Full() returns (full: bool)
      requires Valid()
      ensures full == (|Contents()| >= MAX_QUEUED)
    {
      return count >= MAX_QUEUED;
    }

    method Head() returns (head: Option<Entry>)
      requires Valid()
      ensures head == if Contents() == [] then None else Some(Contents()[0])
    {
      return if count > 0 then Some(items[0]) else None;
    }

    method Push(e: Entry) returns (ok: bool)
      requires Valid() && Format.EntryFits(e)
      modifies this, items
      ensures Valid() && ok == (|old(Contents())| < MAX_QUEUED)
      ensures Contents() == if ok then old(Contents()) + [e] else old(Contents())
      ensures dirty == (old(dirty) || ok)
    {
      if count >= MAX_QUEUED {
        return false;
      }
      items[count] := e;
      count := count + 1;
      dirty := true;
      return true;
    }

    method Pop()
      requires Valid()
      modifies this, items
      ensures Valid()
      ensures Contents() == if old(Contents()) == [] then [] else old(Contents())[1..]
      ensures dirty == (old(dirty) || old(Contents()) != [])
    {
      if count == 0 {
        return;
      }
      ghost var q := Contents();
      for i := 1 to count
        invariant count == old(count)
        invariant forall j :: 0 <= j < i - 1 ==> items[j] == q[j + 1]
        invariant forall j :: i - 1 <= j < count ==> items[j] == q[j]
      {
        items[i - 1] := items[i];
      }
      count := count - 1;
      dirty := true;
      assert items[..count] == q[1..];
    }

    method HasProductChanges() returns (yes: bool)
      requires Valid()
      ensures yes == ChangesProducts(Contents())
    {
      for i := 0 to count
        invariant forall j :: 0 <= j < i ==> !items[j].kind.IsProductChange()
      {
        if items[i].kind.IsProductChange() {
          assert Contents()[i].kind.IsProductChange();
          return true;
        }
      }
      return false;
    }

    method Contains(id: Text) returns (yes: bool)
      requires Valid()
      ensures yes <==> exists i :: 0 <= i < |Contents()| && Contents()[i].transactionId == id
    {
      for i := 0 to count
        invariant forall j :: 0 <= j < i ==> items[j].transactionId != id
      {
        if items[i].transactionId == id {
          assert Contents()[i].transactionId == id;
          return true;
        }
      }
      return false;
    }

    method RemovePurchase(id: Text) returns (found: bool)
      requires Valid()
      modifies this, items
      ensures Valid() && found == HoldsPurchase(old(Contents()), id)
      ensures Contents() == RemoveFirst(old(Contents()), PurchaseOf(id))
      ensures dirty == (old(dirty) || found)
    {
      ghost var q := Contents();
      for i := 0 to count
        invariant items[..] == old(items[..]) && count == old(count) && dirty == old(dirty)
        invariant forall j :: 0 <= j < i ==> !PurchaseOf(id)(q[j])
      {
        if items[i].kind == Purchase && items[i].transactionId == id {
          RemoveFirstIs(q, PurchaseOf(id), i);
          assert q[i].kind == Purchase && q[i].transactionId == id;
          CloseGap(i);
          return true;
        }
      }
      RemoveFirstNone(q, PurchaseOf(id));
      return false;
    }

    /** The inner loop of the removal: everything behind i moves up by one. */
    method CloseGap(i: nat)
      requires Valid() && i < count
      modifies this, items
      ensures Valid() && dirty
      ensures Contents() == old(Contents())[..i] + old(Contents())[i + 1..]
    {
      ghost var q := Contents();
      for j := i + 1 to count
        invariant count == old(count)
        invariant forall m :: 0 <= m < i ==> items[m] == q[m]
        invariant forall m :: i <= m < j - 1 ==> items[m] == q[m + 1]
        invariant forall m :: j - 1 <= m < count ==> items[m] == q[m]
      {
        items[j - 1] := items[j];
      }
      count := count - 1;
      dirty := true;
      assert items[..count] == q[..i] + q[i + 1..];
    }

    method Flush(fate: Fate)
      requires Valid() && flash.Valid()
      modifies this`dirty, blob, flash`files, flash`history
      ensures Valid() && flash.Valid() && Contents() == old(Contents())
      ensures dirty == (old(dirty) && !(flash.mounted && WriteSucceeds(Blob(Contents()), fate)))
      ensures !old(dirty) || !flash.mounted ==> flash.files == old(flash.files) && flash.history == old(flash.history)
      ensures old(dirty) && flash.mounted ==>
                && flash.files == Last(old(flash.files), Trace(old(flash.files), PATH, Blob(Contents()), fate))
                && flash.history == old(flash.history) + Trace(old(flash.files), PATH, Blob(Contents()), fate)
    {
      if !dirty {
        return;
      }
      BlobSize(Contents());
      var len := Codec.EncodeQueue(items[..count], blob);
      assert blob[..len] == Blob(Contents());
      var ok := flash.Write(PATH, blob[..len], fate);
      if ok {
        dirty := false;
      }
    }

    /** Starts with what flash decodes to. A volume that is not mounted counts as an
        empty queue; a file that is there and cannot be read makes the queue dirty. */
    method Begin()
      requires Valid() && flash.Valid()
      modifies this, items
      ensures Valid() && Contents() == if flash.mounted then Booted(flash.files) else []
      ensures dirty == (flash.mounted && Readable(flash.files) && Load(flash.files).None?)
    {
      count := 0;
      dirty := false;
      var data := flash.Read(PATH, MAX_BYTES);
      if data.Some? {
        var ok, n := Codec.DecodeQueue(data.value, items, 64);
        if ok {
          count := n;
          DecodedFit(data.value);
          return;
        }
        dirty := true;
      }
    }
  }

  /** Decoded texts always fit their fields again. */
  lemma DecodedFit(blob: seq<Byte>)
    ensures var file := Format.Decode(Format.QUEUE, blob, 64); file.Some? ==> AllFit(file.value.records)
  {
    if |blob| >= Format.HEADER_BYTES {
      RecordsFit(blob[Format.HEADER_BYTES..]);
    }
  }

  lemma {:induction false} RecordsFit(s: seq<Byte>)
    ensures AllFit(Format.RecordsOf(Format.EntryOf, 120, s))
    decreases |s|
  {
    if |s| >= 120 {
      RecordsFit(s[120..]);
    }
  }
}
