/** The compiled-in limits and the records the terminal keeps. */
module Settings {
  const MAX_ACTIVE_PRODUCTS: nat := 8
  const MAX_PRODUCTS: nat := 32
  const MAX_RESIDENTS: nat := 11
  const MAX_QUEUED: nat := 64

  const SYNC_ON_WAKE_MIN_MS: nat := 60_000
  const SYNC_INTERVAL_MS: nat := 600_000
  const MOCK_SUBMIT_MS: nat := 800
  const SUCCESS_DWELL_MS: nat := 6000
  const UNDO_DWELL_MS: nat := 2000
  const SUMMARY_DWELL_MS: nat := 15000

  const REQUEST_TIMEOUT_MS: nat := 12000
  const WIFI_CONNECT_TIMEOUT_MS: nat := 15000
}

module Wrappers {
  datatype Option<+T> = None | Some(value: T)
}

module Sets {
  lemma Smaller<T>(a: set<T>, b: set<T>, x: T)
    requires a <= b && x in b && x !in a
    ensures |a| < |b|
  {
    Subset(a, b - {x});
  }

  lemma {:induction false} Subset<T>(a: set<T>, b: set<T>)
    requires a <= b
    ensures |a| <= |b|
    decreases |a|
  {
    if a != {} {
      var x :| x in a;
      Subset(a - {x}, b - {x});
    }
  }
}

module Records {
  import opened Bits

  type Int32 = x: int | -0x8000_0000 <= x < 0x8000_0000

  /** What a C string holds: any bytes but the terminator. */
  type Text = s: seq<Byte> | 0 !in s

  datatype Kind = Purchase | Void | Archive | Restore | Create | ChangePrice {
    predicate IsProductChange() {
      Archive? || Restore? || Create? || ChangePrice?
    }
  }

  datatype Entry = Entry(
    transactionId: Text,
    barcode: Text,
    productName: Text,
    residentId: Text,
    residentName: Text,
    priceRappen: Int32,
    freeItem: bool,
    kind: Kind)

  datatype Product = Product(
    barcode: Text,
    name: Text,
    priceRappen: Int32,
    freeItem: bool,
    imageUrl: Text,
    active: bool)

  datatype Resident = Resident(id: Text, name: Text)

  datatype Tally = Tally(residentId: Text, residentName: Text, drinks: Uint16, totalRappen: Int32)
}
