/** The spreadsheet behind the terminal, as its documented contract: a purchase is
    inserted unless its id is present, a reversal marks the row, creating a product
    upserts it, the other product changes need the product to exist, and the shelf is
    capped. */
module Server {
  import opened Records
  import opened Settings

  datatype Row = Row(purchase: Entry, voided: bool) {
    function Id(): Text {
      purchase.transactionId
    }
  }

  type Ledger = seq<Row>

  /** A product is found by its barcode, or by name when it has none. */
  datatype Key = ByBarcode(barcode: Text) | ByName(name: Text)

  datatype Shelf = Shelf(name: Text, priceRappen: Int32, freeItem: bool, active: bool)

  type Products = map<Key, Shelf>

  datatype Sheet = Sheet(ledger: Ledger, products: Products)

  datatype Ack = Accepted(duplicate: bool) | Refused

  function KeyOf(e: Entry): Key {
    if |e.barcode| > 0 then ByBarcode(e.barcode) else ByName(e.productName)
  }

  function Price(e: Entry): Int32 {
    if e.freeItem then 0 else e.priceRappen
  }

  predicate Has(rows: Ledger, id: Text) {
    exists i :: 0 <= i < |rows| && rows[i].Id() == id
  }

  function Record(rows: Ledger, e: Entry): Ledger {
    if Has(rows, e.transactionId) then rows else rows + [Row(e, false)]
  }

  /** Void the first row of every id in the set. */
  function VoidAll(rows: Ledger, ids: set<Text>): (voided: Ledger)
    ensures |voided| == |rows|
    ensures forall i :: 0 <= i < |rows| ==> voided[i].purchase == rows[i].purchase
    decreases |rows|
  {
    if |rows| == 0 then []
    else
      var first := rows[0];
      [if first.Id() in ids then first.(voided := true) else first] + VoidAll(rows[1..], ids - {first.Id()})
  }

  /** Shown on the terminal's grid; a nameless row is not. */
  predicate OnShelf(p: Shelf) {
    p.active && p.name != []
  }

  function Shelved(products: Products): set<Key> {
    set key | key in products && OnShelf(products[key])
  }

  /** The cap counts a product that is on the shelf already as having its place. An entry
      without a barcode is taken to mean any product of its name. */
  predicate Room(products: Products, e: Entry) {
    || |Shelved(products)| < MAX_ACTIVE_PRODUCTS
    || exists key :: key in products && OnShelf(products[key])
                     && if |e.barcode| > 0 then key == ByBarcode(e.barcode) else products[key].name == e.productName
  }

  /** One change of a product's row. The shelf cap applies to a product that is restored
      or created as a new row; creating a known one writes its row in any case. */
  predicate Takes(products: Products, e: Entry) {
    if e.kind == Create then KeyOf(e) in products || Room(products, e)
    else KeyOf(e) in products && (e.kind == Restore ==> Room(products, e))
  }

  /** The change itself, where it is not refused. */
  function Changed(products: Products, e: Entry): Products {
    var key := KeyOf(e);
    if e.kind == Create then products[key := Shelf(e.productName, Price(e), e.freeItem, true)]
    else if key !in products then products
    else if e.kind == ChangePrice then products[key := products[key].(priceRappen := Price(e), freeItem := e.freeItem)]
    else products[key := products[key].(active := e.kind == Restore)]
  }

  function Patched(products: Products, e: Entry): Products {
    if Takes(products, e) then Changed(products, e) else products
  }

  /** One request taking effect. `admits` is the server's validation of the entry. */
  function Served(s: Sheet, e: Entry, admits: bool): Sheet {
    if !admits then s
    else if e.kind == Purchase then s.(ledger := Record(s.ledger, e))
    else if e.kind == Void then s.(ledger := VoidAll(s.ledger, {e.transactionId}))
    else s.(products := Patched(s.products, e))
  }

  function Answer(s: Sheet, e: Entry, admits: bool): Ack {
    if !admits then Refused
    else if e.kind == Purchase then Accepted(Has(s.ledger, e.transactionId))
    else if e.kind == Void then (if Has(s.ledger, e.transactionId) then Accepted(false) else Refused)
    else if Takes(s.products, e) then Accepted(false)
    else Refused
  }

  // ---- The ledger under one request -------------------------------------------

  predicate UniqueIds(rows: Ledger) {
    forall i, j :: 0 <= i < j < |rows| ==> rows[i].Id() != rows[j].Id()
  }

  /** A request never duplicates a row, never removes one, never rewrites what was
      recorded, and never takes a reversal back. */
  lemma ServedKeeps(s: Sheet, e: Entry, admits: bool)
    ensures var t := Served(s, e, admits);
            && |s.ledger| <= |t.ledger|
            && (forall i :: 0 <= i < |s.ledger| ==>
                  t.ledger[i].purchase == s.ledger[i].purchase && (s.ledger[i].voided ==> t.ledger[i].voided))
            && (UniqueIds(s.ledger) ==> UniqueIds(t.ledger))
  {
    if admits && e.kind == Void {
      VoidOnly(s.ledger, {e.transactionId});
    }
  }

  /** A purchase is accepted once for new and ever after as a duplicate, which adds no row;
      a reversal is accepted exactly of an id that is there. */
  lemma PurchaseAnswered(s: Sheet, e: Entry)
    requires e.kind == Purchase
    ensures var t := Served(s, e, true);
            && Answer(s, e, true) == Accepted(exists i :: 0 <= i < |s.ledger| && s.ledger[i].purchase.transactionId == e.transactionId)
            && Answer(t, e, true) == Accepted(true) && Served(t, e, true) == t
  {
    if !Has(s.ledger, e.transactionId) {
      assert Served(s, e, true).ledger[|s.ledger|].Id() == e.transactionId;
    } else {
      var i :| 0 <= i < |s.ledger| && s.ledger[i].Id() == e.transactionId;
    }
  }

  lemma VoidAnswered(s: Sheet, e: Entry)
    requires e.kind == Void
    ensures Answer(s, e, true).Accepted? <==>
              exists i :: 0 <= i < |s.ledger| && s.ledger[i].purchase.transactionId == e.transactionId
  {
    if Has(s.ledger, e.transactionId) {
      var i :| 0 <= i < |s.ledger| && s.ledger[i].Id() == e.transactionId;
    }
    if i :| 0 <= i < |s.ledger| && s.ledger[i].purchase.transactionId == e.transactionId {
      assert s.ledger[i].Id() == e.transactionId;
    }
  }

  lemma {:induction false} VoidOnly(rows: Ledger, ids: set<Text>)
    ensures forall i :: 0 <= i < |rows| && rows[i].voided ==> VoidAll(rows, ids)[i].voided
    decreases |rows|
  {
    if |rows| > 0 {
      VoidOnly(rows[1..], ids - {rows[0].Id()});
    }
  }

  lemma {:induction false} VoidTwice(rows: Ledger, a: set<Text>, b: set<Text>)
    ensures VoidAll(VoidAll(rows, a), b) == VoidAll(rows, a + b)
    decreases |rows|
  {
    if |rows| > 0 {
      var id := rows[0].Id();
      VoidTwice(rows[1..], a - {id}, b - {id});
      assert (a + b) - {id} == (a - {id}) + (b - {id});
      assert VoidAll(rows, a)[1..] == VoidAll(rows[1..], a - {id});
    }
  }

  lemma {:induction false} VoidNothing(rows: Ledger, ids: set<Text>)
    requires forall i :: 0 <= i < |rows| && rows[i].Id() in ids ==> rows[i].voided
    ensures VoidAll(rows, ids) == rows
    decreases |rows|
  {
    if |rows| > 0 {
      VoidNothing(rows[1..], ids - {rows[0].Id()});
    }
  }

  lemma {:induction false} VoidAppend(rows: Ledger, row: Row, ids: set<Text>)
    requires row.Id() !in ids
    ensures VoidAll(rows + [row], ids) == VoidAll(rows, ids) + [row]
    decreases |rows|
  {
    if |rows| == 0 {
      assert rows + [row] == [row];
      assert VoidAll([row], ids) == [row] + VoidAll([], ids - {row.Id()});
    } else {
      assert (rows + [row])[1..] == rows[1..] + [row];
      VoidAppend(rows[1..], row, ids - {rows[0].Id()});
    }
  }

  lemma {:induction false} VoidIrrelevant(rows: Ledger, ids: set<Text>)
    ensures VoidAll(rows, ids) == VoidAll(rows, set id | id in ids && Has(rows, id))
    decreases |rows|
  {
    if |rows| > 0 {
      var id0, rest := rows[0].Id(), rows[1..];
      var relevant := set id | id in ids && Has(rows, id);
      assert Has(rows, id0);
      forall id | id != id0 ensures Has(rows, id) == Has(rest, id) {
        if Has(rest, id) {
          var i :| 0 <= i < |rest| && rest[i].Id() == id;
          assert rows[i + 1].Id() == id;
        }
        if Has(rows, id) {
          var i :| 0 <= i < |rows| && rows[i].Id() == id;
          assert rest[i - 1].Id() == id;
        }
      }
      VoidIrrelevant(rest, ids - {id0});
      VoidIrrelevant(rest, relevant - {id0});
      assert (set id | id in ids - {id0} && Has(rest, id)) == (set id | id in relevant - {id0} && Has(rest, id));
    }
  }

  lemma HasVoided(rows: Ledger, ids: set<Text>, id: Text)
    ensures Has(VoidAll(rows, ids), id) == Has(rows, id)
  {
    if Has(rows, id) {
      var i :| 0 <= i < |rows| && rows[i].Id() == id;
      assert VoidAll(rows, ids)[i].Id() == id;
    }
    if Has(VoidAll(rows, ids), id) {
      var i :| 0 <= i < |rows| && VoidAll(rows, ids)[i].Id() == id;
      assert rows[i].Id() == id;
    }
  }
}
