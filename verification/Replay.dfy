/** A reboot can resurrect entries the server has already taken. This module says
    exactly when sending them all again does no harm. */
module Replay {
  import opened Records
  import opened Sets
  import opened Settings
  import opened Wrappers
  import opened Server

  type Validator = Entry -> bool

  /** The sheet after the whole queue went out once, in order. */
  function Pass(s: Sheet, q: seq<Entry>, admits: Validator): Sheet
    decreases |q|
  {
    if |q| == 0 then s else Pass(Served(s, q[0], admits(q[0])), q[1..], admits)
  }

  lemma {:induction false} PassAppend(s: Sheet, p: seq<Entry>, r: seq<Entry>, admits: Validator)
    ensures Pass(s, p + r, admits) == Pass(Pass(s, p, admits), r, admits)
    decreases |p|
  {
    if |p| == 0 {
      assert p + r == r;
    } else {
      assert (p + r)[1..] == p[1..] + r;
      PassAppend(Served(s, p[0], admits(p[0])), p[1..], r, admits);
    }
  }

  predicate Buys(e: Entry, id: Text, admits: Validator) {
    e.kind == Purchase && e.transactionId == id && admits(e)
  }

  predicate Voids(e: Entry, id: Text, admits: Validator) {
    e.kind == Void && e.transactionId == id && admits(e)
  }

  function VoidIds(q: seq<Entry>, admits: Validator): set<Text> {
    set i | 0 <= i < |q| && Voids(q[i], q[i].transactionId, admits) :: q[i].transactionId
  }

  // ---- The ledger -------------------------------------------------------------

  ghost predicate AllPresent(rows: Ledger, q: seq<Entry>, admits: Validator) {
    forall i :: 0 <= i < |q| && Buys(q[i], q[i].transactionId, admits) ==> Has(rows, q[i].transactionId)
  }

  lemma HasKept(s: Sheet, e: Entry, admits: bool, id: Text)
    requires Has(s.ledger, id)
    ensures Has(Served(s, e, admits).ledger, id)
  {
    ServedKeeps(s, e, admits);
    var i :| 0 <= i < |s.ledger| && s.ledger[i].Id() == id;
    assert Served(s, e, admits).ledger[i].Id() == id;
  }

  lemma {:induction false} PassKeeps(s: Sheet, q: seq<Entry>, admits: Validator)
    ensures var t := Pass(s, q, admits);
            && (forall id :: Has(s.ledger, id) ==> Has(t.ledger, id))
            && (UniqueIds(s.ledger) ==> UniqueIds(t.ledger))
    decreases |q|
  {
    if |q| > 0 {
      var u := Served(s, q[0], admits(q[0]));
      ServedKeeps(s, q[0], admits(q[0]));
      forall id | Has(s.ledger, id) ensures Has(u.ledger, id) {
        HasKept(s, q[0], admits(q[0]), id);
      }
      PassKeeps(u, q[1..], admits);
    }
  }

  lemma {:induction false} PresentAfter(s: Sheet, q: seq<Entry>, admits: Validator)
    ensures AllPresent(Pass(s, q, admits).ledger, q, admits)
    decreases |q|
  {
    if |q| > 0 {
      var e := q[0];
      var u := Served(s, e, admits(e));
      PresentAfter(u, q[1..], admits);
      PassKeeps(u, q[1..], admits);
      if Buys(e, e.transactionId, admits) && !Has(s.ledger, e.transactionId) {
        assert u.ledger[|s.ledger|].Id() == e.transactionId;
      }
      var t := Pass(u, q[1..], admits);
      forall i | 0 <= i < |q| && Buys(q[i], q[i].transactionId, admits)
        ensures Has(t.ledger, q[i].transactionId)
      {
        if i == 0 {
          assert Has(u.ledger, e.transactionId);
        } else {
          assert q[1..][i - 1] == q[i];
        }
      }
    }
  }

  lemma VoidIdsFront(q: seq<Entry>, admits: Validator)
    requires |q| > 0
    ensures VoidIds(q, admits)
            == (if Voids(q[0], q[0].transactionId, admits) then {q[0].transactionId} else {}) + VoidIds(q[1..], admits)
  {
    forall id | id in VoidIds(q, admits)
      ensures (Voids(q[0], q[0].transactionId, admits) && id == q[0].transactionId) || id in VoidIds(q[1..], admits)
    {
      var i :| 0 <= i < |q| && Voids(q[i], q[i].transactionId, admits) && q[i].transactionId == id;
      if i > 0 {
        assert q[1..][i - 1] == q[i];
      }
    }
    forall id | id in VoidIds(q[1..], admits)
      ensures id in VoidIds(q, admits)
    {
      var i :| 0 <= i < |q| - 1 && Voids(q[1..][i], q[1..][i].transactionId, admits) && q[1..][i].transactionId == id;
      assert q[i + 1] == q[1..][i];
    }
  }

  /** Once every purchase of q is present, sending q only marks its reversals. */
  lemma {:induction false} SecondPass(s: Sheet, q: seq<Entry>, admits: Validator)
    requires AllPresent(s.ledger, q, admits)
    ensures Pass(s, q, admits).ledger == VoidAll(s.ledger, VoidIds(q, admits))
    decreases |q|
  {
    if |q| == 0 {
      assert VoidIds(q, admits) == {};
      VoidNothing(s.ledger, {});
    } else {
      var e := q[0];
      var u := Served(s, e, admits(e));
      VoidIdsFront(q, admits);
      assert forall i :: 0 <= i < |q| - 1 ==> q[1..][i] == q[i + 1];
      if Voids(e, e.transactionId, admits) {
        forall id | Has(s.ledger, id) ensures Has(u.ledger, id) {
          HasVoided(s.ledger, {e.transactionId}, id);
        }
        SecondPass(u, q[1..], admits);
        VoidTwice(s.ledger, {e.transactionId}, VoidIds(q[1..], admits));
      } else {
        assert u.ledger == s.ledger;
        SecondPass(u, q[1..], admits);
        assert {} + VoidIds(q[1..], admits) == VoidIds(q[1..], admits);
      }
    }
  }

  /** Reversals of rows already present can be moved behind the rest of the queue. */
  lemma {:induction false} VoidsMoveBack(s: Sheet, ids: set<Text>, r: seq<Entry>, admits: Validator)
    requires forall id :: id in ids ==> Has(s.ledger, id)
    ensures Pass(s.(ledger := VoidAll(s.ledger, ids)), r, admits).ledger == VoidAll(Pass(s, r, admits).ledger, ids)
    decreases |r|
  {
    if |r| > 0 {
      var e := r[0];
      var u := Served(s, e, admits(e));
      var v := s.(ledger := VoidAll(s.ledger, ids));
      HasVoided(s.ledger, ids, e.transactionId);
      forall id | id in ids ensures Has(u.ledger, id) {
        HasKept(s, e, admits(e), id);
      }
      VoidsMoveBack(u, ids, r[1..], admits);
      if Buys(e, e.transactionId, admits) && !Has(s.ledger, e.transactionId) {
        VoidAppend(s.ledger, Row(e, false), ids);
      }
      if Voids(e, e.transactionId, admits) {
        VoidTwice(s.ledger, ids, {e.transactionId});
        VoidTwice(s.ledger, {e.transactionId}, ids);
        assert ids + {e.transactionId} == {e.transactionId} + ids;
      }
      assert Served(v, e, admits(e)) == u.(ledger := VoidAll(u.ledger, ids));
    }
  }

  /** The ids a prefix both reverses and leaves recorded. */
  function Reversed(s: Sheet, q: seq<Entry>, k: nat, admits: Validator): set<Text>
    requires k <= |q|
  {
    set id | id in VoidIds(q[..k], admits) && Has(Pass(s, q[..k], admits).ledger, id)
  }

  /** What a replay after k entries does to the ledger, in terms of a single pass. */
  lemma ReplayedLedger(s: Sheet, q: seq<Entry>, k: nat, admits: Validator)
    requires k <= |q|
    ensures Pass(Pass(s, q[..k], admits), q, admits).ledger
            == VoidAll(Pass(s, q, admits).ledger, Reversed(s, q, k, admits))
  {
    var p, r := q[..k], q[k..];
    assert q == p + r;
    var t := Pass(s, p, admits);
    PassAppend(s, p, r, admits);
    PassAppend(t, p, r, admits);
    PresentAfter(s, p, admits);
    SecondPass(t, p, admits);
    VoidIrrelevant(t.ledger, VoidIds(p, admits));
    VoidsMoveBack(t, Reversed(s, q, k, admits), r, admits);
    LedgersAgree(Pass(t, p, admits), t.(ledger := VoidAll(t.ledger, Reversed(s, q, k, admits))), r, admits);
  }

  lemma {:induction false} LedgersAgree(s: Sheet, t: Sheet, q: seq<Entry>, admits: Validator)
    requires s.ledger == t.ledger
    ensures Pass(s, q, admits).ledger == Pass(t, q, admits).ledger
    decreases |q|
  {
    if |q| > 0 {
      LedgersAgree(Served(s, q[0], admits(q[0])), Served(t, q[0], admits(q[0])), q[1..], admits);
    }
  }

  // ---- The products -----------------------------------------------------------

  /** The net effect of a queue on one product: its row written afresh, or some of
      its cells overwritten. */
  datatype Patch =
    | Fresh(shelf: Shelf)
    | Cells(active: Option<bool>, price: Option<(Int32, bool)>)

  function Apply(patch: Patch, shelf: Option<Shelf>): Option<Shelf> {
    match patch
    case Fresh(s) => Some(s)
    case Cells(active, price) =>
      if shelf.None? then None
      else
        var s := if active.Some? then shelf.value.(active := active.value) else shelf.value;
        Some(if price.Some? then s.(priceRappen := price.value.0, freeItem := price.value.1) else s)
  }

  function Then(patch: Patch, e: Entry): Patch {
    match e.kind
    case Create => Fresh(Shelf(e.productName, Price(e), e.freeItem, true))
    case ChangePrice =>
      (match patch
       case Fresh(s) => Fresh(s.(priceRappen := Price(e), freeItem := e.freeItem))
       case Cells(active, _) => Cells(active, Some((Price(e), e.freeItem))))
    case _ =>
      (match patch
       case Fresh(s) => Fresh(s.(active := e.kind == Restore))
       case Cells(_, price) => Cells(Some(e.kind == Restore), price))
  }

  function PatchOf(q: seq<Entry>, key: Key, admits: Validator): Patch
    decreases |q|
  {
    if |q| == 0 then Cells(None, None)
    else
      var e := q[|q| - 1];
      var before := PatchOf(q[..|q| - 1], key, admits);
      if admits(e) && e.kind.IsProductChange() && KeyOf(e) == key then Then(before, e) else before
  }

  function At(products: Products, key: Key): Option<Shelf> {
    if key in products then Some(products[key]) else None
  }

  /** The products after a queue none of whose changes is refused for lack of room. */
  function Stocked(products: Products, q: seq<Entry>, admits: Validator): Products
    decreases |q|
  {
    if |q| == 0 then products
    else Stocked(if admits(q[0]) && q[0].kind.IsProductChange() then Changed(products, q[0]) else products, q[1..], admits)
  }

  lemma {:induction false} StockedAppend(products: Products, p: seq<Entry>, r: seq<Entry>, admits: Validator)
    ensures Stocked(products, p + r, admits) == Stocked(Stocked(products, p, admits), r, admits)
    decreases |p|
  {
    if |p| == 0 {
      assert p + r == r;
    } else {
      assert (p + r)[1..] == p[1..] + r;
      var next := if admits(p[0]) && p[0].kind.IsProductChange() then Changed(products, p[0]) else products;
      StockedAppend(next, p[1..], r, admits);
    }
  }

  /** What a queue makes of one product is one patch that depends on the queue alone. */
  lemma {:induction false} ProductsAfter(products: Products, q: seq<Entry>, key: Key, admits: Validator)
    ensures At(Stocked(products, q, admits), key) == Apply(PatchOf(q, key, admits), At(products, key))
    decreases |q|
  {
    if |q| > 0 {
      var p, e := q[..|q| - 1], q[|q| - 1];
      assert q == p + [e];
      StockedAppend(products, p, [e], admits);
      var t := Stocked(products, p, admits);
      assert Stocked(t, [e], admits) == if admits(e) && e.kind.IsProductChange() then Changed(t, e) else t by {
        assert [e][1..] == [];
      }
      ProductsAfter(products, p, key, admits);
      if admits(e) && e.kind.IsProductChange() {
        ThenApplies(t, e, key, PatchOf(p, key, admits), At(products, key));
      }
    }
  }

  lemma ThenApplies(products: Products, e: Entry, key: Key, patch: Patch, was: Option<Shelf>)
    requires e.kind.IsProductChange() && At(products, key) == Apply(patch, was)
    ensures At(Changed(products, e), key) == if KeyOf(e) == key then Apply(Then(patch, e), was) else At(products, key)
  {}

  lemma SameProducts(a: Products, b: Products)
    requires forall key :: At(a, key) == At(b, key)
    ensures a == b
  {
    forall key | key in a
      ensures key in b && a[key] == b[key]
    {
      assert At(a, key) == At(b, key);
    }
    forall key | key in b
      ensures key in a
    {
      assert At(a, key) == At(b, key);
    }
  }

  /** The patch writes at least every cell that e writes. */
  predicate Covers(patch: Patch, e: Entry) {
    patch.Fresh? || (if e.kind == ChangePrice then patch.price.Some? else e.kind != Create && patch.active.Some?)
  }

  lemma {:induction false} PatchCovers(q: seq<Entry>, i: nat, admits: Validator)
    requires i < |q| && admits(q[i]) && q[i].kind.IsProductChange()
    ensures Covers(PatchOf(q, KeyOf(q[i]), admits), q[i])
    decreases |q|
  {
    var p := q[..|q| - 1];
    if i < |p| {
      assert p[i] == q[i];
      PatchCovers(p, i, admits);
    }
  }

  /** A change that a queue makes anyway makes no difference ahead of it. */
  lemma ChangeAbsorbed(products: Products, q: seq<Entry>, i: nat, admits: Validator)
    requires i < |q| && admits(q[i]) && q[i].kind.IsProductChange()
    ensures Stocked(Changed(products, q[i]), q, admits) == Stocked(products, q, admits)
  {
    var early := Changed(products, q[i]);
    forall key
      ensures At(Stocked(early, q, admits), key) == At(Stocked(products, q, admits), key)
    {
      ProductsAfter(early, q, key, admits);
      ProductsAfter(products, q, key, admits);
      ThenApplies(products, q[i], key, Cells(None, None), At(products, key));
      if KeyOf(q[i]) == key {
        PatchCovers(q, i, admits);
      }
    }
    SameProducts(Stocked(early, q, admits), Stocked(products, q, admits));
  }

  // ---- The shelf cap ----------------------------------------------------------

  /** The products a queue may put on the shelf. */
  function Raised(q: seq<Entry>, admits: Validator): set<Key> {
    set i | 0 <= i < |q| && (q[i].kind == Create || q[i].kind == Restore) && admits(q[i]) :: KeyOf(q[i])
  }

  /** What is on the shelf and what a queue may put there fit it together. */
  predicate Roomy(products: Products, q: seq<Entry>, admits: Validator) {
    |Shelved(products) + Raised(q, admits)| <= MAX_ACTIVE_PRODUCTS
  }

  lemma RaisedIn(q: seq<Entry>, i: nat, admits: Validator)
    requires i < |q| && (q[i].kind == Create || q[i].kind == Restore) && admits(q[i])
    ensures KeyOf(q[i]) in Raised(q, admits)
  {}

  /** Within its room no change is refused to any effect. */
  lemma RoomyChange(products: Products, e: Entry, room: set<Key>)
    requires e.kind.IsProductChange() && Shelved(products) <= room && |room| <= MAX_ACTIVE_PRODUCTS
    requires e.kind == Create || e.kind == Restore ==> KeyOf(e) in room
    ensures Patched(products, e) == Changed(products, e)
    ensures Shelved(Changed(products, e)) <= room
  {
    if (e.kind == Create || e.kind == Restore) && KeyOf(e) !in Shelved(products) {
      Smaller(Shelved(products), room, KeyOf(e));
    } else if e.kind == Restore && KeyOf(e) in products {
      assert Changed(products, e) == products;
    }
  }

  lemma {:induction false} RoomyPass(s: Sheet, q: seq<Entry>, room: set<Key>, admits: Validator)
    requires Shelved(s.products) + Raised(q, admits) <= room && |room| <= MAX_ACTIVE_PRODUCTS
    ensures Pass(s, q, admits).products == Stocked(s.products, q, admits)
    ensures Shelved(Pass(s, q, admits).products) <= room
    decreases |q|
  {
    if |q| > 0 {
      var e := q[0];
      var t := Served(s, e, admits(e));
      RaisedTail(q, admits);
      if admits(e) && e.kind.IsProductChange() {
        if e.kind == Create || e.kind == Restore {
          RaisedIn(q, 0, admits);
        }
        RoomyChange(s.products, e, room);
      }
      RoomyPass(t, q[1..], room, admits);
    }
  }

  lemma RaisedTail(q: seq<Entry>, admits: Validator)
    requires |q| > 0
    ensures Raised(q[1..], admits) <= Raised(q, admits)
  {
    forall key | key in Raised(q[1..], admits)
      ensures key in Raised(q, admits)
    {
      var i :| 0 <= i < |q[1..]| && (q[1..][i].kind == Create || q[1..][i].kind == Restore) && admits(q[1..][i])
               && KeyOf(q[1..][i]) == key;
      assert q[i + 1] == q[1..][i];
    }
  }

  // ---- When a replay is harmless ----------------------------------------------

  ghost predicate FirstBuy(q: seq<Entry>, j: nat, admits: Validator) {
    && j < |q| && Buys(q[j], q[j].transactionId, admits)
    && forall i :: 0 <= i < j ==> !Buys(q[i], q[j].transactionId, admits)
  }

  /** A reversal ahead of its purchase, with none behind it: the first pass lets the
      purchase stand, a second one would reverse it. */
  ghost predicate Stray(q: seq<Entry>, j: nat, admits: Validator) {
    && FirstBuy(q, j, admits)
    && (exists i :: 0 <= i < j && Voids(q[i], q[j].transactionId, admits))
    && (forall m :: j < m < |q| ==> !Voids(q[m], q[j].transactionId, admits))
  }

  ghost predicate Replayable(q: seq<Entry>, admits: Validator) {
    forall j :: 0 <= j < |q| ==> !Stray(q, j, admits)
  }

  /** A stray reversal does no harm on a sheet that has its purchase already. */
  ghost predicate Harmless(rows: Ledger, q: seq<Entry>, admits: Validator) {
    forall j :: 0 <= j < |q| && Stray(q, j, admits) ==> Has(rows, q[j].transactionId)
  }

  ghost predicate Reverted(rows: Ledger, id: Text) {
    forall i :: 0 <= i < |rows| && rows[i].Id() == id ==> rows[i].voided
  }

  lemma {:induction false} VoidedByReversal(rows: Ledger, ids: set<Text>, id: Text)
    requires UniqueIds(rows) && id in ids
    ensures Reverted(VoidAll(rows, ids), id)
    decreases |rows|
  {
    if |rows| > 0 {
      var v, rest := VoidAll(rows, ids), rows[1..];
      if rows[0].Id() == id {
        assert forall i :: 0 < i < |rows| ==> v[i].Id() == rows[i].Id() != id;
      } else {
        VoidedByReversal(rest, ids - {rows[0].Id()}, id);
        assert forall i :: 0 < i < |rows| ==> v[i] == VoidAll(rest, ids - {rows[0].Id()})[i - 1];
      }
    }
  }

  /** A reversed row stays reversed through the rest of the queue. */
  lemma {:induction false} StaysReverted(s: Sheet, q: seq<Entry>, id: Text, admits: Validator)
    requires Has(s.ledger, id) && Reverted(s.ledger, id)
    ensures Reverted(Pass(s, q, admits).ledger, id)
    decreases |q|
  {
    if |q| > 0 {
      var u := Served(s, q[0], admits(q[0]));
      ServedKeeps(s, q[0], admits(q[0]));
      HasKept(s, q[0], admits(q[0]), id);
      StaysReverted(u, q[1..], id, admits);
    }
  }

  /** A reversal that finds its row leaves it reversed for good. */
  lemma ReversalHolds(s: Sheet, q: seq<Entry>, m: nat, id: Text, admits: Validator)
    requires UniqueIds(s.ledger) && m < |q| && Voids(q[m], id, admits)
    requires Has(Pass(s, q[..m], admits).ledger, id)
    ensures Reverted(Pass(s, q, admits).ledger, id)
  {
    var t := Pass(s, q[..m], admits);
    var r := q[m..];
    assert q == q[..m] + r && r[0] == q[m];
    PassAppend(s, q[..m], r, admits);
    PassKeeps(s, q[..m], admits);
    VoidedByReversal(t.ledger, {id}, id);
    HasVoided(t.ledger, {id}, id);
    StaysReverted(Served(t, q[m], true), r[1..], id, admits);
  }

  /** An id that becomes present does so at its first admitted purchase. */
  lemma {:induction false} ArrivesByPurchase(s: Sheet, q: seq<Entry>, id: Text, admits: Validator) returns (j: nat)
    requires !Has(s.ledger, id) && Has(Pass(s, q, admits).ledger, id)
    ensures FirstBuy(q, j, admits) && q[j].transactionId == id
    decreases |q|
  {
    if Buys(q[0], id, admits) {
      j := 0;
    } else {
      var u := Served(s, q[0], admits(q[0]));
      NotYetPresent(s, q[0], admits, id);
      j := ArrivesByPurchase(u, q[1..], id, admits);
      j := j + 1;
      assert forall i :: 0 <= i < |q| - 1 ==> q[1..][i] == q[i + 1];
    }
  }

  lemma NotYetPresent(s: Sheet, e: Entry, admits: Validator, id: Text)
    requires !Has(s.ledger, id) && !Buys(e, id, admits)
    ensures !Has(Served(s, e, admits(e)).ledger, id)
  {
    if Voids(e, e.transactionId, admits) {
      HasVoided(s.ledger, {e.transactionId}, id);
    }
  }

  /** Just behind a purchase its id is present. */
  lemma PresentBehind(s: Sheet, q: seq<Entry>, j: nat, m: nat, id: Text, admits: Validator)
    requires j < m <= |q| && Buys(q[j], id, admits)
    ensures Has(Pass(s, q[..m], admits).ledger, id)
  {
    PresentAfter(s, q[..m], admits);
    assert q[..m][j] == q[j];
  }

  lemma LedgerConverges(s: Sheet, q: seq<Entry>, k: nat, admits: Validator)
    requires UniqueIds(s.ledger) && k <= |q| && Harmless(s.ledger, q, admits)
    ensures Pass(Pass(s, q[..k], admits), q, admits).ledger == Pass(s, q, admits).ledger
  {
    ReplayedLedger(s, q, k, admits);
    var final := Pass(s, q, admits).ledger;
    forall i | 0 <= i < |final| && final[i].Id() in Reversed(s, q, k, admits)
      ensures final[i].voided
    {
      ReversedInOnePass(s, q, k, final[i].Id(), admits);
    }
    VoidNothing(final, Reversed(s, q, k, admits));
  }

  lemma ReversedInOnePass(s: Sheet, q: seq<Entry>, k: nat, id: Text, admits: Validator)
    requires UniqueIds(s.ledger) && k <= |q| && Harmless(s.ledger, q, admits) && id in Reversed(s, q, k, admits)
    ensures Reverted(Pass(s, q, admits).ledger, id)
  {
    var p := q[..k];
    var i :| 0 <= i < |p| && Voids(p[i], p[i].transactionId, admits) && p[i].transactionId == id;
    assert q[i] == p[i];
    if Has(s.ledger, id) {
      PassKeeps(s, q[..i], admits);
      ReversalHolds(s, q, i, id, admits);
    } else {
      var j := ArrivesByPurchase(s, p, id, admits);
      assert forall m :: 0 <= m < k ==> q[m] == p[m];
      assert FirstBuy(q, j, admits) && !Stray(q, j, admits);
      if i < j {
        var m :| j < m < |q| && Voids(q[m], id, admits);
        PresentBehind(s, q, j, m, id, admits);
        ReversalHolds(s, q, m, id, admits);
      } else {
        PresentBehind(s, q, j, i, id, admits);
        ReversalHolds(s, q, i, id, admits);
      }
    }
  }

  ghost predicate Live(rows: Ledger, id: Text) {
    exists i :: 0 <= i < |rows| && rows[i].Id() == id && !rows[i].voided
  }

  lemma {:induction false} UntouchedByOthers(rows: Ledger, ids: set<Text>, i: nat)
    requires i < |rows| && rows[i].Id() !in ids
    ensures VoidAll(rows, ids)[i] == rows[i]
    decreases i
  {
    if i > 0 {
      UntouchedByOthers(rows[1..], ids - {rows[0].Id()}, i - 1);
    }
  }

  lemma {:induction false} StaysLive(s: Sheet, q: seq<Entry>, id: Text, admits: Validator)
    requires Live(s.ledger, id) && forall m :: 0 <= m < |q| ==> !Voids(q[m], id, admits)
    ensures Live(Pass(s, q, admits).ledger, id)
    decreases |q|
  {
    if |q| > 0 {
      var e := q[0];
      var u := Served(s, e, admits(e));
      var i :| 0 <= i < |s.ledger| && s.ledger[i].Id() == id && !s.ledger[i].voided;
      if Voids(e, e.transactionId, admits) {
        UntouchedByOthers(s.ledger, {e.transactionId}, i);
      }
      assert u.ledger[i] == s.ledger[i];
      assert forall m :: 0 <= m < |q| - 1 ==> q[1..][m] == q[m + 1];
      StaysLive(u, q[1..], id, admits);
    }
  }

  lemma AbsentBefore(s: Sheet, q: seq<Entry>, j: nat, admits: Validator)
    requires FirstBuy(q, j, admits) && !Has(s.ledger, q[j].transactionId)
    ensures !Has(Pass(s, q[..j], admits).ledger, q[j].transactionId)
  {
    var id := q[j].transactionId;
    assert forall m :: 0 <= m < j ==> !Buys(q[..j][m], id, admits);
    if Has(Pass(s, q[..j], admits).ledger, id) {
      var m := ArrivesByPurchase(s, q[..j], id, admits);
    }
  }

  /** One pass lets the purchase behind a stray reversal stand. */
  lemma StrayStands(s: Sheet, q: seq<Entry>, j: nat, admits: Validator)
    requires j < |q| && Stray(q, j, admits) && !Has(s.ledger, q[j].transactionId)
    ensures Live(Pass(s, q, admits).ledger, q[j].transactionId)
  {
    AbsentBefore(s, q, j, admits);
    var before := Pass(s, q[..j], admits);
    var after := Served(before, q[j], true);
    assert after.ledger[|before.ledger|] == Row(q[j], false);
    var rest := q[j..];
    assert q == q[..j] + rest && rest[0] == q[j];
    PassAppend(s, q[..j], rest, admits);
    assert forall m :: 0 <= m < |rest| - 1 ==> rest[1..][m] == q[m + j + 1];
    StaysLive(after, rest[1..], q[j].transactionId, admits);
  }

  lemma StrayReversed(s: Sheet, q: seq<Entry>, j: nat, admits: Validator)
    requires j < |q| && Stray(q, j, admits) && !Has(s.ledger, q[j].transactionId)
    ensures q[j].transactionId in Reversed(s, q, j + 1, admits)
  {
    var id := q[j].transactionId;
    PresentBehind(s, q, j, j + 1, id, admits);
    var i :| 0 <= i < j && Voids(q[i], id, admits);
    assert q[..j + 1][i] == q[i];
  }

  lemma ReversalShows(rows: Ledger, ids: set<Text>, id: Text)
    requires UniqueIds(rows) && id in ids && Live(rows, id)
    ensures VoidAll(rows, ids) != rows
  {
    VoidedByReversal(rows, ids, id);
  }

  /** A stray reversal does harm: replayed on any sheet without that id, it takes the
      purchase back that the single pass had recorded. */
  lemma StrayDiverges(s: Sheet, q: seq<Entry>, j: nat, admits: Validator)
    requires j < |q| && Stray(q, j, admits) && UniqueIds(s.ledger) && !Has(s.ledger, q[j].transactionId)
    ensures Pass(Pass(s, q[..j + 1], admits), q, admits).ledger != Pass(s, q, admits).ledger
  {
    var id, ids := q[j].transactionId, Reversed(s, q, j + 1, admits);
    var once, twice := Pass(s, q, admits), Pass(Pass(s, q[..j + 1], admits), q, admits);
    assert twice.ledger == VoidAll(once.ledger, ids) by { ReplayedLedger(s, q, j + 1, admits); }
    assert UniqueIds(once.ledger) by { PassKeeps(s, q, admits); }
    assert id in ids by { StrayReversed(s, q, j, admits); }
    assert Live(once.ledger, id) by { StrayStands(s, q, j, admits); }
    ReversalShows(once.ledger, ids, id);
  }

  /** Sending any part of a queue and then all of it leaves the ledger as one pass does. */
  ghost predicate LedgerReplays(s: Sheet, q: seq<Entry>, admits: Validator) {
    forall k: nat :: k <= |q| ==> Pass(Pass(s, q[..k], admits), q, admits).ledger == Pass(s, q, admits).ledger
  }

  /** On a given sheet a queue replays if and only if every purchase with a stray reversal
      is there already. */
  lemma LedgerConvergesIff(s: Sheet, q: seq<Entry>, admits: Validator)
    requires UniqueIds(s.ledger)
    ensures LedgerReplays(s, q, admits) <==> Harmless(s.ledger, q, admits)
  {
    if Harmless(s.ledger, q, admits) {
      forall k: nat | k <= |q|
        ensures Pass(Pass(s, q[..k], admits), q, admits).ledger == Pass(s, q, admits).ledger
      {
        LedgerConverges(s, q, k, admits);
      }
    } else {
      var j :| 0 <= j < |q| && Stray(q, j, admits) && !Has(s.ledger, q[j].transactionId);
      StrayDiverges(s, q, j, admits);
    }
  }

  /** On every sheet it does if and only if no reversal strays ahead of its purchase. */
  lemma ReplayConvergesIff(q: seq<Entry>, admits: Validator)
    ensures (forall s: Sheet :: UniqueIds(s.ledger) ==> LedgerReplays(s, q, admits)) <==> Replayable(q, admits)
  {
    if Replayable(q, admits) {
      forall s: Sheet | UniqueIds(s.ledger)
        ensures LedgerReplays(s, q, admits)
      {
        LedgerConvergesIff(s, q, admits);
      }
    } else {
      LedgerConvergesIff(Sheet([], map[]), q, admits);
    }
  }

  lemma {:induction false} ReplayedStock(products: Products, q: seq<Entry>, k: nat, admits: Validator)
    requires k <= |q|
    ensures Stocked(Stocked(products, q[..k], admits), q, admits) == Stocked(products, q, admits)
    decreases k
  {
    if k > 0 {
      var e, before := q[k - 1], Stocked(products, q[..k - 1], admits);
      assert q[..k] == q[..k - 1] + [e];
      StockedAppend(products, q[..k - 1], [e], admits);
      assert Stocked(before, [e], admits) == if admits(e) && e.kind.IsProductChange() then Changed(before, e) else before by {
        assert [e][1..] == [];
      }
      if admits(e) && e.kind.IsProductChange() {
        ChangeAbsorbed(before, q, k - 1, admits);
      }
      ReplayedStock(products, q, k - 1, admits);
    } else {
      assert q[..0] == [];
    }
  }

  /** With room on the shelf for everything on it and everything the queue puts there,
      the products converge. */
  lemma ReplayedProducts(s: Sheet, q: seq<Entry>, k: nat, admits: Validator)
    requires k <= |q| && Roomy(s.products, q, admits)
    ensures Pass(Pass(s, q[..k], admits), q, admits).products == Pass(s, q, admits).products
  {
    var room := Shelved(s.products) + Raised(q, admits);
    RaisedPrefix(q, k, admits);
    RoomyPass(s, q[..k], room, admits);
    RoomyPass(Pass(s, q[..k], admits), q, room, admits);
    RoomyPass(s, q, room, admits);
    ReplayedStock(s.products, q, k, admits);
  }

  lemma RaisedPrefix(q: seq<Entry>, k: nat, admits: Validator)
    requires k <= |q|
    ensures Raised(q[..k], admits) <= Raised(q, admits)
  {
    forall key | key in Raised(q[..k], admits)
      ensures key in Raised(q, admits)
    {
      var p := q[..k];
      var i :| 0 <= i < |p| && (p[i].kind == Create || p[i].kind == Restore) && admits(p[i]) && KeyOf(p[i]) == key;
      assert q[i] == p[i];
    }
  }

  /** On a sheet with room, the whole sheet converges if and only if its ledger does. */
  lemma RoomyConvergesIff(s: Sheet, q: seq<Entry>, admits: Validator)
    requires UniqueIds(s.ledger) && Roomy(s.products, q, admits)
    ensures (forall k: nat :: k <= |q| ==> Pass(Pass(s, q[..k], admits), q, admits) == Pass(s, q, admits))
            <==> Harmless(s.ledger, q, admits)
  {
    LedgerConvergesIff(s, q, admits);
    forall k: nat | k <= |q|
      ensures Pass(Pass(s, q[..k], admits), q, admits).products == Pass(s, q, admits).products
    {
      ReplayedProducts(s, q, k, admits);
    }
  }
}
