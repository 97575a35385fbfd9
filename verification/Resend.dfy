/** A queue that is sent with interruptions: the device may fall back to any earlier
    position, any number of times, and go on from there. */
module Resend {
  import opened Records
  import opened Server
  import opened Replay

  // ---- The ledger -------------------------------------------------------------

  /** The ledger of a first pass over the first n entries, with some of their reversals
      applied to rows that came in since. */
  ghost predicate Covered(s: Sheet, es: seq<Entry>, n: nat, ids: set<Text>, rows: Ledger, admits: Validator) {
    && n <= |es| && rows == VoidAll(Pass(s, es[..n], admits).ledger, ids)
    && forall id :: id in ids ==> id in VoidIds(es[..n], admits) && Has(Pass(s, es[..n], admits).ledger, id)
  }

  /** The first i entries have been sent at least once. */
  ghost predicate LedgerAt(s: Sheet, es: seq<Entry>, i: nat, rows: Ledger, admits: Validator) {
    exists n: nat, ids :: i <= n && Covered(s, es, n, ids, rows, admits)
  }

  lemma LedgerStarts(s: Sheet, es: seq<Entry>, admits: Validator)
    ensures LedgerAt(s, es, 0, s.ledger, admits)
  {
    assert es[..0] == [];
    VoidNothing(s.ledger, {});
    assert Covered(s, es, 0, {}, s.ledger, admits);
  }

  lemma PassOne(s: Sheet, es: seq<Entry>, n: nat, admits: Validator)
    requires n < |es|
    ensures Pass(s, es[..n + 1], admits) == Served(Pass(s, es[..n], admits), es[n], admits(es[n]))
  {
    assert es[..n + 1] == es[..n] + [es[n]];
    PassAppend(s, es[..n], [es[n]], admits);
    assert [es[n]][1..] == [];
  }

  lemma VoidIdsGrow(es: seq<Entry>, n: nat, admits: Validator)
    requires n < |es|
    ensures VoidIds(es[..n], admits) <= VoidIds(es[..n + 1], admits)
  {
    forall id | id in VoidIds(es[..n], admits)
      ensures id in VoidIds(es[..n + 1], admits)
    {
      var i :| 0 <= i < n && Voids(es[..n][i], es[..n][i].transactionId, admits) && es[..n][i].transactionId == id;
      assert es[..n + 1][i] == es[..n][i];
    }
  }

  /** An entry that was never sent before takes effect behind everything else. */
  lemma SentFirst(s: Sheet, es: seq<Entry>, n: nat, ids: set<Text>, t: Sheet, admits: Validator)
    requires n < |es| && Covered(s, es, n, ids, t.ledger, admits)
    ensures Covered(s, es, n + 1, ids, Served(t, es[n], admits(es[n])).ledger, admits)
  {
    var e, p := es[n], Pass(s, es[..n], admits);
    PassOne(s, es, n, admits);
    VoidIdsGrow(es, n, admits);
    VoidsMoveBack(p, ids, [e], admits);
    assert [e][1..] == [];
    assert Served(p.(ledger := t.ledger), e, admits(e)).ledger == VoidAll(Served(p, e, admits(e)).ledger, ids);
    forall id | id in ids
      ensures Has(Served(p, e, admits(e)).ledger, id)
    {
      HasKept(p, e, admits(e), id);
    }
  }

  /** An entry that was sent before changes nothing, unless it is a reversal whose
      purchase has come in since. */
  lemma SentAgain(s: Sheet, es: seq<Entry>, n: nat, ids: set<Text>, i: nat, t: Sheet, admits: Validator)
    returns (more: set<Text>)
    requires i < n && Covered(s, es, n, ids, t.ledger, admits)
    ensures Covered(s, es, n, more, Served(t, es[i], admits(es[i])).ledger, admits)
  {
    var e, rows := es[i], Pass(s, es[..n], admits).ledger;
    var id := e.transactionId;
    assert es[..n][i] == e;
    more := ids;
    if admits(e) && e.kind == Purchase {
      PresentAfter(s, es[..n], admits);
      HasVoided(rows, ids, id);
    } else if admits(e) && e.kind == Void {
      VoidTwice(rows, ids, {id});
      if Has(rows, id) {
        more := ids + {id};
      } else {
        VoidUnknown(rows, ids, id);
      }
    }
  }

  lemma VoidUnknown(rows: Ledger, ids: set<Text>, id: Text)
    requires !Has(rows, id)
    ensures VoidAll(rows, ids + {id}) == VoidAll(rows, ids)
  {
    VoidIrrelevant(rows, ids + {id});
    VoidIrrelevant(rows, ids);
    assert (set x | x in ids + {id} && Has(rows, x)) == (set x | x in ids && Has(rows, x));
  }

  function Further(h: nat, i: nat): nat {
    if h <= i then i + 1 else h
  }

  /** Sending any of the first entries, or the one behind them, takes none of them back. */
  lemma LedgerMoves(s: Sheet, es: seq<Entry>, h: nat, i: nat, t: Sheet, admits: Validator)
    requires i <= h && i < |es| && LedgerAt(s, es, h, t.ledger, admits)
    ensures LedgerAt(s, es, Further(h, i), Served(t, es[i], admits(es[i])).ledger, admits)
  {
    var n: nat, ids :| h <= n && Covered(s, es, n, ids, t.ledger, admits);
    if i == n {
      SentFirst(s, es, n, ids, t, admits);
      assert Covered(s, es, n + 1, ids, Served(t, es[i], admits(es[i])).ledger, admits);
    } else {
      var more := SentAgain(s, es, n, ids, i, t, admits);
      assert Covered(s, es, n, more, Served(t, es[i], admits(es[i])).ledger, admits);
    }
  }

  /** At the end of the queue every reversal that was applied twice was due anyway. */
  lemma LedgerEnds(s: Sheet, es: seq<Entry>, rows: Ledger, admits: Validator)
    requires UniqueIds(s.ledger) && Harmless(s.ledger, es, admits) && LedgerAt(s, es, |es|, rows, admits)
    ensures rows == Pass(s, es, admits).ledger
  {
    var n: nat, ids :| |es| <= n && Covered(s, es, n, ids, rows, admits);
    var final := Pass(s, es, admits).ledger;
    assert es[..n] == es;
    forall i | 0 <= i < |final| && final[i].Id() in ids
      ensures final[i].voided
    {
      ReversedInOnePass(s, es, n, final[i].Id(), admits);
    }
    VoidNothing(final, ids);
  }

  lemma {:induction false} LedgerFinishes(s: Sheet, es: seq<Entry>, i: nat, t: Sheet, admits: Validator)
    requires UniqueIds(s.ledger) && Harmless(s.ledger, es, admits)
    requires i <= |es| && LedgerAt(s, es, i, t.ledger, admits)
    ensures Pass(t, es[i..], admits).ledger == Pass(s, es, admits).ledger
    decreases |es| - i
  {
    if i < |es| {
      LedgerMoves(s, es, i, i, t, admits);
      LedgerFinishes(s, es, i + 1, Served(t, es[i], admits(es[i])), admits);
      assert es[i..][1..] == es[i + 1..];
    } else {
      LedgerEnds(s, es, t.ledger, admits);
    }
  }

  // ---- The products -----------------------------------------------------------

  /** From every position up to i the rest of the queue leads to the same products. */
  ghost predicate ProductsAt(products: Products, es: seq<Entry>, i: nat, now: Products, admits: Validator) {
    i <= |es| && forall j :: 0 <= j <= i ==> Stocked(now, es[j..], admits) == Stocked(products, es, admits)
  }

  lemma ProductsMove(products: Products, es: seq<Entry>, i: nat, now: Products, admits: Validator)
    requires i < |es| && ProductsAt(products, es, i, now, admits)
    ensures var e := es[i];
            ProductsAt(products, es, i + 1, if admits(e) && e.kind.IsProductChange() then Changed(now, e) else now, admits)
  {
    var e := es[i];
    var next := if admits(e) && e.kind.IsProductChange() then Changed(now, e) else now;
    forall j | 0 <= j <= i + 1
      ensures Stocked(next, es[j..], admits) == Stocked(products, es, admits)
    {
      if j <= i {
        assert es[j..][i - j] == e;
        if admits(e) && e.kind.IsProductChange() {
          ChangeAbsorbed(now, es[j..], i - j, admits);
        }
      } else {
        assert es[i..][1..] == es[i + 1..];
        assert Stocked(now, es[i..], admits) == Stocked(next, es[i + 1..], admits);
      }
    }
  }

  // ---- The sheet --------------------------------------------------------------

  /** The sheet t on which the queue es, begun on s, may go on from position i. */
  ghost predicate SheetAt(s: Sheet, es: seq<Entry>, i: nat, t: Sheet, admits: Validator) {
    && i <= |es| && LedgerAt(s, es, i, t.ledger, admits)
    && (Roomy(s.products, es, admits) ==>
          Shelved(t.products) <= Shelved(s.products) + Raised(es, admits)
          && ProductsAt(s.products, es, i, t.products, admits))
  }

  lemma Begins(s: Sheet, es: seq<Entry>, admits: Validator)
    ensures SheetAt(s, es, 0, s, admits)
  {
    LedgerStarts(s, es, admits);
    assert es[0..] == es;
  }

  lemma LedgerFallsBack(s: Sheet, es: seq<Entry>, h: nat, i: nat, rows: Ledger, admits: Validator)
    requires i <= h && LedgerAt(s, es, h, rows, admits)
    ensures LedgerAt(s, es, i, rows, admits)
  {
    var n: nat, ids :| h <= n && Covered(s, es, n, ids, rows, admits);
    assert i <= n;
  }

  /** The device may always fall back. */
  lemma FallsBack(s: Sheet, es: seq<Entry>, i: nat, j: nat, t: Sheet, admits: Validator)
    requires j <= i && SheetAt(s, es, i, t, admits)
    ensures SheetAt(s, es, j, t, admits)
  {
    LedgerFallsBack(s, es, i, j, t.ledger, admits);
  }

  /** Sending the entry at its position moves it on, however often it was sent before. */
  lemma MovesOn(s: Sheet, es: seq<Entry>, i: nat, t: Sheet, admits: Validator)
    requires i < |es| && SheetAt(s, es, i, t, admits)
    ensures SheetAt(s, es, i + 1, Served(t, es[i], admits(es[i])), admits)
  {
    var e := es[i];
    LedgerMoves(s, es, i, i, t, admits);
    if Roomy(s.products, es, admits) {
      ProductsMove(s.products, es, i, t.products, admits);
      if admits(e) && e.kind.IsProductChange() {
        if e.kind == Create || e.kind == Restore {
          RaisedIn(es, i, admits);
        }
        RoomyChange(t.products, e, Shelved(s.products) + Raised(es, admits));
      }
    }
  }

  lemma MovesOnOrStays(s: Sheet, es: seq<Entry>, i: nat, t: Sheet, admits: Validator)
    requires i < |es| && SheetAt(s, es, i, t, admits)
    ensures SheetAt(s, es, i + 1, Served(t, es[i], admits(es[i])), admits)
    ensures SheetAt(s, es, i, Served(t, es[i], admits(es[i])), admits)
  {
    MovesOn(s, es, i, t, admits);
    FallsBack(s, es, i + 1, i, Served(t, es[i], admits(es[i])), admits);
  }

  /** Whatever happened on the way, sending the rest leaves the ledger of one pass; and,
      with room on the shelf, the sheet of one pass. */
  lemma Finishes(s: Sheet, es: seq<Entry>, i: nat, t: Sheet, admits: Validator)
    requires UniqueIds(s.ledger) && Harmless(s.ledger, es, admits) && SheetAt(s, es, i, t, admits)
    ensures Pass(t, es[i..], admits).ledger == Pass(s, es, admits).ledger
    ensures Roomy(s.products, es, admits) ==> Pass(t, es[i..], admits) == Pass(s, es, admits)
  {
    LedgerFinishes(s, es, i, t, admits);
    if Roomy(s.products, es, admits) {
      var room := Shelved(s.products) + Raised(es, admits);
      RaisedSuffix(es, i, admits);
      RoomyPass(t, es[i..], room, admits);
      RoomyPass(s, es, room, admits);
    }
  }

  lemma RaisedSuffix(es: seq<Entry>, i: nat, admits: Validator)
    requires i <= |es|
    ensures Raised(es[i..], admits) <= Raised(es, admits)
  {
    forall key | key in Raised(es[i..], admits)
      ensures key in Raised(es, admits)
    {
      var r := es[i..];
      var j :| 0 <= j < |r| && (r[j].kind == Create || r[j].kind == Restore) && admits(r[j]) && KeyOf(r[j]) == key;
      assert es[i + j] == r[j];
    }
  }

  /** Sent up to k, and then again from any earlier position j, a queue leaves what one
      pass leaves. */
  lemma SuffixConverges(s: Sheet, es: seq<Entry>, j: nat, k: nat, admits: Validator)
    requires j <= k <= |es| && UniqueIds(s.ledger) && Harmless(s.ledger, es, admits)
    ensures Pass(Pass(s, es[..k], admits), es[j..], admits).ledger == Pass(s, es, admits).ledger
    ensures Roomy(s.products, es, admits) ==> Pass(Pass(s, es[..k], admits), es[j..], admits) == Pass(s, es, admits)
  {
    Reaches(s, es, k, admits);
    FallsBack(s, es, k, j, Pass(s, es[..k], admits), admits);
    Finishes(s, es, j, Pass(s, es[..k], admits), admits);
  }

  lemma {:induction false} Reaches(s: Sheet, es: seq<Entry>, k: nat, admits: Validator)
    requires k <= |es|
    ensures SheetAt(s, es, k, Pass(s, es[..k], admits), admits)
    decreases k
  {
    if k > 0 {
      Reaches(s, es, k - 1, admits);
      MovesOn(s, es, k - 1, Pass(s, es[..k - 1], admits), admits);
      PassOne(s, es, k - 1, admits);
    } else {
      assert es[..0] == [];
      Begins(s, es, admits);
    }
  }
}
