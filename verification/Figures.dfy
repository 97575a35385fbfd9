/** What one more queued entry makes of the consumption figures, kind by kind. */
module Figures {
  import opened Records
  import opened PurchaseLog

  /** The first row of the resident. */
  predicate RowOf(view: seq<Tally>, id: Text, i: nat) {
    i < |view| && view[i].residentId == id && forall j :: 0 <= j < i ==> view[j].residentId != id
  }

  /** All rows but one are as they were. */
  predicate OthersKept(view: seq<Tally>, next: seq<Tally>, i: nat) {
    |next| == |view| && forall j :: 0 <= j < |view| && j != i ==> next[j] == view[j]
  }

  lemma ViewNext(baseline: seq<Tally>, queue: seq<Entry>, e: Entry)
    ensures View(baseline, queue + [e]) == AddEntry(View(baseline, queue), e)
  {
    assert (queue + [e])[..|queue|] == queue;
  }

  /** A free drink counts and costs nothing. */
  lemma FreeDrink(baseline: seq<Tally>, queue: seq<Entry>, e: Entry, i: nat)
    requires e.kind == Purchase && e.residentId != [] && e.freeItem && RowOf(View(baseline, queue), e.residentId, i)
    ensures var view, next := View(baseline, queue), View(baseline, queue + [e]);
            && OthersKept(view, next, i)
            && next[i].residentId == view[i].residentId && next[i].residentName == view[i].residentName
            && next[i].drinks as int == (view[i].drinks as int + 1) % 65536
            && next[i].totalRappen == view[i].totalRappen
  {
    ViewNext(baseline, queue, e);
  }

  /** A paid one adds its price to the resident's sum, modulo 2^32, and to nobody else's. */
  lemma PaidDrink(baseline: seq<Tally>, queue: seq<Entry>, e: Entry, i: nat)
    requires e.kind == Purchase && e.residentId != [] && !e.freeItem && RowOf(View(baseline, queue), e.residentId, i)
    ensures var view, next := View(baseline, queue), View(baseline, queue + [e]);
            && OthersKept(view, next, i)
            && next[i].residentId == view[i].residentId && next[i].residentName == view[i].residentName
            && next[i].drinks as int == (view[i].drinks as int + 1) % 65536
            && (next[i].totalRappen as int - view[i].totalRappen as int - e.priceRappen as int) % 4294967296 == 0
  {
    ViewNext(baseline, queue, e);
  }

  /** The first drink of a resident opens a row, while there is room for one. */
  lemma FirstDrink(baseline: seq<Tally>, queue: seq<Entry>, e: Entry)
    requires e.kind == Purchase && e.residentId != []
    requires forall j :: 0 <= j < |View(baseline, queue)| ==> View(baseline, queue)[j].residentId != e.residentId
    ensures var view := View(baseline, queue);
            var row := Tally(e.residentId, e.residentName, 1, if e.freeItem then 0 else e.priceRappen);
            View(baseline, queue + [e]) == if |view| < 11 then view + [row] else view
  {
    ViewNext(baseline, queue, e);
  }

  /** Nothing else that is queued shows in the figures: no reversal, no product change, and
      no purchase without a resident. */
  lemma NoDrink(baseline: seq<Tally>, queue: seq<Entry>, e: Entry)
    requires e.residentId == [] || e.kind == Void || e.kind == Archive || e.kind == Restore || e.kind == Create
             || e.kind == ChangePrice
    ensures View(baseline, queue + [e]) == View(baseline, queue)
  {
    ViewNext(baseline, queue, e);
  }

  /** Without a queue the figures are those of the backend. */
  lemma NothingQueued(baseline: seq<Tally>)
    ensures View(baseline, []) == baseline
  {}
}
