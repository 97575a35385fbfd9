/** The consumption figures: those of the last sync, and the purchases still queued. */
module PurchaseLog {
  import opened Bits
  import opened Records
  import opened Sets
  import opened Wrappers
  import opened Settings
  import opened TransactionQueue

  // ---- Counters ---------------------------------------------------------------

  function Wrap16(x: int): Uint16 {
    x % 0x1_0000
  }

  function Wrap32(x: int): Int32 {
    var m := x % 0x1_0000_0000;
    if m < 0x8000_0000 then m else m - 0x1_0000_0000
  }

  // ---- The view as a function of baseline and queue ---------------------------

  predicate Counts(e: Entry) {
    e.kind == Purchase && e.residentId != []
  }

  function Cost(e: Entry): int {
    if e.freeItem then 0 else e.priceRappen
  }

  function FindRow(view: seq<Tally>, id: Text): (row: Option<nat>)
    ensures row.Some? ==> row.value < |view| && view[row.value].residentId == id
                          && forall i :: 0 <= i < row.value ==> view[i].residentId != id
    ensures row.None? ==> forall i :: 0 <= i < |view| ==> view[i].residentId != id
    decreases |view|
  {
    if |view| == 0 then None
    else if view[0].residentId == id then Some(0)
    else
      match FindRow(view[1..], id)
      case None => None
      case Some(i) => Some(i + 1)
  }

  function Charge(t: Tally, e: Entry): Tally {
    var drinks: int, total: int := t.drinks, t.totalRappen;
    t.(drinks := Wrap16(drinks + 1), totalRappen := Wrap32(total + Cost(e)))
  }

  function AddEntry(view: seq<Tally>, e: Entry): seq<Tally> {
    if !Counts(e) then view
    else
      match FindRow(view, e.residentId)
      case Some(i) => view[i := Charge(view[i], e)]
      case None =>
        if |view| >= MAX_RESIDENTS then view
        else view + [Charge(Tally(e.residentId, e.residentName, 0, 0), e)]
  }

  function View(baseline: seq<Tally>, queue: seq<Entry>): seq<Tally>
    decreases |queue|
  {
    if |queue| == 0 then baseline
    else AddEntry(View(baseline, queue[..|queue| - 1]), queue[|queue| - 1])
  }

  // ---- What each resident owes ------------------------------------------------

  function Drinks(rows: seq<Tally>, id: Text): int
    decreases |rows|
  {
    if |rows| == 0 then 0
    else Drinks(rows[..|rows| - 1], id) + if rows[|rows| - 1].residentId == id then rows[|rows| - 1].drinks else 0
  }

  function Rappen(rows: seq<Tally>, id: Text): int
    decreases |rows|
  {
    if |rows| == 0 then 0
    else Rappen(rows[..|rows| - 1], id) + if rows[|rows| - 1].residentId == id then rows[|rows| - 1].totalRappen else 0
  }

  function QueuedDrinks(queue: seq<Entry>, id: Text): (n: nat)
    decreases |queue|
  {
    if |queue| == 0 then 0
    else
      var e := queue[|queue| - 1];
      QueuedDrinks(queue[..|queue| - 1], id) + if Counts(e) && e.residentId == id then 1 else 0
  }

  function QueuedRappen(queue: seq<Entry>, id: Text): int
    decreases |queue|
  {
    if |queue| == 0 then 0
    else
      var e := queue[|queue| - 1];
      QueuedRappen(queue[..|queue| - 1], id) + if Counts(e) && e.residentId == id then Cost(e) else 0
  }

  predicate Shown(view: seq<Tally>, id: Text) {
    exists i :: 0 <= i < |view| && view[i].residentId == id
  }

  lemma {:induction false} UpdateRow(rows: seq<Tally>, i: nat, t: Tally, id: Text)
    requires i < |rows| && t.residentId == rows[i].residentId
    ensures Drinks(rows[i := t], id)
            == Drinks(rows, id) + if t.residentId == id then t.drinks as int - rows[i].drinks as int else 0
    ensures Rappen(rows[i := t], id)
            == Rappen(rows, id) + if t.residentId == id then t.totalRappen as int - rows[i].totalRappen as int else 0
    decreases |rows|
  {
    var n := |rows| - 1;
    if i < n {
      UpdateRow(rows[..n], i, t, id);
      assert rows[i := t][..n] == rows[..n][i := t];
    } else {
      assert rows[i := t][..n] == rows[..n];
    }
  }

  lemma AppendRow(rows: seq<Tally>, t: Tally, id: Text)
    ensures Drinks(rows + [t], id) == Drinks(rows, id) + if t.residentId == id then t.drinks else 0
    ensures Rappen(rows + [t], id) == Rappen(rows, id) + if t.residentId == id then t.totalRappen else 0
  {
    assert (rows + [t])[..|rows|] == rows;
  }

  lemma {:induction false} NoRow(rows: seq<Tally>, id: Text)
    requires !Shown(rows, id)
    ensures Drinks(rows, id) == 0 && Rappen(rows, id) == 0
    decreases |rows|
  {
    if |rows| > 0 {
      var init := rows[..|rows| - 1];
      assert forall i :: 0 <= i < |init| ==> init[i] == rows[i];
      NoRow(init, id);
    }
  }

  const TURN16: int := 0x1_0000
  const TURN32: int := 0x1_0000_0000

  /** How often a counter turns over when it reaches x. */
  lemma Turns16(x: int) returns (k: int)
    ensures Wrap16(x) as int == x - k * TURN16
  {
    k := x / TURN16;
  }

  lemma Turns32(x: int) returns (k: int)
    ensures Wrap32(x) as int == x - k * TURN32
  {
    k := if x % TURN32 < 0x8000_0000 then x / TURN32 else x / TURN32 + 1;
  }

  /** Whole turns do not show on a counter. */
  lemma Unturned16(x: int, y: int, k: int)
    requires x == y - k * TURN16
    ensures Wrap16(x) == Wrap16(y)
  {
    assert x == (y / TURN16 - k) * TURN16 + y % TURN16;
  }

  lemma Unturned32(x: int, y: int, k: int)
    requires x == y - k * TURN32
    ensures Wrap32(x) == Wrap32(y)
  {
    assert x == (y / TURN32 - k) * TURN32 + y % TURN32;
  }

  /** A counter shows the true sum exactly when the sum is in its range. */
  lemma InRange16(shown: int, sum: int, k: int)
    requires 0 <= shown < TURN16 && shown == sum - k * TURN16
    ensures 0 <= sum < TURN16 <==> shown == sum
  {}

  lemma InRange32(shown: int, sum: int, k: int)
    requires -0x8000_0000 <= shown < 0x8000_0000 && shown == sum - k * TURN32
    ensures -0x8000_0000 <= sum < 0x8000_0000 <==> shown == sum
  {}

  /** One entry adds its drink and its price to its resident's figures, up to whole
      turns of the counters, and touches nobody else's. */
  lemma AddEntryCharges(view: seq<Tally>, e: Entry, id: Text) returns (k: int, j: int)
    requires Shown(AddEntry(view, e), id)
    ensures var next := AddEntry(view, e);
            var mine := Counts(e) && e.residentId == id;
            && Drinks(next, id) == Drinks(view, id) + (if mine then 1 else 0) - k * TURN16
            && Rappen(next, id) == Rappen(view, id) + (if mine then Cost(e) else 0) - j * TURN32
  {
    k, j := 0, 0;
    if Counts(e) {
      var found := FindRow(view, e.residentId);
      if found.Some? {
        var t := view[found.value];
        UpdateRow(view, found.value, Charge(t, e), id);
        if e.residentId == id {
          k, j := ChargeTurns(t, e);
        }
      } else if |view| < MAX_RESIDENTS {
        var t := Tally(e.residentId, e.residentName, 0, 0);
        AppendRow(view, Charge(t, e), id);
        if e.residentId == id {
          k, j := ChargeTurns(t, e);
        }
      }
    }
  }

  lemma ChargeTurns(t: Tally, e: Entry) returns (k: int, j: int)
    ensures Charge(t, e).drinks as int == t.drinks as int + 1 - k * TURN16
    ensures Charge(t, e).totalRappen as int == t.totalRappen as int + Cost(e) - j * TURN32
  {
    var drinks: int, total: int := t.drinks, t.totalRappen;
    k := Turns16(drinks + 1);
    j := Turns32(total + Cost(e));
  }

  lemma AddEntryShows(view: seq<Tally>, e: Entry, id: Text)
    ensures Shown(view, id) ==> Shown(AddEntry(view, e), id)
    ensures Counts(e) && e.residentId == id && !Shown(AddEntry(view, e), id) ==> |view| >= MAX_RESIDENTS
    ensures |view| >= MAX_RESIDENTS && Shown(AddEntry(view, e), id) ==> Shown(view, id)
    ensures |view| <= |AddEntry(view, e)| && (|view| <= MAX_RESIDENTS ==> |AddEntry(view, e)| <= MAX_RESIDENTS)
    ensures !Shown(view, id) && Shown(AddEntry(view, e), id) ==> Counts(e) && e.residentId == id
  {
    var next := AddEntry(view, e);
    assert forall j :: 0 <= j < |view| ==> next[j].residentId == view[j].residentId;
    if Counts(e) && FindRow(view, e.residentId).None? && |view| < MAX_RESIDENTS {
      assert next[|view|].residentId == e.residentId;
    }
    if Shown(view, id) {
      var i :| 0 <= i < |view| && view[i].residentId == id;
      assert next[i].residentId == id;
    }
  }

  lemma {:induction false} Visibility(baseline: seq<Tally>, queue: seq<Entry>, id: Text)
    requires |baseline| <= MAX_RESIDENTS
    ensures var view := View(baseline, queue);
            && |view| <= MAX_RESIDENTS
            && (Shown(baseline, id) ==> Shown(view, id))
            && (!Shown(view, id) && |view| < MAX_RESIDENTS ==> QueuedDrinks(queue, id) == 0 && QueuedRappen(queue, id) == 0)
    decreases |queue|
  {
    if |queue| > 0 {
      var before, e := queue[..|queue| - 1], queue[|queue| - 1];
      Visibility(baseline, before, id);
      AddEntryShows(View(baseline, before), e, id);
    }
  }

  lemma {:induction false} FiguresConserve(baseline: seq<Tally>, queue: seq<Entry>, id: Text) returns (k: int, j: int)
    requires |baseline| <= MAX_RESIDENTS && Shown(View(baseline, queue), id)
    ensures Drinks(View(baseline, queue), id) == Drinks(baseline, id) + QueuedDrinks(queue, id) - k * TURN16
    ensures Rappen(View(baseline, queue), id) == Rappen(baseline, id) + QueuedRappen(queue, id) - j * TURN32
    decreases |queue|
  {
    k, j := 0, 0;
    if |queue| > 0 {
      var before, e := queue[..|queue| - 1], queue[|queue| - 1];
      var view := View(baseline, before);
      AddEntryShows(view, e, id);
      Visibility(baseline, before, id);
      k, j := AddEntryCharges(view, e, id);
      if Shown(view, id) {
        var k', j' := FiguresConserve(baseline, before, id);
        k, j := k + k', j + j';
      } else {
        NoRow(view, id);
        NoRow(baseline, id);
      }
    }
  }

  /** The summary never invents or loses a drink: every resident on it has exactly the
      backend's figures plus their queued purchases (free ones add a drink and no
      money), modulo the counters' widths; and a resident with queued purchases is
      missing only when the summary is full of others. */
  lemma SummaryConserves(baseline: seq<Tally>, queue: seq<Entry>, id: Text)
    requires |baseline| <= MAX_RESIDENTS
    ensures var view := View(baseline, queue);
            && (Shown(view, id) ==>
                  && Wrap16(Drinks(view, id)) == Wrap16(Drinks(baseline, id) + QueuedDrinks(queue, id))
                  && Wrap32(Rappen(view, id)) == Wrap32(Rappen(baseline, id) + QueuedRappen(queue, id)))
            && (Shown(baseline, id) || QueuedDrinks(queue, id) > 0 ==> Shown(view, id) || |view| == MAX_RESIDENTS)
  {
    Visibility(baseline, queue, id);
    if Shown(View(baseline, queue), id) {
      var k, j := FiguresConserve(baseline, queue, id);
      Unturned16(Drinks(View(baseline, queue), id), Drinks(baseline, id) + QueuedDrinks(queue, id), k);
      Unturned32(Rappen(View(baseline, queue), id), Rappen(baseline, id) + QueuedRappen(queue, id), j);
    }
  }

  predicate UniqueResidents(rows: seq<Tally>) {
    forall i, j :: 0 <= i < j < |rows| ==> rows[i].residentId != rows[j].residentId
  }

  lemma {:induction false} ViewUnique(baseline: seq<Tally>, queue: seq<Entry>)
    requires UniqueResidents(baseline)
    ensures UniqueResidents(View(baseline, queue))
    decreases |queue|
  {
    if |queue| > 0 {
      ViewUnique(baseline, queue[..|queue| - 1]);
    }
  }

  lemma {:induction false} OneRow(rows: seq<Tally>, i: nat)
    requires UniqueResidents(rows) && i < |rows|
    ensures Drinks(rows, rows[i].residentId) == rows[i].drinks as int
    ensures Rappen(rows, rows[i].residentId) == rows[i].totalRappen as int
    decreases |rows|
  {
    var n := |rows| - 1;
    if i < n {
      OneRow(rows[..n], i);
    } else {
      var init, id := rows[..n], rows[n].residentId;
      assert forall j :: 0 <= j < n ==> init[j].residentId == rows[j].residentId != id;
      NoRow(init, id);
    }
  }

  /** With one baseline row a resident and no counter overflowing, each row of the
      summary is exact. */
  lemma SummaryExact(baseline: seq<Tally>, queue: seq<Entry>, i: nat)
    requires |baseline| <= MAX_RESIDENTS && UniqueResidents(baseline) && i < |View(baseline, queue)|
    ensures var row := View(baseline, queue)[i];
            var drinks := Drinks(baseline, row.residentId) + QueuedDrinks(queue, row.residentId);
            var rappen := Rappen(baseline, row.residentId) + QueuedRappen(queue, row.residentId);
            && (0 <= drinks < 0x1_0000 <==> row.drinks as int == drinks)
            && (-0x8000_0000 <= rappen < 0x8000_0000 <==> row.totalRappen as int == rappen)
  {
    var view := View(baseline, queue);
    var row := view[i];
    var id := row.residentId;
    ViewUnique(baseline, queue);
    OneRow(view, i);
    var k, j := FiguresConserve(baseline, queue, id);
    InRange16(row.drinks, Drinks(baseline, id) + QueuedDrinks(queue, id), k);
    InRange32(row.totalRappen, Rappen(baseline, id) + QueuedRappen(queue, id), j);
  }

  // ---- Totals -----------------------------------------------------------------

  function AllDrinks(rows: seq<Tally>): int
    decreases |rows|
  {
    if |rows| == 0 then 0 else AllDrinks(rows[..|rows| - 1]) + rows[|rows| - 1].drinks as int
  }

  function AllRappen(rows: seq<Tally>): int
    decreases |rows|
  {
    if |rows| == 0 then 0 else AllRappen(rows[..|rows| - 1]) + rows[|rows| - 1].totalRappen as int
  }

  function AllQueuedDrinks(queue: seq<Entry>): nat
    decreases |queue|
  {
    if |queue| == 0 then 0 else AllQueuedDrinks(queue[..|queue| - 1]) + if Counts(queue[|queue| - 1]) then 1 else 0
  }

  function AllQueuedRappen(queue: seq<Entry>): int
    decreases |queue|
  {
    if |queue| == 0 then 0
    else AllQueuedRappen(queue[..|queue| - 1]) + if Counts(queue[|queue| - 1]) then Cost(queue[|queue| - 1]) else 0
  }

  lemma {:induction false} UpdateTotal(rows: seq<Tally>, i: nat, t: Tally)
    requires i < |rows|
    ensures AllDrinks(rows[i := t]) == AllDrinks(rows) + t.drinks as int - rows[i].drinks as int
    ensures AllRappen(rows[i := t]) == AllRappen(rows) + t.totalRappen as int - rows[i].totalRappen as int
    decreases |rows|
  {
    var n := |rows| - 1;
    if i < n {
      UpdateTotal(rows[..n], i, t);
      assert rows[i := t][..n] == rows[..n][i := t];
    } else {
      assert rows[i := t][..n] == rows[..n];
    }
  }

  lemma AddEntryTotal(view: seq<Tally>, e: Entry) returns (k: int, j: int)
    requires Counts(e) ==> Shown(AddEntry(view, e), e.residentId)
    ensures AllDrinks(AddEntry(view, e)) == AllDrinks(view) + (if Counts(e) then 1 else 0) - k * TURN16
    ensures AllRappen(AddEntry(view, e)) == AllRappen(view) + (if Counts(e) then Cost(e) else 0) - j * TURN32
  {
    k, j := 0, 0;
    if Counts(e) {
      var found := FindRow(view, e.residentId);
      if found.Some? {
        UpdateTotal(view, found.value, Charge(view[found.value], e));
        k, j := ChargeTurns(view[found.value], e);
      } else {
        var t := Tally(e.residentId, e.residentName, 0, 0);
        assert (view + [Charge(t, e)])[..|view|] == view;
        k, j := ChargeTurns(t, e);
      }
    }
  }

  function Residents(rows: seq<Tally>): set<Text> {
    set i | 0 <= i < |rows| :: rows[i].residentId
  }

  function QueuedResidents(queue: seq<Entry>): set<Text> {
    set i | 0 <= i < |queue| && Counts(queue[i]) :: queue[i].residentId
  }

  /** There is a row for everybody with queued purchases who has none yet. */
  predicate EverybodyFits(baseline: seq<Tally>, queue: seq<Entry>) {
    |baseline| + |QueuedResidents(queue) - Residents(baseline)| <= MAX_RESIDENTS
  }

  ghost predicate NobodyDropped(baseline: seq<Tally>, queue: seq<Entry>) {
    forall i :: 0 <= i < |queue| && Counts(queue[i]) ==> Shown(View(baseline, queue), queue[i].residentId)
  }

  lemma NobodyDroppedBefore(baseline: seq<Tally>, queue: seq<Entry>)
    requires |baseline| <= MAX_RESIDENTS && |queue| > 0 && NobodyDropped(baseline, queue)
    ensures NobodyDropped(baseline, queue[..|queue| - 1])
  {
    var before, e := queue[..|queue| - 1], queue[|queue| - 1];
    forall i | 0 <= i < |before| && Counts(before[i])
      ensures Shown(View(baseline, before), before[i].residentId)
    {
      assert queue[i] == before[i];
      Visibility(baseline, before, before[i].residentId);
      QueuedAtLeastOne(before, i);
      AddEntryShows(View(baseline, before), e, before[i].residentId);
    }
  }

  lemma AddEntryResidents(view: seq<Tally>, e: Entry)
    ensures var next := AddEntry(view, e);
            Residents(next) == Residents(view) + if |next| > |view| then {e.residentId} else {}
    ensures |AddEntry(view, e)| > |view| ==>
              |AddEntry(view, e)| == |view| + 1 && Counts(e) && e.residentId !in Residents(view)
  {
    var next := AddEntry(view, e);
    assert forall j :: 0 <= j < |view| ==> next[j].residentId == view[j].residentId;
    forall id | id in Residents(view)
      ensures id in Residents(next)
    {
      var i :| 0 <= i < |view| && view[i].residentId == id;
      assert next[i].residentId == id;
    }
    if |next| > |view| {
      assert next[|view|].residentId == e.residentId;
    }
  }

  lemma QueuedResidentsLast(queue: seq<Entry>)
    requires |queue| > 0
    ensures var e := queue[|queue| - 1];
            QueuedResidents(queue)
            == QueuedResidents(queue[..|queue| - 1]) + if Counts(e) then {e.residentId} else {}
  {
    var before, e := queue[..|queue| - 1], queue[|queue| - 1];
    forall id | id in QueuedResidents(before)
      ensures id in QueuedResidents(queue)
    {
      var i :| 0 <= i < |before| && Counts(before[i]) && before[i].residentId == id;
      assert queue[i] == before[i];
    }
    forall id | id in QueuedResidents(queue)
      ensures id in QueuedResidents(before) || (Counts(e) && id == e.residentId)
    {
      var i :| 0 <= i < |queue| && Counts(queue[i]) && queue[i].residentId == id;
      assert i < |before| ==> before[i] == queue[i];
    }
  }

  /** A view has one row more than the baseline for each resident that came in. */
  lemma {:induction false} ViewResidents(baseline: seq<Tally>, queue: seq<Entry>)
    ensures var view := View(baseline, queue);
            && Residents(baseline) <= Residents(view) <= Residents(baseline) + QueuedResidents(queue)
            && |view| == |baseline| + |Residents(view) - Residents(baseline)|
    decreases |queue|
  {
    if |queue| > 0 {
      var before, e := queue[..|queue| - 1], queue[|queue| - 1];
      var was, view := View(baseline, before), View(baseline, queue);
      ViewResidents(baseline, before);
      QueuedResidentsLast(queue);
      AddEntryResidents(was, e);
      if |view| > |was| {
        assert Residents(view) - Residents(baseline) == (Residents(was) - Residents(baseline)) + {e.residentId};
      } else {
        GrowsOrStays(was, e);
      }
    } else {
      assert Residents(baseline) - Residents(baseline) == {};
    }
  }

  lemma GrowsOrStays(view: seq<Tally>, e: Entry)
    ensures |AddEntry(view, e)| >= |view|
  {}

  lemma NobodyDroppedIff(baseline: seq<Tally>, queue: seq<Entry>)
    requires |baseline| <= MAX_RESIDENTS
    ensures NobodyDropped(baseline, queue) <==> EverybodyFits(baseline, queue)
  {
    var view := View(baseline, queue);
    var came, due := Residents(view) - Residents(baseline), QueuedResidents(queue) - Residents(baseline);
    ViewResidents(baseline, queue);
    if NobodyDropped(baseline, queue) {
      forall id | id in due
        ensures id in came
      {
        var i :| 0 <= i < |queue| && Counts(queue[i]) && queue[i].residentId == id;
        assert Shown(view, id);
      }
      Subset(due, came);
      Visibility(baseline, queue, []);
    } else {
      var i :| 0 <= i < |queue| && Counts(queue[i]) && !Shown(view, queue[i].residentId);
      var id := queue[i].residentId;
      Visibility(baseline, queue, id);
      QueuedAtLeastOne(queue, i);
      assert id !in Residents(view);
      Smaller(came, due, id);
    }
  }

  lemma {:induction false} TotalsTurn(baseline: seq<Tally>, queue: seq<Entry>) returns (k: int, j: int)
    requires |baseline| <= MAX_RESIDENTS && NobodyDropped(baseline, queue)
    ensures AllDrinks(View(baseline, queue)) == AllDrinks(baseline) + AllQueuedDrinks(queue) - k * TURN16
    ensures AllRappen(View(baseline, queue)) == AllRappen(baseline) + AllQueuedRappen(queue) - j * TURN32
    decreases |queue|
  {
    k, j := 0, 0;
    if |queue| > 0 {
      var before, e := queue[..|queue| - 1], queue[|queue| - 1];
      NobodyDroppedBefore(baseline, queue);
      var k', j' := TotalsTurn(baseline, before);
      k, j := AddEntryTotal(View(baseline, before), e);
      k, j := k + k', j + j';
    }
  }

  /** When everybody fits, the totals are the backend's plus the whole queue's, up to
      whole turns of the counters. */
  lemma TotalsConserve(baseline: seq<Tally>, queue: seq<Entry>) returns (k: int, j: int)
    requires |baseline| <= MAX_RESIDENTS && EverybodyFits(baseline, queue)
    ensures AllDrinks(View(baseline, queue)) == AllDrinks(baseline) + AllQueuedDrinks(queue) - k * TURN16
    ensures AllRappen(View(baseline, queue)) == AllRappen(baseline) + AllQueuedRappen(queue) - j * TURN32
  {
    NobodyDroppedIff(baseline, queue);
    k, j := TotalsTurn(baseline, queue);
  }

  /** So the totals shown are exact if and only if they fit their counters. */
  lemma TotalsExact(baseline: seq<Tally>, queue: seq<Entry>)
    requires |baseline| <= MAX_RESIDENTS && EverybodyFits(baseline, queue)
    ensures var drinks := AllDrinks(baseline) + AllQueuedDrinks(queue);
            var rappen := AllRappen(baseline) + AllQueuedRappen(queue);
            && (Wrap16(AllDrinks(View(baseline, queue))) as int == drinks <==> 0 <= drinks < 0x1_0000)
            && (Wrap32(AllRappen(View(baseline, queue))) as int == rappen <==> -0x8000_0000 <= rappen < 0x8000_0000)
  {
    var k, j := TotalsConserve(baseline, queue);
    Exact16(AllDrinks(View(baseline, queue)), AllDrinks(baseline) + AllQueuedDrinks(queue), k);
    Exact32(AllRappen(View(baseline, queue)), AllRappen(baseline) + AllQueuedRappen(queue), j);
  }

  lemma Exact16(x: int, y: int, k: int)
    requires x == y - k * TURN16
    ensures Wrap16(x) as int == y <==> 0 <= y < 0x1_0000
  {
    Unturned16(x, y, k);
  }

  lemma Exact32(x: int, y: int, j: int)
    requires x == y - j * TURN32
    ensures Wrap32(x) as int == y <==> -0x8000_0000 <= y < 0x8000_0000
  {
    Unturned32(x, y, j);
  }

  lemma {:induction false} QueuedAtLeastOne(queue: seq<Entry>, i: nat)
    requires i < |queue| && Counts(queue[i])
    ensures QueuedDrinks(queue, queue[i].residentId) > 0
    decreases |queue|
  {
    if i < |queue| - 1 {
      QueuedAtLeastOne(queue[..|queue| - 1], i);
    }
  }

  // ---- The arrays -------------------------------------------------------------

  class Log {
    const queue: Queue
    const baseline: array<Tally>
    const view: array<Tally>
    var baselineCount: nat
    var viewCount: nat
    var hasBaseline: bool
    var dirty: bool

    ghost predicate Valid()
      reads this
    {
      && baseline.Length == MAX_RESIDENTS && view.Length == MAX_RESIDENTS && baseline != view
      && baselineCount <= MAX_RESIDENTS && viewCount <= MAX_RESIDENTS
    }

    ghost function Baseline(): seq<Tally>
      requires Valid()
      reads this, baseline
    {
      baseline[..baselineCount]
    }

    ghost function Rows(): seq<Tally>
      requires Valid()
      reads this, view
    {
      view[..viewCount]
    }

    constructor (queue: Queue)
      ensures Valid() && Baseline() == [] && Rows() == [] && !hasBaseline && this.queue == queue
      ensures fresh(baseline) && fresh(view)
    {
      this.queue := queue;
      baseline := new Tally[MAX_RESIDENTS](_ => Tally([], [], 0, 0));
      view := new Tally[MAX_RESIDENTS](_ => Tally([], [], 0, 0));
      baselineCount := 0;
      viewCount := 0;
      hasBaseline := false;
      dirty := false;
    }

    method FindOrAdd(id: Text, name: Text) returns (row: Option<nat>)
      requires Valid()
      modifies view, this`viewCount
      ensures Valid()
      ensures row == match FindRow(old(Rows()), id)
                     case Some(i) => Some(i)
                     case None => if |old(Rows())| >= MAX_RESIDENTS then None else Some(|old(Rows())|)
      ensures Rows() == if FindRow(old(Rows()), id).None? && row.Some? then old(Rows()) + [Tally(id, name, 0, 0)] else old(Rows())
    {
      for i := 0 to viewCount
        invariant view[..] == old(view[..]) && viewCount == old(viewCount)
        invariant forall j :: 0 <= j < i ==> view[j].residentId != id
      {
        if view[i].residentId == id {
          assert Rows()[i].residentId == id;
          return Some(i);
        }
      }
      if viewCount >= MAX_RESIDENTS {
        return None;
      }
      view[viewCount] := Tally(id, name, 0, 0);
      viewCount := viewCount + 1;
      return Some(viewCount - 1);
    }

    /** One turn of the queue loop. */
    method AddQueued(e: Entry)
      requires Valid()
      modifies view, this`viewCount
      ensures Valid() && Rows() == AddEntry(old(Rows()), e)
    {
      if e.kind != Purchase || e.residentId == [] {
        return;
      }
      var row := FindOrAdd(e.residentId, e.residentName);
      if row.None? {
        return;
      }
      var t := view[row.value];
      var drinks: int, total: int := t.drinks, t.totalRappen;
      var total' := Wrap32(if e.freeItem then total else total + e.priceRappen);
      view[row.value] := t.(drinks := Wrap16(drinks + 1), totalRappen := total');
    }

    method Rebuild()
      requires Valid() && queue.Valid()
      modifies view, this`viewCount
      ensures Valid() && Rows() == View(Baseline(), queue.Contents())
    {
      ghost var base, q := Baseline(), queue.Contents();
      viewCount := 0;
      for i := 0 to baselineCount
        invariant Valid() && viewCount == i
        invariant Rows() == base[..i]
      {
        view[viewCount] := baseline[i];
        viewCount := viewCount + 1;
      }
      assert base[..baselineCount] == base;
      for i := 0 to queue.count
        invariant Valid() && Rows() == View(base, q[..i])
      {
        assert q[i] == queue.items[i] && q[..i + 1][..i] == q[..i];
        AddQueued(queue.items[i]);
      }
      assert q[..queue.count] == q;
    }

    method SetBaseline(entries: seq<Tally>)
      requires Valid() && queue.Valid()
      modifies this, baseline, view
      ensures Valid()
      ensures Baseline() == if |entries| <= MAX_RESIDENTS then entries else old(Baseline())
      ensures |entries| <= MAX_RESIDENTS ==> Rows() == View(Baseline(), queue.Contents()) && hasBaseline && dirty
      ensures |entries| > MAX_RESIDENTS ==> Rows() == old(Rows()) && hasBaseline == old(hasBaseline) && dirty == old(dirty)
    {
      if |entries| > MAX_RESIDENTS {
        return;
      }
      for i := 0 to |entries|
        invariant Valid() && forall j :: 0 <= j < i ==> baseline[j] == entries[j]
      {
        baseline[i] := entries[i];
      }
      baselineCount := |entries|;
      hasBaseline := true;
      dirty := true;
      assert Baseline() == entries;
      Rebuild();
    }

    method TotalDrinks() returns (n: Uint16)
      requires Valid() && queue.Valid()
      modifies view, this`viewCount
      ensures Valid() && Rows() == View(Baseline(), queue.Contents())
      ensures n == Wrap16(AllDrinks(Rows()))
    {
      Rebuild();
      n := SumDrinks();
    }

    method SumDrinks() returns (n: Uint16)
      requires Valid()
      ensures n == Wrap16(AllDrinks(Rows()))
    {
      n := 0;
      for i := 0 to viewCount
        invariant n == Wrap16(AllDrinks(Rows()[..i]))
      {
        assert Rows()[..i + 1][..i] == Rows()[..i] && Rows()[i] == view[i];
        n := Carry16(AllDrinks(Rows()[..i]), n, view[i].drinks);
      }
      assert Rows()[..viewCount] == Rows();
    }

    method TotalRappen() returns (n: Int32)
      requires Valid() && queue.Valid()
      modifies view, this`viewCount
      ensures Valid() && Rows() == View(Baseline(), queue.Contents())
      ensures n == Wrap32(AllRappen(Rows()))
    {
      Rebuild();
      n := SumRappen();
    }

    method SumRappen() returns (n: Int32)
      requires Valid()
      ensures n == Wrap32(AllRappen(Rows()))
    {
      n := 0;
      for i := 0 to viewCount
        invariant n == Wrap32(AllRappen(Rows()[..i]))
      {
        assert Rows()[..i + 1][..i] == Rows()[..i] && Rows()[i] == view[i];
        n := Carry32(AllRappen(Rows()[..i]), n, view[i].totalRappen);
      }
      assert Rows()[..viewCount] == Rows();
    }
  }

  /** Adding to a counter that has turned over is adding to the full sum. */
  method Carry16(ghost sum: int, n: Uint16, x: int) returns (next: Uint16)
    requires n == Wrap16(sum)
    ensures next == Wrap16(sum + x)
  {
    var shown: int := n;
    next := Wrap16(shown + x);
    ghost var k := Turns16(sum);
    Unturned16(shown + x, sum + x, k);
  }

  method Carry32(ghost sum: int, n: Int32, x: int) returns (next: Int32)
    requires n == Wrap32(sum)
    ensures next == Wrap32(sum + x)
  {
    var shown: int := n;
    next := Wrap32(shown + x);
    ghost var k := Turns32(sum);
    Unturned32(shown + x, sum + x, k);
  }
}
