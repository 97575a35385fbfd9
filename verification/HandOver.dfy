/** What a purchase, its reversal and a product change look like in the queue: every field,
    from what was chosen on the screens and what the lists hold. */
module HandOver {
  import opened Records
  import opened TransactionQueue
  import opened AppState
  import AppMachine
  import B = Backend

  /** s as a character array with room for n characters holds it. */
  predicate IsCut(t: Text, s: Text, n: nat) {
    t <= s && |t| == if |s| <= n then |s| else n
  }

  /** e is a purchase of what the context holds, by the resident at its index. */
  predicate IsPurchaseOf(e: Entry, ctx: Context, id: Text, residents: seq<Resident>) {
    var i := ctx.residentIndex;
    && e.kind == Purchase && e.transactionId == id
    && e.barcode == ctx.barcode && e.productName == ctx.productName
    && e.priceRappen == ctx.priceRappen && e.freeItem == ctx.freeItem
    && (if 0 <= i < |residents| then IsCut(e.residentId, residents[i].id, 11) && IsCut(e.residentName, residents[i].name, 23)
        else e.residentId == [] && e.residentName == [])
  }

  predicate IsReversalOf(e: Entry, ctx: Context) {
    && e.kind == Void && e.transactionId == ctx.transactionId && e.productName == ctx.productName
    && e.barcode == [] && e.residentId == [] && e.residentName == [] && e.priceRappen == 0 && !e.freeItem
  }

  predicate IsChangeOf(e: Entry, c: Change, kind: Kind) {
    && e.kind == kind && e.transactionId == c.id && e.barcode == c.barcode && e.productName == c.name
    && e.priceRappen == c.priceRappen && e.freeItem == c.freeItem && e.residentId == [] && e.residentName == []
  }

  /** One entry is new, at the end, and it is of this kind. */
  predicate Appends(d: Device, v: Device, fits: Entry -> bool) {
    |v.queue| == |d.queue| + 1 && v.queue[..|d.queue|] == d.queue && fits(v.queue[|d.queue|])
  }

  /** Choosing a resident buys what was chosen, for that resident, under the new id. */
  lemma ChoiceBuys(d: Device, m: Moment)
    requires d.slot.configured && |d.queue| < 64 && d.ui.screen == SelectingUser
    ensures var v := Dispatch(d, ResidentSelected, m);
            && v.ui.screen == Submitting && v.ui.ctx.transactionId == m.minted
            && Appends(d, v, (e: Entry) => IsPurchaseOf(e, d.ui.ctx, m.minted, m.residents))
  {
    var x := WithContext(d, d.ui.ctx.(transactionId := m.minted)).(slot := B.Clear(d.slot));
    assert Dispatch(d, ResidentSelected, m) == Enter(x, Submitting, m);
    EntersWith(x, m);
  }

  lemma EntersWith(d: Device, m: Moment)
    requires d.slot.configured && |d.queue| < 64 && d.ui.screen != Submitting
    ensures var v := Enter(d, Submitting, m);
            && v.ui.screen == Submitting && v.ui.ctx == d.ui.ctx.(deferred := v.ui.ctx.deferred)
            && Appends(d, v, (e: Entry) => IsPurchaseOf(e, d.ui.ctx, d.ui.ctx.transactionId, m.residents))
  {
    EnterUi(d, Submitting, m);
    var x := d.(ui := d.ui.(screen := Submitting, deadline := 0, dwell := 0));
    assert Enter(d, Submitting, m).queue == EnqueuePurchase(x, m).0.queue == d.queue + [PurchaseEntry(d.ui.ctx, m)];
  }

  /** So does the retry of a submission, under the id it had. */
  lemma RetryBuys(d: Device, m: Moment)
    requires d.slot.configured && |d.queue| < 64 && d.ui.screen == Error && !d.ui.ctx.undoInFlight
    ensures var v := Dispatch(d, Retry, m);
            v.ui.screen == Submitting
            && Appends(d, v, (e: Entry) => IsPurchaseOf(e, d.ui.ctx, d.ui.ctx.transactionId, m.residents))
  {
    assert Dispatch(d, Retry, m) == Enter(d, Submitting, m);
    EntersWith(d, m);
  }

  /** The first purchase with the id is gone, and nothing else. */
  ghost predicate TakenOut(q: seq<Entry>, v: seq<Entry>, id: Text) {
    exists i :: 0 <= i < |q| && q[i].kind == Purchase && q[i].transactionId == id
                && (forall j :: 0 <= j < i ==> q[j].kind != Purchase || q[j].transactionId != id)
                && v == q[..i] + q[i + 1..]
  }

  /** The queued purchase is taken out, or its reversal sent after it, or there is no room. */
  ghost predicate Undone(q: seq<Entry>, v: seq<Entry>, ctx: Context) {
    if exists i :: 0 <= i < |q| && q[i].kind == Purchase && q[i].transactionId == ctx.transactionId
    then TakenOut(q, v, ctx.transactionId)
    else if |q| < 64 then |v| == |q| + 1 && v[..|q|] == q && IsReversalOf(v[|q|], ctx)
    else v == q
  }

  lemma UndoReverses(d: Device, m: Moment)
    requires d.slot.configured && d.ui.screen == Success && !d.ui.ctx.undone
    ensures var v := Dispatch(d, Undo, m); v.ui.screen == Undoing && Undone(d.queue, v.queue, d.ui.ctx)
  {
    var x := WithContext(d, d.ui.ctx.(undoInFlight := true));
    assert Dispatch(d, Undo, m) == Enter(x, Undoing, m) by {
      Plainly(d, Undo, m);
    }
    EntersUndoing(x, m);
    SameUndo(d.queue, Enter(x, Undoing, m).queue, x.ui.ctx, d.ui.ctx);
  }

  lemma SameUndo(q: seq<Entry>, v: seq<Entry>, a: Context, b: Context)
    requires a.transactionId == b.transactionId && a.productName == b.productName && Undone(q, v, a)
    ensures Undone(q, v, b)
  {}

  lemma EntersUndoing(d: Device, m: Moment)
    requires d.slot.configured && d.ui.screen != Undoing
    ensures var v := Enter(d, Undoing, m); v.ui.screen == Undoing && Undone(d.queue, v.queue, d.ui.ctx)
  {
    var id := d.ui.ctx.transactionId;
    EnterUi(d, Undoing, m);
    assert Enter(d, Undoing, m).queue == EnqueueUndo(d.(ui := d.ui.(screen := Undoing, deadline := 0, dwell := 0)), m).0.queue;
    if HoldsPurchase(d.queue, id) {
      TakesOut(d.queue, id);
    }
  }

  lemma TakesOut(q: seq<Entry>, id: Text)
    requires HoldsPurchase(q, id)
    ensures TakenOut(q, RemoveFirst(q, PurchaseOf(id)), id)
  {
    var i := FirstPurchase(q, id);
    RemoveFirstIs(q, PurchaseOf(id), i);
    assert forall j :: 0 <= j < i ==> !PurchaseOf(id)(q[j]);
  }

  lemma FirstPurchase(q: seq<Entry>, id: Text) returns (i: nat)
    requires HoldsPurchase(q, id)
    ensures IsFirst(q, PurchaseOf(id), i)
  {
    i := 0;
    while !(q[i].kind == Purchase && q[i].transactionId == id)
      invariant i < |q| && forall j :: 0 <= j < i ==> !PurchaseOf(id)(q[j])
      invariant exists j :: i <= j < |q| && q[j].kind == Purchase && q[j].transactionId == id
      decreases |q| - i
    {
      i := i + 1;
    }
  }

  /** A product change of a screen says which product, and what of it. */
  lemma ChangeTells(d: Device, c: Change, kind: Kind, m: Moment)
    requires d.slot.configured && |d.queue| < 64
    ensures Appends(d, QueueChange(d, c, kind, m), (e: Entry) => IsChangeOf(e, c, kind))
  {}

  /** A confirmed archive is one of them. */
  lemma ArchiveTells(d: Device, m: Moment)
    requires d.slot.configured && |d.queue| < 64 && d.ui.screen == ConfirmArchive && m.product.Some?
    ensures var v := Dispatch(d, ArchiveConfirmed, m);
            v.ui.screen == SelectingProduct && v.ui.ctx == BLANK
            && Appends(d, v, (e: Entry) => IsChangeOf(e, m.product.value, Archive))
  {
    AppMachine.Archived(d, m);
    ChangeTells(d, m.product.value, Archive, m);
    EnterUi(WithContext(QueueChange(d, m.product.value, Archive, m), BLANK), SelectingProduct, m);
  }

  /** The product that a change is about, cut to the fields of the queue. */
  lemma ChangeNames(p: Product, id: Id)
    ensures var c := AppMachine.ChangeOf(p, id);
            && c.id == id && IsCut(c.barcode, p.barcode, 13) && IsCut(c.name, p.name, 39)
            && c.priceRappen == p.priceRappen && c.freeItem == p.freeItem
  {}

  /** A device without a backend queues nothing, and the waits of its screens end as if it
      had been done. */
  lemma NoBackendQueuesNothing(d: Device, e: Event, m: Moment)
    requires !d.slot.configured
    ensures var v := Dispatch(d, e, m);
            v.queue == d.queue && (v.ui.screen.Waits() && !d.ui.screen.Waits() ==> v.ui.simulated && !v.ui.ctx.deferred)
  {
    var p := Planned(d.ui, e, m);
    var x := WithContext(Prepared(d, e, m), p.ctx);
    assert x.queue == d.queue && !x.slot.configured;
    EntersAlone(x, p.next, m);
    EntersAlone(Enter(x, p.next, m), SelectingProduct, m);
  }

  lemma EntersAlone(d: Device, next: Screen, m: Moment)
    requires !d.slot.configured
    ensures var v := Enter(d, next, m);
            && v.queue == d.queue && !v.slot.configured && v.ui.screen == next
            && (next.Waits() && next != d.ui.screen ==> v.ui.simulated && !v.ui.ctx.deferred)
  {}
}
