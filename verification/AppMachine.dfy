/** The state machine as the source keeps it: file-scope variables that every call
    updates in place, next to the queue, the backend, the catalog and flash. */
module AppMachine {
  import opened Records
  import opened Wrappers
  import opened Settings
  import opened Clock
  import opened DeviceStorage
  import opened TransactionQueue
  import opened AppState
  import B = Backend
  import Format
  import ProductCatalog

  /** The clock at the two moments a call reads it, the length of the request it builds,
      the ids it would mint, and how its flash write goes. */
  datatype Instant = Instant(now: Time, later: Time, len: nat, minted: Id, changeId: Id, fate: Fate)

  function ChangeOf(p: Product, id: Id): Change {
    Change(id, Format.Clip(Format.BARCODE, p.barcode), Format.Clip(Format.NAME, p.name), p.priceRappen, p.freeItem)
  }

  /** The grid without the product at the index. */
  function Without(items: seq<Product>, index: int): seq<Product> {
    if 0 <= index < |items| then items[index := items[index].(active := false)] else items
  }

  lemma NothingRemoved(q: seq<Entry>, id: Text)
    requires !HoldsPurchase(q, id)
    ensures RemoveFirst(q, PurchaseOf(id)) == q
  {
    forall j | 0 <= j < |q|
      ensures !PurchaseOf(id)(q[j])
    {
      assert !(q[j].kind == Purchase && q[j].transactionId == id);
    }
    RemoveFirstNone(q, PurchaseOf(id));
  }

  lemma Entered(d: Device, next: Screen, m: Moment, b: Device)
    requires next != d.ui.screen && b == Begun(d.(ui := d.ui.(screen := next, deadline := 0, dwell := 0)), m)
    ensures Enter(d, next, m) == b.(ui := Armed(b.ui, m.later),
                                    slot := B.SetActive(b.slot, next != Sleeping, m.revision, m.len, m.later))
  {}

  lemma Woken(d: Device, e: Event, m: Moment)
    requires d.ui.screen == Sleeping
    ensures Dispatch(d, e, m) == if e == Wake then Enter(Enter(d, Waking, m), SelectingProduct, m) else d
    ensures Enter(Enter(d, Waking, m), SelectingProduct, m).queue == Enter(d, Waking, m).queue == d.queue
  {
    EnterUi(d, Waking, m);
    EnterUi(Enter(d, Waking, m), SelectingProduct, m);
  }

  predicate Fine(r: B.Result) {
    r == B.Success || r == B.Unreachable
  }

  /** The purchase in hand once its result is in. */
  function Told(ui: Ui, r: B.Result): Context {
    var noted := ui.ctx.(deferred := r == B.Unreachable);
    if Fine(r) && ui.screen == Undoing then noted.(undoInFlight := false, undone := true) else noted
  }

  lemma Resolved(d: Device, m: Moment)
    requires d.ui.screen.Waits() && d.slot.result != B.Pending
    ensures var r := d.slot.result;
            var v := Enter(WithContext(d, Told(d.ui, r)), if Fine(r) then Success else Error, m);
            Resolve(d, m) == v.(slot := B.Clear(v.slot))
  {
    var r := d.slot.result;
    var noted := d.ui.ctx.(deferred := r == B.Unreachable);
    Leaves(d, noted, Fine(r), m);
    Leaves(d, noted.(undoInFlight := false, undone := true), true, m);
  }

  /** What is left of the purchase in hand when the timer ends a wait. */
  function Over(ui: Ui): Ui {
    if ui.screen == Undoing then ui.(deadline := 0, ctx := ui.ctx.(undoInFlight := false, undone := true))
    else ui.(deadline := 0, failNext := false)
  }

  lemma ExpiredWait(d: Device, m: Moment)
    requires d.ui.screen.Waits()
    ensures Expire(d, m) == Enter(d.(ui := Over(d.ui)),
                                  if d.ui.screen == Submitting && d.ui.failNext then Error else Success, m)
  {
    var c := d.(ui := d.ui.(deadline := 0));
    if d.ui.screen == Undoing {
      Leaves(c, c.ui.ctx.(undoInFlight := false, undone := true), true, m);
    } else if d.ui.failNext {
      Leaves(c.(ui := c.ui.(failNext := false)), c.ui.ctx, false, m);
    } else {
      assert Over(d.ui) == c.ui;
      Leaves(c, c.ui.ctx, true, m);
    }
  }

  lemma ExpiredConfirmation(d: Device, m: Moment)
    requires d.ui.screen.Confirms()
    ensures Expire(d, m) == Enter(d.(ui := d.ui.(deadline := 0, ctx := BLANK)), SelectingProduct, m)
  {
    var c := d.(ui := d.ui.(deadline := 0));
    assert Expire(d, m) == Dispatch(c, Dwell, m);
    DwellEnds(c, m);
  }

  lemma DwellPlan(ui: Ui, m: Moment)
    requires ui.screen.Confirms()
    ensures Planned(ui, Dwell, m) == Plan(SelectingProduct, BLANK)
  {}

  lemma DwellEnds(c: Device, m: Moment)
    requires c.ui.screen.Confirms()
    ensures Dispatch(c, Dwell, m) == Enter(WithContext(c, BLANK), SelectingProduct, m)
  {
    DwellPlan(c.ui, m);
    Plainly(c, Dwell, m);
  }

  lemma Chosen(d: Device, m: Moment)
    requires d.ui.screen == SelectingUser
    ensures Dispatch(d, ResidentSelected, m)
            == Enter(WithContext(d, d.ui.ctx.(transactionId := m.minted)).(slot := B.Clear(d.slot)), Submitting, m)
  {}

  lemma Archived(d: Device, m: Moment)
    requires d.ui.screen == AppState.ConfirmArchive
    ensures var c := if m.product.Some? then QueueChange(d, m.product.value, Archive, m) else d;
            && Dispatch(d, ArchiveConfirmed, m) == Enter(WithContext(c, BLANK), SelectingProduct, m)
            && Dispatch(d, ArchiveConfirmed, m).queue == c.queue
  {
    var c := if m.product.Some? then QueueChange(d, m.product.value, Archive, m) else d;
    EnterUi(WithContext(c, BLANK), SelectingProduct, m);
  }

  /** An archive is pushed exactly if there is a backend and room; the local list is changed
      in any case. */
  lemma ArchivePushedIff(d: Device, m: Moment)
    requires d.ui.screen == AppState.ConfirmArchive && m.product.Some?
    ensures var q := Dispatch(d, ArchiveConfirmed, m).queue;
            && (q == d.queue + [ChangeEntry(m.product.value, Archive)] <==> d.slot.configured && !Full(d))
            && (q == d.queue <==> !d.slot.configured || Full(d))
  {
    Archived(d, m);
    assert |d.queue + [ChangeEntry(m.product.value, Archive)]| > |d.queue|;
  }

  /** While everything fits, a product archived here is back after a sync exactly if the
      sync lists it; so an archive that was not pushed does not last. */
  lemma SyncTakesBackIff(items: seq<Product>, at: nat, server: seq<Product>)
    requires at < |items| && items[at].active && forall j :: 0 <= j < |items| && j != at ==> items[j] != items[at]
    requires |server| + |ProductCatalog.Survivors(Without(items, at), server)| <= MAX_PRODUCTS
    ensures items[at] in ProductCatalog.Merged(Without(items, at), server) <==> items[at] in server
  {
    ProductCatalog.MergeKeepsLocals(Without(items, at), server, items[at]);
    assert items[at] !in Without(items, at);
  }

  /** The purchase in hand is of the product p at index i, cut to its fields. */
  predicate TakesProduct(ctx: Context, was: Context, i: int, p: Product) {
    && ctx == was.(productIndex := i, productName := ctx.productName, barcode := ctx.barcode,
                   priceRappen := p.priceRappen, freeItem := p.freeItem)
    && ctx.productName <= p.name && |ctx.productName| == (if |p.name| <= 39 then |p.name| else 39)
    && ctx.barcode <= p.barcode && |ctx.barcode| == (if |p.barcode| <= 13 then |p.barcode| else 13)
  }

  datatype Safety = Safety(mounted: bool, dirty: bool, files: Files, startedOn: seq<Files>)

  /** The files hold the queue as it stands. */
  predicate Holds(files: Files, q: seq<Entry>)
    requires |q| <= MAX_QUEUED
  {
    Lookup(files, PATH) == Some(Blob(q))
  }

  /** Every request that was started since, was started with the queue on flash. */
  predicate StartedStored(was: seq<Files>, startedOn: seq<Files>, q: seq<Entry>)
    requires |q| <= MAX_QUEUED
  {
    was <= startedOn && forall i :: |was| <= i < |startedOn| ==> Holds(startedOn[i], q)
  }

  /** Whatever was put into the queue or taken out of it is on flash, and was there
      before any request was started, if the write goes through; a queue left alone
      leaves flash alone and starts nothing. */
  predicate KeptSafe(before: seq<Entry>, was: Safety, q: seq<Entry>, s: Safety, fate: Fate)
    requires |q| <= MAX_QUEUED
  {
    if q == before then s == was
    else
      && s.dirty == !(s.mounted && WriteSucceeds(Blob(q), fate))
      && (!s.dirty ==> Holds(s.files, q) && StartedStored(was.startedOn, s.startedOn, q))
  }

  class Machine {
    var ui: Ui
    const service: B.Service

    ghost predicate Valid()
      reads this, service, service.queue, service.queue.items, service.queue.flash, service.catalog,
            service.catalog.items, service.log
    {
      service.Valid() && service.queue.flash.Valid()
    }

    ghost function Whole(): Device
      requires Valid()
      reads this, service, service.queue, service.queue.items, service.queue.flash, service.catalog,
            service.catalog.items, service.log
    {
      Device(ui, service.slot, service.queue.Contents())
    }

    /** m is what a call finds outside. */
    ghost predicate Around(m: Moment)
      reads this, service, service.catalog
    {
      m.residents == service.residents && m.revision == service.catalog.revision
    }

    /** And m is what an event finds in the lists, at this instant. */
    ghost predicate Seen(m: Moment, i: Instant)
      requires Valid()
      reads this, service, service.queue, service.queue.items, service.queue.flash, service.catalog,
            service.catalog.items, service.log
    {
      var items, at := service.catalog.Contents(), ui.ctx.archiveIndex;
      && Around(m) && m.now == i.now && m.later == i.later && m.len == i.len && m.minted == i.minted
      && m.anyArchived == (ProductCatalog.Count(items, false) > 0)
      && m.product == if 0 <= at < |items| then Some(ChangeOf(items[at], i.changeId)) else None
    }

    /** What flash holds, and what it held whenever a request was started. */
    ghost function Stable(): Safety
      reads service, service.queue, service.queue.flash
    {
      Safety(service.queue.flash.mounted, service.queue.dirty, service.queue.flash.files, service.startedOn)
    }

    twostate predicate Durable(fate: Fate)
      requires old(Valid()) && Valid()
      reads this, service, service.queue, service.queue.items, service.queue.flash, service.catalog,
            service.catalog.items, service.log
    {
      KeptSafe(old(service.queue.Contents()), old(Stable()), service.queue.Contents(), Stable(), fate)
    }

    constructor (service: B.Service)
      requires service.Valid() && service.queue.flash.Valid()
      ensures this.service == service && Valid()
      ensures ui == Ui(Sleeping, BLANK, 0, 0, false, false)
    {
      this.service := service;
      ui := Ui(Sleeping, BLANK, 0, 0, false, false);
    }

    // ---- Choosing -------------------------------------------------------------

    /** A tile of the grid is tapped: the product with that many active ones before it. */
    method SelectProduct(index: nat)
      requires Valid()
      modifies this`ui
      ensures Valid() && ui == old(ui).(ctx := ui.ctx)
      ensures var items := service.catalog.Contents();
              if ProductCatalog.Count(items, true) <= index then ui == old(ui)
              else exists i :: 0 <= i < |items| && items[i].active && ProductCatalog.Count(items[..i], true) == index
                               && TakesProduct(ui.ctx, old(ui.ctx), i, items[i])
    {
      var found := service.catalog.NthMatching(index, true);
      if found.Some? {
        var p := service.catalog.items[found.value];
        ui := ui.(ctx := ui.ctx.(productIndex := found.value, productName := Format.Clip(Format.NAME, p.name),
                                 barcode := Format.Clip(Format.BARCODE, p.barcode), priceRappen := p.priceRappen,
                                 freeItem := p.freeItem));
        assert TakesProduct(ui.ctx, old(ui.ctx), found.value, service.catalog.Contents()[found.value]);
      }
    }

    /** A beer that the catalog does not hold, or not yet. */
    method SetAdHocProduct(name: Text, priceRappen: Int32, freeItem: bool)
      requires Valid()
      modifies this`ui
      ensures Valid() && ui == old(ui).(ctx := ui.ctx)
      ensures TakesProduct(ui.ctx, old(ui.ctx), -1, Product([], name, priceRappen, freeItem, [], true))
    {
      ui := ui.(ctx := ui.ctx.(productIndex := -1, productName := Format.Clip(Format.NAME, name), barcode := [],
                               priceRappen := priceRappen, freeItem := freeItem));
    }

    // ---- Handing over ---------------------------------------------------------

    method StoreNow(fate: Fate)
      requires Valid() && service.queue.dirty
      modifies service.queue`dirty, service.queue.blob,
               service.queue.flash`files, service.queue.flash`history
      ensures Valid() && service.queue.Contents() == old(service.queue.Contents())
      ensures service.queue.dirty == !(service.queue.flash.mounted && WriteSucceeds(Blob(service.queue.Contents()), fate))
      ensures !service.queue.dirty ==> Holds(service.queue.flash.files, service.queue.Contents())
    {
      ghost var files := service.queue.flash.files;
      BlobSize(service.queue.Contents());
      service.queue.Flush(fate);
      WriteOutcome(files, PATH, Blob(service.queue.Contents()), fate);
    }

    /** Push, write to flash, and only then try to send. */
    method Hand(e: Entry, m: Moment, fate: Fate) returns (sent: bool)
      requires Valid() && Format.EntryFits(e) && |service.queue.Contents()| < MAX_QUEUED
      modifies service`slot, service`startedOn, service.queue, service.queue.items, service.queue.blob,
               service.queue.flash`files, service.queue.flash`history
      ensures Valid() && (Whole(), sent) == PushAndSend(old(Whole()), e, m)
      ensures Durable(fate)
      ensures sent <==> service.startedOn != old(service.startedOn)
    {
      var ok := service.queue.Push(e);
      StoreNow(fate);
      sent := service.SendQueuedNow(m.len, m.now);
    }

    method EnqueueThePurchase(m: Moment, fate: Fate) returns (r: Enqueued)
      requires Valid() && Around(m)
      modifies service`slot, service`startedOn, service.queue, service.queue.items, service.queue.blob,
               service.queue.flash`files, service.queue.flash`history
      ensures Valid() && (Whole(), r) == EnqueuePurchase(old(Whole()), m)
      ensures Durable(fate) && (r == Watching <==> service.startedOn != old(service.startedOn))
    {
      if !service.slot.configured {
        return NoBackend;
      }
      var full := service.queue.Full();
      if full {
        return Refused;
      }
      var sent := Hand(PurchaseEntry(ui.ctx, m), m, fate);
      return if sent then Watching else Deferred;
    }

    method EnqueueTheUndo(m: Moment, fate: Fate) returns (r: Enqueued)
      requires Valid() && Around(m)
      modifies service`slot, service`startedOn, service.queue, service.queue.items, service.queue.blob,
               service.queue.flash`files, service.queue.flash`history
      ensures Valid() && (Whole(), r) == EnqueueUndo(old(Whole()), m)
      ensures Durable(fate) && (r == Watching <==> service.startedOn != old(service.startedOn))
    {
      if !service.slot.configured {
        return NoBackend;
      }
      ghost var q := service.queue.Contents();
      var removed := service.queue.RemovePurchase(ui.ctx.transactionId);
      if removed {
        StoreNow(fate);
        RemovedChanges(q, ui.ctx.transactionId);
        return NoBackend;
      }
      NothingRemoved(q, ui.ctx.transactionId);
      r := EnqueueReversal(m, fate);
    }

    /** The purchase has left the queue: its reversal has to follow it. */
    method EnqueueReversal(m: Moment, fate: Fate) returns (r: Enqueued)
      requires Valid() && Around(m) && service.slot.configured
      requires !HoldsPurchase(service.queue.Contents(), ui.ctx.transactionId)
      modifies service`slot, service`startedOn, service.queue, service.queue.items, service.queue.blob,
               service.queue.flash`files, service.queue.flash`history
      ensures Valid() && (Whole(), r) == EnqueueUndo(old(Whole()), m)
      ensures Durable(fate) && (r == Watching <==> service.startedOn != old(service.startedOn))
    {
      var full := service.queue.Full();
      if full {
        return Refused;
      }
      var sent := Hand(VoidEntry(ui.ctx), m, fate);
      return if sent then Watching else Deferred;
    }

    /** queue_product_entry(): a product change is queued if there is a backend and room. */
    method QueueProduct(c: Change, kind: Kind, m: Moment, fate: Fate)
      requires Valid() && Around(m)
      modifies service`slot, service`startedOn, service.queue, service.queue.items, service.queue.blob,
               service.queue.flash`files, service.queue.flash`history
      ensures Valid() && Around(m) && Whole() == QueueChange(old(Whole()), c, kind, m) && Durable(fate)
    {
      var full := service.queue.Full();
      if service.slot.configured && !full {
        var _ := Hand(ChangeEntry(c, kind), m, fate);
      }
    }

    // ---- Screens --------------------------------------------------------------

    method ApplyEnqueued(e: Enqueued)
      modifies this`ui
      ensures ui == Apply(old(ui), e)
    {
      ui := ui.(simulated := e != Watching);
      ui := ui.(ctx := ui.ctx.(deferred := e == Deferred));
      if e == Refused {
        ui := ui.(failNext := true);
      }
      ui := ui.(dwell := if ui.simulated then MOCK_SUBMIT_MS else 0);
    }

    method HandOverPurchase(m: Moment, fate: Fate)
      requires Valid() && Around(m) && ui.screen == Submitting
      modifies this`ui, service`slot, service`startedOn, service.queue, service.queue.items, service.queue.blob,
               service.queue.flash`files, service.queue.flash`history
      ensures Valid() && Around(m) && Whole() == Begun(old(Whole()), m) && Durable(fate)
    {
      var e := EnqueueThePurchase(m, fate);
      ApplyEnqueued(e);
    }

    method HandOverUndo(m: Moment, fate: Fate)
      requires Valid() && Around(m) && ui.screen == Undoing
      modifies this`ui, service`slot, service`startedOn, service.queue, service.queue.items, service.queue.blob,
               service.queue.flash`files, service.queue.flash`history
      ensures Valid() && Around(m) && Whole() == Begun(old(Whole()), m) && Durable(fate)
    {
      var e := EnqueueTheUndo(m, fate);
      ApplyEnqueued(e);
    }

    method HandOver(m: Moment, fate: Fate)
      requires Valid() && Around(m) && ui.screen.Waits()
      modifies this`ui, service`slot, service`startedOn, service.queue, service.queue.items, service.queue.blob,
               service.queue.flash`files, service.queue.flash`history
      ensures Valid() && Around(m) && Whole() == Begun(old(Whole()), m) && Durable(fate)
    {
      if ui.screen == Submitting {
        HandOverPurchase(m, fate);
      } else {
        HandOverUndo(m, fate);
      }
    }

    /** The deadline is set from the span, and the radio sleeps with the screen. */
    method Arm(next: Screen, m: Moment)
      requires Valid() && Around(m)
      modifies this`ui, service`slot
      ensures ui == Armed(old(ui), m.later)
      ensures service.slot == B.SetActive(old(service.slot), next != Sleeping, m.revision, m.len, m.later)
    {
      if ui.dwell > 0 {
        ui := ui.(deadline := Add(m.later, ui.dwell));
      }
      service.Activate(next != Sleeping, m.len, m.later);
    }

    method Begin(m: Moment)
      requires Valid() && Around(m) && !ui.screen.Waits()
      modifies this`ui, service`slot
      ensures Valid() && Around(m) && Whole() == Begun(old(Whole()), m)
    {
      if ui.screen == Success {
        ui := ui.(dwell := if ui.ctx.undone then UNDO_DWELL_MS else SUCCESS_DWELL_MS);
      } else if ui.screen == Summary {
        ui := ui.(dwell := SUMMARY_DWELL_MS);
        var _ := service.AskMySummary(ResidentAt(m, ui.ctx.residentIndex).id, m.len, m.now);
      }
    }

    /** A screen that hands nothing over touches neither the queue nor flash. */
    method Show(next: Screen, m: Moment)
      requires Valid() && Around(m) && !next.Waits()
      modifies this`ui, service`slot
      ensures Valid() && Around(m) && Whole() == Enter(old(Whole()), next, m)
    {
      if next == ui.screen {
        return;
      }
      ui := ui.(screen := next, deadline := 0, dwell := 0);
      Begin(m);
      Arm(next, m);
    }

    /** The two screens that hand something over. */
    method Submit(next: Screen, m: Moment, fate: Fate)
      requires Valid() && Around(m) && next.Waits() && next != ui.screen
      modifies this`ui, service`slot, service`startedOn, service.queue, service.queue.items, service.queue.blob,
               service.queue.flash`files, service.queue.flash`history
      ensures Valid() && Around(m) && Whole() == Enter(old(Whole()), next, m) && Durable(fate)
    {
      ghost var d := Whole();
      ui := ui.(screen := next, deadline := 0, dwell := 0);
      HandOver(m, fate);
      ghost var begun := Whole();
      Arm(next, m);
      assert Whole() == Enter(d, next, m) by {
        Entered(d, next, m, begun);
      }
    }

    method EnterScreen(next: Screen, m: Moment, fate: Fate)
      requires Valid() && Around(m)
      modifies this`ui, service`slot, service`startedOn, service.queue, service.queue.items, service.queue.blob,
               service.queue.flash`files, service.queue.flash`history
      ensures Valid() && Around(m) && Whole() == Enter(old(Whole()), next, m) && Durable(fate)
    {
      if next == ui.screen {
        return;
      }
      if next.Waits() {
        Submit(next, m, fate);
      } else {
        Show(next, m);
      }
    }

    // ---- Events ---------------------------------------------------------------

    /** The transition that an event asks for, and nothing else. */
    method Follow(e: Event, m: Moment, fate: Fate)
      requires Valid() && Around(m) && ui.screen != Sleeping && Prepared(Whole(), e, m) == Whole()
      modifies this`ui, service`slot, service`startedOn, service.queue, service.queue.items, service.queue.blob,
               service.queue.flash`files, service.queue.flash`history
      ensures Valid() && Around(m) && Whole() == Dispatch(old(Whole()), e, m) && Durable(fate)
    {
      Plainly(Whole(), e, m);
      var p := Planned(ui, e, m);
      ui := ui.(ctx := p.ctx);
      EnterScreen(p.next, m, fate);
    }

    /** Straight through the waking screen, which nothing else moves on from. */
    method WakeUp(e: Event, m: Moment)
      requires Valid() && Around(m) && ui.screen == Sleeping
      modifies this`ui, service`slot
      ensures Valid() && Around(m) && Whole() == Dispatch(old(Whole()), e, m)
    {
      Woken(Whole(), e, m);
      if e == Wake {
        Show(Waking, m);
        Show(SelectingProduct, m);
      }
    }

    /** A resident is chosen: the id is minted, and what the backend last reported is gone. */
    method Choose(m: Moment, fate: Fate)
      requires Valid() && Around(m) && ui.screen == SelectingUser
      modifies this`ui, service`slot, service`startedOn, service.queue, service.queue.items, service.queue.blob,
               service.queue.flash`files, service.queue.flash`history
      ensures Valid() && Around(m) && Whole() == Dispatch(old(Whole()), ResidentSelected, m) && Durable(fate)
    {
      Chosen(Whole(), m);
      ui := ui.(ctx := ui.ctx.(transactionId := m.minted));
      service.ClearResult();
      Submit(Submitting, m, fate);
    }

    /** The archive is queued for the server and then applied to the local catalog. */
    method ArchiveProduct(m: Moment, fate: Fate)
      requires Valid() && Around(m)
      modifies service`slot, service`startedOn, service.queue, service.queue.items, service.queue.blob,
               service.queue.flash`files, service.queue.flash`history
      modifies service.catalog`dirty, service.catalog.items
      ensures Valid() && Around(m) && Durable(fate)
      ensures Whole() == if m.product.Some? then QueueChange(old(Whole()), m.product.value, Archive, m) else old(Whole())
      ensures service.catalog.Contents() == Without(old(service.catalog.Contents()), ui.ctx.archiveIndex)
    {
      if m.product.Some? {
        QueueProduct(m.product.value, Archive, m, fate);
      }
      var _ := service.catalog.Archive(ui.ctx.archiveIndex);
    }

    method ConfirmArchive(m: Moment, fate: Fate)
      requires Valid() && Around(m) && ui.screen == AppState.ConfirmArchive
      modifies this`ui, service`slot, service`startedOn, service.queue, service.queue.items, service.queue.blob,
               service.queue.flash`files, service.queue.flash`history
      modifies service.catalog`dirty, service.catalog.items
      ensures Valid() && Around(m) && Whole() == Dispatch(old(Whole()), ArchiveConfirmed, m) && Durable(fate)
      ensures service.catalog.Contents() == Without(old(service.catalog.Contents()), old(ui.ctx.archiveIndex))
    {
      ghost var d := Whole();
      ArchiveProduct(m, fate);
      ui := ui.(ctx := BLANK);
      Show(SelectingProduct, m);
      assert Whole() == Dispatch(d, ArchiveConfirmed, m) by {
        Archived(d, m);
      }
    }

    /** What an event finds in the catalog. */
    method Look(i: Instant) returns (m: Moment)
      requires Valid()
      ensures Seen(m, i)
    {
      var archived := service.catalog.CountMatching(false);
      var at := ui.ctx.archiveIndex;
      var product := if 0 <= at < service.catalog.count then Some(ChangeOf(service.catalog.items[at], i.changeId)) else None;
      return Moment(i.now, i.later, i.len, i.minted, service.residents, service.catalog.revision, archived > 0, product);
    }

    method Handle(e: Event, m: Moment, fate: Fate)
      requires Valid() && Around(m)
      modifies this`ui, service`slot, service`startedOn, service.queue, service.queue.items, service.queue.blob,
               service.queue.flash`files, service.queue.flash`history
      modifies service.catalog`dirty, service.catalog.items
      ensures Valid() && Whole() == Dispatch(old(Whole()), e, m) && Durable(fate)
      ensures service.catalog.Contents() == if old(ui.screen) == AppState.ConfirmArchive && e == ArchiveConfirmed
                                            then Without(old(service.catalog.Contents()), old(ui.ctx.archiveIndex))
                                            else old(service.catalog.Contents())
    {
      if ui.screen == Sleeping {
        WakeUp(e, m);
      } else if ui.screen == SelectingUser && e == ResidentSelected {
        Choose(m, fate);
      } else if ui.screen == AppState.ConfirmArchive && e == ArchiveConfirmed {
        ConfirmArchive(m, fate);
      } else {
        Follow(e, m, fate);
      }
    }

    /** One event, in what it finds. */
    method HandleEvent(e: Event, i: Instant) returns (m: Moment)
      requires Valid()
      modifies this`ui, service`slot, service`startedOn, service.queue, service.queue.items, service.queue.blob,
               service.queue.flash`files, service.queue.flash`history
      modifies service.catalog`dirty, service.catalog.items
      ensures Valid() && Whole() == Dispatch(old(Whole()), e, m) && Durable(i.fate) && old(Seen(m, i))
      ensures service.catalog.Contents() == if old(ui.screen) == AppState.ConfirmArchive && e == ArchiveConfirmed
                                            then Without(old(service.catalog.Contents()), old(ui.ctx.archiveIndex))
                                            else old(service.catalog.Contents())
    {
      m := Look(i);
      Handle(e, m, i.fate);
    }

    // ---- Results and timers ---------------------------------------------------

    /** The events that update() dispatches lead straight to the next screen. */
    method Report(r: B.Result, m: Moment)
      requires Valid() && Around(m) && ui.screen.Waits()
      modifies this`ui, service`slot
      ensures Valid() && Around(m)
      ensures Whole() == Enter(WithContext(old(Whole()), Told(old(ui), r)), if Fine(r) then Success else Error, m)
    {
      ui := ui.(ctx := ui.ctx.(deferred := r == B.Unreachable));
      if Fine(r) && ui.screen == Undoing {
        ui := ui.(ctx := ui.ctx.(undoInFlight := false, undone := true));
      }
      Show(if Fine(r) then Success else Error, m);
    }

    method ResolveResult(m: Moment)
      requires Valid() && Around(m) && ui.screen.Waits()
      modifies this`ui, service`slot
      ensures Valid() && Around(m) && Whole() == Resolve(old(Whole()), m)
    {
      var r := service.slot.result;
      if r == B.Pending {
        return;
      }
      ghost var d := Whole();
      Report(r, m);
      service.ClearResult();
      assert Whole() == Resolve(d, m) by {
        Resolved(d, m);
      }
    }

    method ExpireDeadline(m: Moment)
      requires Valid() && Around(m)
      modifies this`ui, service`slot
      ensures Valid() && Around(m) && Whole() == Expire(old(Whole()), m)
    {
      if ui.screen.Waits() {
        ExpiredWait(Whole(), m);
        var next := if ui.screen == Submitting && ui.failNext then Error else Success;
        ui := Over(ui);
        Show(next, m);
      } else if ui.screen.Confirms() {
        ExpiredConfirmation(Whole(), m);
        ui := ui.(deadline := 0, ctx := BLANK);
        Show(SelectingProduct, m);
      } else {
        ui := ui.(deadline := 0);
      }
    }

    method UpdateScreen(now: Time, m: Moment)
      requires Valid() && Around(m)
      modifies this`ui, service`slot
      ensures Valid() && Around(m) && Whole() == Update(old(Whole()), now, m)
    {
      if !ui.simulated && (ui.screen == Submitting || ui.screen == Undoing) {
        ResolveResult(m);
      } else if ui.deadline != 0 && Due(now, ui.deadline) {
        ExpireDeadline(m);
      }
    }

    method Start(m: Moment)
      requires Valid() && Around(m)
      modifies this`ui, service`slot
      ensures Valid() && Around(m)
      ensures Whole() == Started(old(service.slot), old(service.queue.Contents()), m)
    {
      ui := Ui(Sleeping, BLANK, 0, 0, false, false);
      Show(Waking, m);
      Show(SelectingProduct, m);
    }
  }

  lemma RemovedChanges(q: seq<Entry>, id: Text)
    requires HoldsPurchase(q, id)
    ensures RemoveFirst(q, PurchaseOf(id)) != q
  {
    Shortens(q, id);
  }
}
