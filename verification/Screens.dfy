/** The screens by what leads to them, what they keep in hand, the ways through them, and
    how long they stay. */
module Screens {
  import opened Records
  import opened Clock
  import opened AppState
  import ApiClient
  import AppMachine
  import B = Backend

  // ---- What leads to a screen -------------------------------------------------

  /** From s to v: each screen up to the hand-over is come to exactly like this. */
  predicate BrowsingLaw(s: Screen, e: Event, anyArchived: bool, v: Screen) {
    && (v.Sleeping? && !s.Sleeping? <==> s.SelectingProduct? && e.Sleep?)
    && (v.Admin? && !s.Admin? <==> s.SelectingProduct? && e.AdminRequested?)
    && (v.SelectingArchived? && !s.SelectingArchived? <==> s.SelectingProduct? && e.NotListed? && anyArchived)
    && (v.NewProduct? && !s.NewProduct? <==>
          (s.SelectingProduct? && e.NotListed? && !anyArchived) || (s.SelectingArchived? && e.CreateNewProduct?))
    && (v.SelectingUser? && !s.SelectingUser? <==>
          (s.SelectingProduct? && e.ProductSelected?) || (s.ProductFound? && e.ProductSelected?)
          || (s.NewProduct? && e.NewProductReady?) || (s.ManageProduct? && e.Cancel?))
    && (v.ManageProduct? && !s.ManageProduct? <==>
          (s.SelectingUser? && e.ManageRequested?) || (s.ConfirmArchive? && e.Cancel?))
    && (v.ConfirmArchive? && !s.ConfirmArchive? <==> s.ManageProduct? && e.ArchiveRequested?)
    && (v.ProductFound? && !s.ProductFound? <==> s.LookingUp? && e.ProductSelected?)
    && (v.LookingUp? ==> s.LookingUp?) && (v.Waking? ==> s.Waking?)
  }

  /** And each from then on like this. */
  predicate LaterLaw(s: Screen, e: Event, ctx: Context, v: Screen) {
    && (v.Submitting? && !s.Submitting? <==>
          (s.SelectingUser? && e.ResidentSelected?) || (s.Error? && e.Retry? && !ctx.undoInFlight))
    && (v.Undoing? && !s.Undoing? <==>
          (s.Success? && e.Undo? && !ctx.undone) || (s.Error? && e.Retry? && ctx.undoInFlight))
    && (v.Success? && !s.Success? <==>
          (s.Submitting? && e.SubmitSucceeded?) || (s.Undoing? && e.UndoSucceeded?))
    && (v.Error? && !s.Error? <==>
          (s.Submitting? && e.SubmitFailed?) || (s.Undoing? && e.UndoFailed?) || (s.LookingUp? && e.SubmitFailed?))
    && (v.Summary? && !s.Summary? <==> s.Success? && e.ShowSummary?)
  }

  /** The ways to the grid on which the purchase in hand is given up. */
  predicate GivesUp(s: Screen, e: Event) {
    || ((s.SelectingArchived? || s.NewProduct? || s.SelectingUser? || s.Error?) && e.Cancel?)
    || (s.ManageProduct? && e.PriceChanged?)
    || (s.ConfirmArchive? && e.ArchiveConfirmed?)
    || ((s.Success? || s.Summary?) && (e.Dwell? || e.Cancel?))
  }

  /** And those on which it stays. */
  predicate Returns(s: Screen, e: Event) {
    || (s.Sleeping? && e.Wake?) || s.Waking?
    || (s.SelectingArchived? && e.ProductRestored?)
    || (s.Admin? && (e.AdminDone? || e.Cancel?))
    || ((s.LookingUp? || s.ProductFound?) && e.Cancel?)
  }

  predicate GridLaw(s: Screen, e: Event, v: Screen) {
    v.SelectingProduct? && !s.SelectingProduct? <==> GivesUp(s, e) || Returns(s, e)
  }

  /** Where an event leads from a screen. */
  predicate Goes(ui: Ui, e: Event, m: Moment, v: Screen) {
    v == if ui.screen == Sleeping && e == Wake then SelectingProduct else Planned(ui, e, m).next
  }

  /** An event gives the purchase in hand up, or begins it, or turns to the product, or to
      the undo, or leaves it as it is, but for whether it counts as deferred. */
  predicate HandLaw(s: Screen, e: Event, ctx: Context, minted: Id, v: Context) {
    v == if GivesUp(s, e) then BLANK
         else if s.SelectingUser? && e.ResidentSelected? then ctx.(transactionId := minted, deferred := v.deferred)
         else if s.SelectingUser? && e.ManageRequested? then ctx.(archiveIndex := ctx.productIndex)
         else if s.Success? && e.Undo? && !ctx.undone then ctx.(undoInFlight := true, deferred := v.deferred)
         else if s.Error? && e.Retry? then ctx.(deferred := v.deferred)
         else ctx
  }

  /** Everything about where an event leads, and with what in hand. */
  predicate Laws(ui: Ui, e: Event, m: Moment, v: Screen, ctx: Context) {
    && BrowsingLaw(ui.screen, e, m.anyArchived, v) && LaterLaw(ui.screen, e, ui.ctx, v)
    && GridLaw(ui.screen, e, v)
    && HandLaw(ui.screen, e, ui.ctx, m.minted, ctx)
  }

  /** And the purchase in hand with it. */
  predicate Brings(ui: Ui, e: Event, m: Moment, ctx: Context) {
    var p := Planned(ui, e, m);
    ctx == if p.next.Waits() && p.next != ui.screen then p.ctx.(deferred := ctx.deferred) else p.ctx
  }

  lemma GridLaws(ui: Ui, e: Event, m: Moment, v: Screen, ctx: Context)
    requires ui.screen.SelectingProduct? && Goes(ui, e, m, v) && Brings(ui, e, m, ctx)
    ensures Laws(ui, e, m, v, ctx)
  {}

  lemma ListLaws(ui: Ui, e: Event, m: Moment, v: Screen, ctx: Context)
    requires (ui.screen.SelectingArchived? || ui.screen.NewProduct?) && Goes(ui, e, m, v) && Brings(ui, e, m, ctx)
    ensures Laws(ui, e, m, v, ctx)
  {}

  lemma ManageLaws(ui: Ui, e: Event, m: Moment, v: Screen, ctx: Context)
    requires ui.screen.ManageProduct? && Goes(ui, e, m, v) && Brings(ui, e, m, ctx)
    ensures Laws(ui, e, m, v, ctx)
  {}

  lemma ConfirmLaws(ui: Ui, e: Event, m: Moment, v: Screen, ctx: Context)
    requires ui.screen.ConfirmArchive? && Goes(ui, e, m, v) && Brings(ui, e, m, ctx)
    ensures Laws(ui, e, m, v, ctx)
  {}

  lemma SleepLaws(ui: Ui, e: Event, m: Moment, v: Screen, ctx: Context)
    requires (ui.screen.Sleeping? || ui.screen.Waking? || ui.screen.Admin?) && Goes(ui, e, m, v) && Brings(ui, e, m, ctx)
    ensures Laws(ui, e, m, v, ctx)
  {}

  lemma LookupLaws(ui: Ui, e: Event, m: Moment, v: Screen, ctx: Context)
    requires (ui.screen.LookingUp? || ui.screen.ProductFound?) && Goes(ui, e, m, v) && Brings(ui, e, m, ctx)
    ensures Laws(ui, e, m, v, ctx)
  {}

  lemma ChoiceLaws(ui: Ui, e: Event, m: Moment, v: Screen, ctx: Context)
    requires ui.screen.SelectingUser? && Goes(ui, e, m, v) && Brings(ui, e, m, ctx)
    ensures Laws(ui, e, m, v, ctx)
  {}

  lemma SubmitLaws(ui: Ui, e: Event, m: Moment, v: Screen, ctx: Context)
    requires ui.screen.Submitting? && Goes(ui, e, m, v) && Brings(ui, e, m, ctx)
    ensures Laws(ui, e, m, v, ctx)
  {}

  lemma UndoLaws(ui: Ui, e: Event, m: Moment, v: Screen, ctx: Context)
    requires ui.screen.Undoing? && Goes(ui, e, m, v) && Brings(ui, e, m, ctx)
    ensures Laws(ui, e, m, v, ctx)
  {}

  lemma SuccessLaws(ui: Ui, e: Event, m: Moment, v: Screen, ctx: Context)
    requires ui.screen.Success? && Goes(ui, e, m, v) && Brings(ui, e, m, ctx)
    ensures Laws(ui, e, m, v, ctx)
  {}

  lemma AfterLaws(ui: Ui, e: Event, m: Moment, v: Screen, ctx: Context)
    requires (ui.screen.Summary? || ui.screen.Error?) && Goes(ui, e, m, v) && Brings(ui, e, m, ctx)
    ensures Laws(ui, e, m, v, ctx)
  {}

  lemma AllLaws(ui: Ui, e: Event, m: Moment, v: Screen, ctx: Context)
    requires Goes(ui, e, m, v) && Brings(ui, e, m, ctx)
    ensures Laws(ui, e, m, v, ctx)
  {
    match ui.screen
    case SelectingProduct => GridLaws(ui, e, m, v, ctx);
    case SelectingArchived => ListLaws(ui, e, m, v, ctx);
    case NewProduct => ListLaws(ui, e, m, v, ctx);
    case ManageProduct => ManageLaws(ui, e, m, v, ctx);
    case ConfirmArchive => ConfirmLaws(ui, e, m, v, ctx);
    case Admin => SleepLaws(ui, e, m, v, ctx);
    case Sleeping => SleepLaws(ui, e, m, v, ctx);
    case Waking => SleepLaws(ui, e, m, v, ctx);
    case LookingUp => LookupLaws(ui, e, m, v, ctx);
    case ProductFound => LookupLaws(ui, e, m, v, ctx);
    case SelectingUser => ChoiceLaws(ui, e, m, v, ctx);
    case Submitting => SubmitLaws(ui, e, m, v, ctx);
    case Undoing => UndoLaws(ui, e, m, v, ctx);
    case Success => SuccessLaws(ui, e, m, v, ctx);
    case _ => AfterLaws(ui, e, m, v, ctx);
  }

  lemma DispatchGoes(d: Device, e: Event, m: Moment)
    ensures Goes(d.ui, e, m, Dispatch(d, e, m).ui.screen)
  {
    var p := Planned(d.ui, e, m);
    var b := WithContext(Prepared(d, e, m), p.ctx);
    EntersScreen(b, p.next, m);
    EntersScreen(Enter(b, p.next, m), SelectingProduct, m);
  }

  lemma EntersScreen(d: Device, next: Screen, m: Moment)
    ensures Enter(d, next, m).ui.screen == next
  {
    if next != d.ui.screen {
      EnterUi(d, next, m);
    }
  }

  lemma DispatchBrings(d: Device, e: Event, m: Moment)
    ensures Brings(d.ui, e, m, Dispatch(d, e, m).ui.ctx)
  {
    var p := Planned(d.ui, e, m);
    var b := WithContext(Prepared(d, e, m), p.ctx);
    PreparedUi(d, e, m);
    ContextAfter(b, p.next, m);
    ContextAfter(Enter(b, p.next, m), SelectingProduct, m);
  }

  lemma ContextAfter(d: Device, next: Screen, m: Moment)
    ensures var v := Enter(d, next, m).ui.ctx;
            v == if next.Waits() && next != d.ui.screen then d.ui.ctx.(deferred := v.deferred) else d.ui.ctx
  {
    if next != d.ui.screen {
      EnterUi(d, next, m);
    }
  }

  /** Every screen is come to by exactly these events from exactly these screens, and with
      exactly this in hand. */
  lemma ScreenLaws(d: Device, e: Event, m: Moment)
    ensures var v := Dispatch(d, e, m).ui; Laws(d.ui, e, m, v.screen, v.ctx)
  {
    var v := Dispatch(d, e, m).ui;
    DispatchGoes(d, e, m);
    DispatchBrings(d, e, m);
    AllLaws(d.ui, e, m, v.screen, v.ctx);
  }

  lemma PlanStays(ui: Ui, e: Event, m: Moment)
    requires Planned(ui, e, m).next == ui.screen
    ensures Planned(ui, e, m).ctx == ui.ctx
    ensures !(ui.screen.SelectingUser? && e.ResidentSelected?) && !(ui.screen.ConfirmArchive? && e.ArchiveConfirmed?)
  {}

  /** An event that leads nowhere changes nothing. */
  lemma StaysPut(d: Device, e: Event, m: Moment)
    requires Dispatch(d, e, m).ui.screen == d.ui.screen
    ensures Dispatch(d, e, m) == d
  {
    DispatchGoes(d, e, m);
    if !(d.ui.screen.Sleeping? && e.Wake?) {
      PlanStays(d.ui, e, m);
      assert WithContext(d, d.ui.ctx) == d;
    }
  }

  // ---- Ways through the screens -----------------------------------------------

  /** The same product, at the same price. */
  predicate SameProduct(a: Context, b: Context) {
    && a.productIndex == b.productIndex && a.productName == b.productName && a.barcode == b.barcode
    && a.priceRappen == b.priceRappen && a.freeItem == b.freeItem
  }

  function Events(d: Device, es: seq<Event>, ms: seq<Moment>): Device
    requires |ms| == |es|
    decreases |es|
  {
    if |es| == 0 then d else Events(Dispatch(d, es[0], ms[0]), es[1..], ms[1..])
  }

  lemma OneEvent(d: Device, e: Event, es: seq<Event>, ms: seq<Moment>)
    requires |ms| == |es| + 1
    ensures Events(d, [e] + es, ms) == Events(Dispatch(d, e, ms[0]), es, ms[1..])
  {
    assert ([e] + es)[1..] == es;
  }

  lemma NoEvents(d: Device)
    ensures Events(d, [], []) == d
  {}

  /** From the residents on. */
  lemma Chooses(d: Device, ms: seq<Moment>)
    requires d.ui.screen == SelectingUser && |ms| == 1
    ensures var v := Events(d, [ResidentSelected] + [], ms);
            v.ui.screen == Submitting && SameProduct(v.ui.ctx, d.ui.ctx) && v.ui.ctx.transactionId == ms[0].minted
  {
    OneEvent(d, ResidentSelected, [], ms);
    NoEvents(Dispatch(d, ResidentSelected, ms[0]));
    ScreenLaws(d, ResidentSelected, ms[0]);
  }

  /** A tile and a resident. */
  lemma BuysFromGrid(d: Device, ms: seq<Moment>)
    requires d.ui.screen == SelectingProduct && |ms| == 2
    ensures var v := Events(d, [ProductSelected] + ([ResidentSelected] + []), ms);
            v.ui.screen == Submitting && SameProduct(v.ui.ctx, d.ui.ctx) && v.ui.ctx.transactionId == ms[1].minted
  {
    OneEvent(d, ProductSelected, [ResidentSelected] + [], ms);
    ScreenLaws(d, ProductSelected, ms[0]);
    Chooses(Dispatch(d, ProductSelected, ms[0]), ms[1..]);
  }

  /** A beer that is not listed, where none is archived. */
  lemma BuysUnlisted(d: Device, ms: seq<Moment>)
    requires d.ui.screen == SelectingProduct && |ms| == 3 && !ms[0].anyArchived
    ensures var v := Events(d, [NotListed] + ([NewProductReady] + ([ResidentSelected] + [])), ms);
            v.ui.screen == Submitting && SameProduct(v.ui.ctx, d.ui.ctx) && v.ui.ctx.transactionId == ms[2].minted
  {
    OneEvent(d, NotListed, [NewProductReady] + ([ResidentSelected] + []), ms);
    ScreenLaws(d, NotListed, ms[0]);
    BuysNew(Dispatch(d, NotListed, ms[0]), ms[1..]);
  }

  lemma BuysNew(d: Device, ms: seq<Moment>)
    requires d.ui.screen == NewProduct && |ms| == 2
    ensures var v := Events(d, [NewProductReady] + ([ResidentSelected] + []), ms);
            v.ui.screen == Submitting && SameProduct(v.ui.ctx, d.ui.ctx) && v.ui.ctx.transactionId == ms[1].minted
  {
    OneEvent(d, NewProductReady, [ResidentSelected] + [], ms);
    ScreenLaws(d, NewProductReady, ms[0]);
    Chooses(Dispatch(d, NewProductReady, ms[0]), ms[1..]);
  }

  /** And where some are, by way of their list. */
  lemma BuysPastArchive(d: Device, ms: seq<Moment>)
    requires d.ui.screen == SelectingProduct && |ms| == 4 && ms[0].anyArchived
    ensures var v := Events(d, [NotListed] + ([CreateNewProduct] + ([NewProductReady] + ([ResidentSelected] + []))), ms);
            v.ui.screen == Submitting && SameProduct(v.ui.ctx, d.ui.ctx) && v.ui.ctx.transactionId == ms[3].minted
  {
    var x := Dispatch(d, NotListed, ms[0]);
    OneEvent(d, NotListed, [CreateNewProduct] + ([NewProductReady] + ([ResidentSelected] + [])), ms);
    ScreenLaws(d, NotListed, ms[0]);
    OneEvent(x, CreateNewProduct, [NewProductReady] + ([ResidentSelected] + []), ms[1..]);
    ScreenLaws(x, CreateNewProduct, ms[1]);
    BuysNew(Dispatch(x, CreateNewProduct, ms[1]), ms[2..]);
  }

  /** The product on the grid is the one that the archive is confirmed for. */
  lemma ArchivesFromGrid(d: Device, ms: seq<Moment>)
    requires d.ui.screen == SelectingProduct && |ms| == 3
    ensures var v := Events(d, [ProductSelected] + ([ManageRequested] + ([ArchiveRequested] + [])), ms);
            v.ui.screen == ConfirmArchive && v.ui.ctx == d.ui.ctx.(archiveIndex := d.ui.ctx.productIndex) && v.queue == d.queue
  {
    var x := Dispatch(d, ProductSelected, ms[0]);
    var y := Dispatch(x, ManageRequested, ms[1]);
    var z := Dispatch(y, ArchiveRequested, ms[2]);
    OneEvent(d, ProductSelected, [ManageRequested] + ([ArchiveRequested] + []), ms);
    OneEvent(x, ManageRequested, [ArchiveRequested] + [], ms[1..]);
    OneEvent(y, ArchiveRequested, [], ms[2..]);
    NoEvents(z);
    Browses(d, ProductSelected, ms[0]);
    Browses(x, ManageRequested, ms[1]);
    Browses(y, ArchiveRequested, ms[2]);
  }

  lemma Browses(d: Device, e: Event, m: Moment)
    requires e == ProductSelected || e == ManageRequested || e == ArchiveRequested
    ensures Dispatch(d, e, m).queue == d.queue
    ensures d.ui.screen == SelectingProduct && e == ProductSelected ==> Dispatch(d, e, m).ui.screen == SelectingUser
    ensures d.ui.screen == SelectingUser && e == ManageRequested ==> Dispatch(d, e, m).ui.screen == ManageProduct
    ensures d.ui.screen == ManageProduct && e == ArchiveRequested ==> Dispatch(d, e, m).ui.screen == ConfirmArchive
    ensures var v := Dispatch(d, e, m).ui.ctx;
            v == if d.ui.screen == SelectingUser && e == ManageRequested then d.ui.ctx.(archiveIndex := d.ui.ctx.productIndex)
                 else d.ui.ctx
  {
    ScreenLaws(d, e, m);
    var p := Planned(d.ui, e, m);
    if p.next != d.ui.screen {
      EnterUi(WithContext(d, p.ctx), p.next, m);
    }
  }

  // ---- Backing out ------------------------------------------------------------

  /** How many times Cancel has to be pressed until the grid is there. */
  function CancelsFrom(s: Screen): nat
    requires !s.Waits() && s != Sleeping
  {
    if s == SelectingProduct then 0 else if s == ManageProduct then 2 else if s == ConfirmArchive then 3 else 1
  }

  function Cancelled(d: Device, ms: seq<Moment>): Device
    decreases |ms|
  {
    if |ms| == 0 then d else Cancelled(Dispatch(d, Cancel, ms[0]), ms[1..])
  }

  /** Each press is one nearer to the grid, and changes nothing queued. */
  lemma CancelNears(d: Device, m: Moment)
    requires !d.ui.screen.Waits() && d.ui.screen != Sleeping && d.ui.screen != SelectingProduct
    ensures var v := Dispatch(d, Cancel, m);
            && !v.ui.screen.Waits() && v.ui.screen != Sleeping && v.queue == d.queue
            && CancelsFrom(v.ui.screen) == CancelsFrom(d.ui.screen) - 1
  {
    var p := Planned(d.ui, Cancel, m);
    PlanNears(d.ui, m);
    assert Dispatch(d, Cancel, m) == Enter(WithContext(d, p.ctx), p.next, m) by {
      Plainly(d, Cancel, m);
    }
    EnterUi(WithContext(d, p.ctx), p.next, m);
  }

  lemma PlanNears(ui: Ui, m: Moment)
    requires !ui.screen.Waits() && ui.screen != Sleeping && ui.screen != SelectingProduct
    ensures var next := Planned(ui, Cancel, m).next;
            && next != ui.screen && !next.Waits() && next != Sleeping && CancelsFrom(next) == CancelsFrom(ui.screen) - 1
  {}

  /** From every screen that neither waits nor sleeps that many presses lead to the grid,
      and fewer do not; the purchase in hand is given up, except on the way from the admin
      page, the waking screen and the lookup. */
  lemma {:induction false} CancelsHome(d: Device, ms: seq<Moment>)
    requires !d.ui.screen.Waits() && d.ui.screen != Sleeping && |ms| <= CancelsFrom(d.ui.screen)
    ensures var v := Cancelled(d, ms);
            && v.queue == d.queue && (v.ui.screen == SelectingProduct <==> |ms| == CancelsFrom(d.ui.screen))
            && (v.ui.screen == SelectingProduct ==>
                  v.ui.ctx == match d.ui.screen
                              case SelectingProduct => d.ui.ctx
                              case Admin => d.ui.ctx
                              case Waking => d.ui.ctx
                              case LookingUp => d.ui.ctx
                              case ProductFound => d.ui.ctx
                              case _ => BLANK)
    decreases |ms|
  {
    if |ms| > 0 {
      CancelNears(d, ms[0]);
        ScreenLaws(d, Cancel, ms[0]);
      ScreenLaws(d, Cancel, ms[0]);
      CancelsHome(Dispatch(d, Cancel, ms[0]), ms[1..]);
    }
  }

  // ---- Sleep ------------------------------------------------------------------

  /** Asleep and awake again, the grid is as it was, with the same in hand and the same
      queue; only a sync may have been started. */
  lemma SleepsAndWakes(d: Device, m: Moment, n: Moment)
    requires d.ui.screen == SelectingProduct && d.ui.deadline == 0 && d.ui.dwell == 0 && d.slot.active
    ensures var asleep := Dispatch(d, Sleep, m);
            var v := Dispatch(asleep, Wake, n);
            && asleep.ui == d.ui.(screen := Sleeping) && asleep.queue == d.queue && asleep.slot == d.slot.(active := false)
            && v.ui == d.ui && v.queue == d.queue
            && (v.slot == d.slot || v.slot == B.RequestSync(d.slot, n.revision, n.len, n.later).0)
            && (d.slot.op != B.NoOp ==> v.slot == d.slot)
  {
    var asleep := Dispatch(d, Sleep, m);
    assert asleep == d.(ui := d.ui.(screen := Sleeping), slot := d.slot.(active := false));
    AppMachine.Woken(asleep, Wake, n);
    WakesUp(asleep, n);
  }

  lemma WakesUp(d: Device, n: Moment)
    requires d.ui.screen == Sleeping && d.ui.deadline == 0 && d.ui.dwell == 0 && !d.slot.active
    ensures var v := Enter(Enter(d, Waking, n), SelectingProduct, n);
            && v.ui == d.ui.(screen := SelectingProduct) && v.queue == d.queue
            && v.slot == B.SetActive(d.slot, true, n.revision, n.len, n.later)
  {
    var up := Enter(d, Waking, n);
    assert up == d.(ui := d.ui.(screen := Waking), slot := B.SetActive(d.slot, true, n.revision, n.len, n.later));
    assert up.slot.active;
  }

  // ---- How long they stay -----------------------------------------------------

  /** The confirmation stays for six seconds, that of an undo for two, the overview for
      fifteen; then the terminal is back on the grid with nothing in hand. A wait without
      a request ends after 800 ms. */
  lemma DeadlineSet(d: Device, next: Screen, m: Moment)
    requires next != d.ui.screen
    ensures var v := Enter(d, next, m).ui;
            v.deadline == match next
                          case Success => Add(m.later, if d.ui.ctx.undone then 2000 else 6000)
                          case Summary => Add(m.later, 15000)
                          case Submitting => if v.simulated then Add(m.later, 800) else 0
                          case Undoing => if v.simulated then Add(m.later, 800) else 0
                          case _ => 0
  {}

  lemma ConfirmationEnds(d: Device, next: Screen, m: Moment, later: int, now: int, n: Moment)
    requires next.Confirms() && next != d.ui.screen && m.later == Shown(later) && Enter(d, next, m).ui.deadline != 0
    ensures var v := Enter(d, next, m);
            var wait := if next.Summary? then 15000 else if d.ui.ctx.undone then 2000 else 6000;
            Ends(v, Update(v, Shown(now), n), (now - later - wait) / 0x8000_0000 % 2 == 0)
  {
    var v := Enter(d, next, m);
    assert v.ui.screen == next && v.ui.deadline == Add(m.later, if next.Summary? then 15000 else if d.ui.ctx.undone then 2000 else 6000) by {
      DeadlineSet(d, next, m);
      EnterUi(d, next, m);
    }
    var wait := if next.Summary? then 15000 else if d.ui.ctx.undone then 2000 else 6000;
    assert Ends(v, Update(v, Shown(now), n), Due(Shown(now), v.ui.deadline)) by {
      TimedEnds(v, Shown(now), n);
    }
    DueAfter(later, wait, now);
    EndsAs(v, Update(v, Shown(now), n), Due(Shown(now), v.ui.deadline), (now - later - wait) / 0x8000_0000 % 2 == 0);
  }

  lemma DueAfter(later: int, wait: nat, now: int)
    ensures Due(Shown(now), Add(Shown(later), wait)) <==> (now - later - wait) / 0x8000_0000 % 2 == 0
  {
    AddShown(later, wait);
    DueIff(now, later + wait);
  }

  lemma EndsAs(v: Device, u: Device, due: bool, over: bool)
    requires Ends(v, u, due) && (due <==> over)
    ensures Ends(v, u, over)
  {}

  /** Back on the grid with nothing in hand, or as it was. */
  predicate Ends(v: Device, u: Device, over: bool) {
    if over then u.ui.screen == SelectingProduct && u.ui.ctx == BLANK && u.queue == v.queue else u == v
  }

  lemma TimedEnds(v: Device, now: Time, n: Moment)
    requires v.ui.screen.Confirms() && v.ui.deadline != 0
    ensures Ends(v, Update(v, now, n), Due(now, v.ui.deadline))
  {
    AppMachine.ExpiredConfirmation(v, n);
    EnterUi(v.(ui := v.ui.(deadline := 0, ctx := BLANK)), SelectingProduct, n);
  }

  // ---- What they tell ---------------------------------------------------------

  /** A purchase handed over is watched if its request was started, deferred if it was
      stored and not started, and neither if it was not stored. */
  lemma HandOverShown(d: Device, m: Moment)
    requires d.ui.screen != Submitting
    ensures var v := Enter(d, Submitting, m);
            var stored := d.slot.configured && |d.queue| < 64;
            var started := stored && d.slot.op == B.NoOp && m.len > 0;
            && (v.ui.simulated <==> !started) && (v.ui.ctx.deferred <==> stored && !started)
            && (v.ui.failNext <==> d.ui.failNext || (d.slot.configured && !stored))
  {}

  /** With a choice of resident, what was last reported is forgotten. */
  lemma ChoiceForgets(d: Device, m: Moment)
    requires d.ui.screen == SelectingUser
    ensures var v := Dispatch(d, ResidentSelected, m);
            v.slot.result == if v.ui.simulated then B.NoResult else B.Pending
  {
    AppMachine.Chosen(d, m);
  }

  /** A result that is in is shown: confirmed if the server took it or could not be reached,
      in which case it counts as deferred; an undo that is confirmed is over; and the result
      is not shown twice. */
  lemma ResultShown(d: Device, m: Moment)
    requires d.ui.screen.Waits() && d.slot.result != B.Pending
    ensures var v, ok := Resolve(d, m), d.slot.result == B.Success || d.slot.result == B.Unreachable;
            var ctx := d.ui.ctx.(deferred := d.slot.result == B.Unreachable);
            && v.ui.screen == (if ok then Success else Error) && v.slot.result == B.NoResult && v.queue == d.queue
            && v.ui.ctx == if ok && d.ui.screen == Undoing then ctx.(undoInFlight := false, undone := true) else ctx
  {
    AppMachine.Resolved(d, m);
    EnterUi(WithContext(d, AppMachine.Told(d.ui, d.slot.result)),
            if d.slot.result == B.Success || d.slot.result == B.Unreachable then Success else Error, m);
  }

  /** The overview is asked for the resident of the purchase. */
  lemma OverviewFor(d: Device, m: Moment)
    requires d.ui.screen == Success && d.slot.configured && d.slot.op == B.NoOp && m.len > 0 && d.slot.active
    ensures var v, i := Dispatch(d, ShowSummary, m), d.ui.ctx.residentIndex;
            && v.ui.screen == Summary
            && if 0 <= i < |m.residents| && m.residents[i].id != []
               then v.slot.op == B.MySummaryOp && v.slot.request == ApiClient.MySummaryRequest(m.residents[i].id)
               else v.slot.op == B.NoOp && v.slot.myState == B.Unavailable
  {
    Plainly(d, ShowSummary, m);
  }
}
