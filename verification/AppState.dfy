/** The screen state machine: what every event, every timer and every result of the
    backend makes of the purchase in hand. */
module AppState {
  import opened Bits
  import opened Records
  import opened Wrappers
  import opened Settings
  import opened Clock
  import opened TransactionQueue
  import B = Backend
  import Format

  datatype Screen =
    | Sleeping | Waking | SelectingProduct | LookingUp | ProductFound | NewProduct | SelectingUser
    | SelectingArchived | ManageProduct | ConfirmArchive | Submitting | Undoing | Success | Summary
    | Error | Admin
  {
    /** The confirmation and the overview reached from it. */
    predicate Confirms() {
      Success? || Summary?
    }

    /** A result is being waited for. */
    predicate Waits() {
      Submitting? || Undoing?
    }
  }

  datatype Event =
    | Wake | ProductSelected | NotListed | CreateNewProduct | ProductRestored | NewProductReady
    | ResidentSelected | ManageRequested | ArchiveRequested | PriceChanged | ArchiveConfirmed
    | ShowSummary | SubmitSucceeded | SubmitFailed | Undo | UndoSucceeded | UndoFailed | Retry
    | Cancel | Dwell | AdminRequested | AdminDone | Sleep
  {
    /** Only update() dispatches these; no button does. */
    predicate Internal() {
      SubmitSucceeded? || SubmitFailed? || UndoSucceeded? || UndoFailed? || Dwell?
    }
  }

  type Id = t: Text | |t| < Format.TXN_ID witness []
  type Barcode = t: Text | |t| < Format.BARCODE witness []
  type Name = t: Text | |t| < Format.NAME witness []

  /** The purchase in hand. */
  datatype Context = Context(
    productIndex: int,
    productName: Name,
    barcode: Barcode,
    priceRappen: Int32,
    freeItem: bool,
    residentIndex: int,
    archiveIndex: int,
    transactionId: Id,
    undone: bool,
    deferred: bool,
    undoInFlight: bool)

  const BLANK: Context := Context(-1, [], [], 0, false, -1, -1, [], false, false, false)

  /** The file-scope variables of the state machine. */
  datatype Ui = Ui(
    screen: Screen,
    ctx: Context,
    deadline: Time,
    dwell: nat,
    failNext: bool,
    simulated: bool)

  /** The state machine and what it shares with the backend. */
  datatype Device = Device(ui: Ui, slot: B.Slot, queue: seq<Entry>)

  datatype Enqueued = Watching | Deferred | Refused | NoBackend

  /** What a call finds outside: the clock when a request is started and again when the
      deadline is set, the length of the request it builds, the id it would mint, the
      lists, and the product awaiting archive confirmation. */
  datatype Moment = Moment(
    now: Time,
    later: Time,
    len: nat,
    minted: Id,
    residents: seq<Resident>,
    revision: Uint32,
    anyArchived: bool,
    product: Option<Change>)

  /** A catalog entry on its way into the queue. */
  datatype Change = Change(id: Id, barcode: Barcode, name: Name, priceRappen: Int32, freeItem: bool)

  // ---- What goes into the queue -----------------------------------------------

  function ResidentAt(m: Moment, index: int): Resident {
    if 0 <= index < |m.residents| then m.residents[index] else Resident([], [])
  }

  function PurchaseEntry(ctx: Context, m: Moment): Entry {
    var r := ResidentAt(m, ctx.residentIndex);
    Entry(ctx.transactionId, ctx.barcode, ctx.productName, Format.Clip(Format.RESIDENT_ID, r.id),
          Format.Clip(Format.RESIDENT_NAME, r.name), ctx.priceRappen, ctx.freeItem, Purchase)
  }

  function VoidEntry(ctx: Context): Entry {
    Entry(ctx.transactionId, [], ctx.productName, [], [], 0, false, Void)
  }

  function ChangeEntry(c: Change, kind: Kind): Entry {
    Entry(c.id, c.barcode, c.name, [], [], c.priceRappen, c.freeItem, kind)
  }

  /** Push, then try to send the head. */
  function PushAndSend(d: Device, e: Entry, m: Moment): (Device, bool) {
    var q := d.queue + [e];
    var (slot, sent) := B.SendQueued(d.slot, B.HeadOf(q), m.len, m.now);
    (d.(queue := q, slot := slot), sent)
  }

  function Full(d: Device): bool {
    |d.queue| >= MAX_QUEUED
  }

  function EnqueuePurchase(d: Device, m: Moment): (Device, Enqueued) {
    if !d.slot.configured then (d, NoBackend)
    else if Full(d) then (d, Refused)
    else
      var (after, sent) := PushAndSend(d, PurchaseEntry(d.ui.ctx, m), m);
      (after, if sent then Watching else Deferred)
  }

  function EnqueueUndo(d: Device, m: Moment): (Device, Enqueued) {
    var id := d.ui.ctx.transactionId;
    if !d.slot.configured then (d, NoBackend)
    else if HoldsPurchase(d.queue, id) then (d.(queue := RemoveFirst(d.queue, PurchaseOf(id))), NoBackend)
    else if Full(d) then (d, Refused)
    else
      var (after, sent) := PushAndSend(d, VoidEntry(d.ui.ctx), m);
      (after, if sent then Watching else Deferred)
  }

  function QueueChange(d: Device, c: Change, kind: Kind, m: Moment): Device {
    if !d.slot.configured || Full(d) then d else PushAndSend(d, ChangeEntry(c, kind), m).0
  }

  // ---- Entering a screen ------------------------------------------------------

  function Apply(ui: Ui, e: Enqueued): Ui {
    ui.(simulated := e != Watching,
        ctx := ui.ctx.(deferred := e == Deferred),
        failNext := ui.failNext || e == Refused,
        dwell := if e != Watching then MOCK_SUBMIT_MS else 0)
  }

  function Begun(d: Device, m: Moment): Device {
    match d.ui.screen
    case Submitting =>
      var (after, e) := EnqueuePurchase(d, m);
      after.(ui := Apply(after.ui, e))
    case Undoing =>
      var (after, e) := EnqueueUndo(d, m);
      after.(ui := Apply(after.ui, e))
    case Success => d.(ui := d.ui.(dwell := if d.ui.ctx.undone then UNDO_DWELL_MS else SUCCESS_DWELL_MS))
    case Summary =>
      d.(ui := d.ui.(dwell := SUMMARY_DWELL_MS),
         slot := B.RequestMySummary(d.slot, ResidentAt(m, d.ui.ctx.residentIndex).id, m.len, m.now).0)
    case _ => d
  }

  function Armed(ui: Ui, now: Time): Ui {
    if ui.dwell > 0 then ui.(deadline := Add(now, ui.dwell)) else ui
  }

  /** The handler that follows every transition lets the radio sleep with the screen. */
  function Enter(d: Device, next: Screen, m: Moment): Device {
    if next == d.ui.screen then d
    else
      var b := Begun(d.(ui := d.ui.(screen := next, deadline := 0, dwell := 0)), m);
      b.(ui := Armed(b.ui, m.later), slot := B.SetActive(b.slot, next != Sleeping, m.revision, m.len, m.later))
  }

  function WithContext(d: Device, ctx: Context): Device {
    d.(ui := d.ui.(ctx := ctx))
  }

  // ---- Events -----------------------------------------------------------------

  /** Where an event leads, and with which purchase in hand; staying put changes
      nothing. */
  datatype Plan = Plan(next: Screen, ctx: Context)

  function Planned(ui: Ui, e: Event, m: Moment): Plan {
    match ui.screen
    case Submitting => PlannedWaiting(ui, e)
    case Undoing => PlannedWaiting(ui, e)
    case Success => PlannedAfter(ui, e)
    case Summary => PlannedAfter(ui, e)
    case Error => PlannedAfter(ui, e)
    case SelectingUser => PlannedChoice(ui, e, m)
    case _ => PlannedBrowsing(ui, e, m)
  }

  /** Before a purchase is made. */
  function PlannedBrowsing(ui: Ui, e: Event, m: Moment): Plan {
    var ctx := ui.ctx;
    var stay, home := Plan(ui.screen, ctx), Plan(SelectingProduct, BLANK);
    match ui.screen
    case Sleeping => if e == Wake then Plan(Waking, ctx) else stay
    case Waking => Plan(SelectingProduct, ctx)
    case SelectingProduct =>
      if e == ProductSelected then Plan(SelectingUser, ctx)
      else if e == NotListed then Plan(if m.anyArchived then SelectingArchived else NewProduct, ctx)
      else if e == AdminRequested then Plan(Admin, ctx)
      else if e == Sleep then Plan(Sleeping, ctx)
      else stay
    case LookingUp =>
      if e == ProductSelected then Plan(ProductFound, ctx)
      else if e == SubmitFailed then Plan(Error, ctx)
      else if e == Cancel then Plan(SelectingProduct, ctx)
      else stay
    case ProductFound =>
      if e == ProductSelected then Plan(SelectingUser, ctx)
      else if e == Cancel then Plan(SelectingProduct, ctx)
      else stay
    case SelectingArchived =>
      if e == ProductRestored then Plan(SelectingProduct, ctx)
      else if e == CreateNewProduct then Plan(NewProduct, ctx)
      else if e == Cancel then home
      else stay
    case NewProduct => if e == NewProductReady then Plan(SelectingUser, ctx) else if e == Cancel then home else stay
    case ManageProduct =>
      if e == ArchiveRequested then Plan(ConfirmArchive, ctx)
      else if e == PriceChanged then home
      else if e == Cancel then Plan(SelectingUser, ctx)
      else stay
    case ConfirmArchive => if e == ArchiveConfirmed then home else if e == Cancel then Plan(ManageProduct, ctx) else stay
    case Admin => if e == AdminDone || e == Cancel then Plan(SelectingProduct, ctx) else stay
    case _ => stay
  }

  function PlannedChoice(ui: Ui, e: Event, m: Moment): Plan {
    var ctx := ui.ctx;
    if e == ResidentSelected then Plan(Submitting, ctx.(transactionId := m.minted))
    else if e == ManageRequested then Plan(ManageProduct, ctx.(archiveIndex := ctx.productIndex))
    else if e == Cancel then Plan(SelectingProduct, BLANK)
    else Plan(ui.screen, ctx)
  }

  function PlannedWaiting(ui: Ui, e: Event): Plan {
    var ok, failed := if ui.screen == Submitting then SubmitSucceeded else UndoSucceeded,
                      if ui.screen == Submitting then SubmitFailed else UndoFailed;
    Plan(if e == ok then Success else if e == failed then Error else ui.screen, ui.ctx)
  }

  function PlannedAfter(ui: Ui, e: Event): Plan {
    var ctx := ui.ctx;
    var stay, home := Plan(ui.screen, ctx), Plan(SelectingProduct, BLANK);
    match ui.screen
    case Success =>
      if e == Undo && !ctx.undone then Plan(Undoing, ctx.(undoInFlight := true))
      else if e == ShowSummary then Plan(Summary, ctx)
      else if e == Dwell || e == Cancel then home
      else stay
    case Summary => if e == Dwell || e == Cancel then home else stay
    case Error =>
      if e == Retry then Plan(if ctx.undoInFlight then Undoing else Submitting, ctx)
      else if e == Cancel then home
      else stay
    case _ => stay
  }

  /** What an event does besides the transition. */
  function Prepared(d: Device, e: Event, m: Moment): Device {
    if d.ui.screen == SelectingUser && e == ResidentSelected then d.(slot := B.Clear(d.slot))
    else if d.ui.screen == ConfirmArchive && e == ArchiveConfirmed && m.product.Some?
    then QueueChange(d, m.product.value, Archive, m)
    else d
  }

  function Dispatch(d: Device, e: Event, m: Moment): Device {
    var p := Planned(d.ui, e, m);
    var there := Enter(WithContext(Prepared(d, e, m), p.ctx), p.next, m);
    if d.ui.screen == Sleeping && e == Wake then Enter(there, SelectingProduct, m) else there
  }

  function Reversed(d: Device): Device {
    WithContext(d, d.ui.ctx.(undoInFlight := false, undone := true))
  }

  /** The screen that waits learns how it went. */
  function Concluded(d: Device, ok: bool, m: Moment): Device {
    var submitting := d.ui.screen == Submitting;
    if ok then (if submitting then Dispatch(d, SubmitSucceeded, m) else Dispatch(Reversed(d), UndoSucceeded, m))
    else Dispatch(d, if submitting then SubmitFailed else UndoFailed, m)
  }

  /** The backend has a result for the screen that waits. An unreachable server is no
      failure: the entry is stored and goes out by itself. */
  function Resolve(d: Device, m: Moment): Device {
    var r := d.slot.result;
    if r == B.Pending then d
    else
      var noted := WithContext(d, d.ui.ctx.(deferred := r == B.Unreachable));
      var done := Concluded(noted, r == B.Success || r == B.Unreachable, m);
      done.(slot := B.Clear(done.slot))
  }

  /** The deadline of a timed screen has passed. */
  function Expire(d: Device, m: Moment): Device {
    var c := d.(ui := d.ui.(deadline := 0));
    match d.ui.screen
    case Submitting =>
      if c.ui.failNext then Dispatch(c.(ui := c.ui.(failNext := false)), SubmitFailed, m)
      else Dispatch(c, SubmitSucceeded, m)
    case Undoing => Dispatch(Reversed(c), UndoSucceeded, m)
    case Success => Dispatch(c, Dwell, m)
    case Summary => Dispatch(c, Dwell, m)
    case _ => c
  }

  function Update(d: Device, now: Time, m: Moment): Device {
    if !d.ui.simulated && d.ui.screen.Waits() then Resolve(d, m)
    else if d.ui.deadline == 0 || !Due(now, d.ui.deadline) then d
    else Expire(d, m)
  }

  function Started(slot: B.Slot, queue: seq<Entry>, m: Moment): Device {
    var asleep := Device(Ui(Sleeping, BLANK, 0, 0, false, false), slot, queue);
    Enter(Enter(asleep, Waking, m), SelectingProduct, m)
  }

  // ---- What every event sequence keeps ----------------------------------------

  /** An undo is in flight exactly where one can be; a submission never is one; and a
      purchase that can be retried or undone has its id. */
  predicate Sound(ui: Ui) {
    && !ui.screen.LookingUp? && !ui.screen.ProductFound?
    && (ui.screen == Undoing ==> ui.ctx.undoInFlight)
    && (ui.screen == Submitting ==> !ui.ctx.undoInFlight)
    && (ui.ctx.undoInFlight ==> ui.screen.Confirms() || ui.screen == Undoing || ui.screen == Error)
    && (ui.ctx.undone ==> ui.screen.Confirms())
    && (ui.screen.Waits() || ui.screen == Success || ui.screen == Error ==> ui.ctx.transactionId != [])
  }

  /** A transition changes the screen, and of the purchase at most whether it counts as
      deferred. Only the two screens that hand something over touch the queue. */
  lemma EnterUi(d: Device, next: Screen, m: Moment)
    requires next != d.ui.screen
    ensures var e := Enter(d, next, m);
            && e.ui.screen == next
            && e.ui.ctx == d.ui.ctx.(deferred := e.ui.ctx.deferred)
            && (!next.Waits() ==> e.ui.ctx == d.ui.ctx && e.queue == d.queue
                                  && e.ui.simulated == d.ui.simulated && e.ui.failNext == d.ui.failNext)
  {}

  ghost predicate GoodPlan(ui: Ui, p: Plan) {
    Sound(ui.(screen := p.next, ctx := p.ctx)) && (p.next == ui.screen ==> p.ctx == ui.ctx)
  }

  lemma BrowsingSound(ui: Ui, e: Event, m: Moment)
    requires Sound(ui) && !ui.screen.Waits() && !ui.screen.Confirms() && ui.screen != Error
    ensures GoodPlan(ui, PlannedBrowsing(ui, e, m))
  {}

  lemma ChoiceSound(ui: Ui, e: Event, m: Moment)
    requires Sound(ui) && m.minted != [] && ui.screen == SelectingUser
    ensures GoodPlan(ui, PlannedChoice(ui, e, m))
  {}

  lemma WaitingSound(ui: Ui, e: Event)
    requires Sound(ui) && ui.screen.Waits()
    ensures GoodPlan(ui, PlannedWaiting(ui, e))
  {}

  lemma AfterSound(ui: Ui, e: Event)
    requires Sound(ui) && (ui.screen.Confirms() || ui.screen == Error)
    ensures GoodPlan(ui, PlannedAfter(ui, e))
  {}

  /** The plan of every event is sound once it is on the screen it leads to. */
  lemma PlanSound(ui: Ui, e: Event, m: Moment)
    requires Sound(ui) && m.minted != []
    ensures GoodPlan(ui, Planned(ui, e, m))
  {
    if ui.screen.Waits() {
      WaitingSound(ui, e);
    } else if ui.screen.Confirms() || ui.screen == Error {
      AfterSound(ui, e);
    } else if ui.screen == SelectingUser {
      ChoiceSound(ui, e, m);
    } else {
      BrowsingSound(ui, e, m);
    }
  }

  lemma PreparedUi(d: Device, e: Event, m: Moment)
    ensures Prepared(d, e, m).ui == d.ui
  {}

  lemma EnterSound(d: Device, ctx: Context, next: Screen, m: Moment)
    requires Sound(d.ui.(screen := next, ctx := ctx)) && (next == d.ui.screen ==> ctx == d.ui.ctx)
    ensures Sound(Enter(WithContext(d, ctx), next, m).ui)
  {
    if next != d.ui.screen {
      EnterUi(WithContext(d, ctx), next, m);
    }
  }

  /** Most events do nothing but lead somewhere. */
  lemma Plainly(d: Device, e: Event, m: Moment)
    requires d.ui.screen != Sleeping && Prepared(d, e, m) == d
    ensures var p := Planned(d.ui, e, m); Dispatch(d, e, m) == Enter(WithContext(d, p.ctx), p.next, m)
  {}

  lemma DispatchSound(d: Device, e: Event, m: Moment)
    requires Sound(d.ui) && m.minted != []
    ensures Sound(Dispatch(d, e, m).ui)
  {
    var p, b := Planned(d.ui, e, m), Prepared(d, e, m);
    PlanSound(d.ui, e, m);
    PreparedUi(d, e, m);
    EnterSound(b, p.ctx, p.next, m);
    if d.ui.screen == Sleeping && e == Wake {
      var there := Enter(WithContext(b, p.ctx), p.next, m);
      EnterSound(there, there.ui.ctx, SelectingProduct, m);
    }
  }

  lemma UpdateSound(d: Device, now: Time, m: Moment)
    requires Sound(d.ui) && m.minted != []
    ensures Sound(Update(d, now, m).ui)
  {
    if !d.ui.simulated && d.ui.screen.Waits() {
      ResolveSound(d, m);
    } else if d.ui.deadline != 0 && Due(now, d.ui.deadline) {
      ExpireSound(d, m);
    }
  }

  /** Out of a waiting screen there are two ways, and neither takes anything along. */
  lemma Leaves(d: Device, ctx: Context, ok: bool, m: Moment)
    requires d.ui.screen.Waits()
    ensures var e := if d.ui.screen == Submitting then (if ok then SubmitSucceeded else SubmitFailed)
                     else if ok then UndoSucceeded else UndoFailed;
            var v := Dispatch(WithContext(d, ctx), e, m);
            && v == Enter(WithContext(d, ctx), if ok then Success else Error, m)
            && v.ui.screen == (if ok then Success else Error) && v.ui.ctx == ctx && v.queue == d.queue
            && v.ui.failNext == d.ui.failNext
  {
    EnterUi(WithContext(d, ctx), if ok then Success else Error, m);
  }

  lemma ResolveSound(d: Device, m: Moment)
    requires Sound(d.ui) && d.ui.screen.Waits()
    ensures Sound(Resolve(d, m).ui)
  {
    var ctx, r := d.ui.ctx, d.slot.result;
    if r != B.Pending {
      var noted := ctx.(deferred := r == B.Unreachable);
      Leaves(d, noted, r == B.Success || r == B.Unreachable, m);
      Leaves(d, noted.(undoInFlight := false, undone := true), true, m);
    }
  }

  lemma ExpireSound(d: Device, m: Moment)
    requires Sound(d.ui) && m.minted != []
    ensures Sound(Expire(d, m).ui)
  {
    var c := d.(ui := d.ui.(deadline := 0));
    if d.ui.screen.Waits() {
      Leaves(c.(ui := c.ui.(failNext := false)), c.ui.ctx, false, m);
      Leaves(c, c.ui.ctx, true, m);
      Leaves(c, c.ui.ctx.(undoInFlight := false, undone := true), true, m);
    } else {
      DispatchSound(c, Dwell, m);
    }
  }

  // ---- The id of a purchase ---------------------------------------------------

  /** The id is minted when the resident is chosen, kept by every other event until the
      purchase is over, and blanked then: no retry mints another one. */
  lemma IdKept(d: Device, e: Event, m: Moment)
    ensures var v := Dispatch(d, e, m).ui;
            || (v.ctx == BLANK && v.screen == SelectingProduct)
            || v.ctx.transactionId == if d.ui.screen == SelectingUser && e == ResidentSelected then m.minted
                                      else d.ui.ctx.transactionId
  {
    var p, b := Planned(d.ui, e, m), Prepared(d, e, m);
    PlanIds(d.ui, e, m);
    PreparedUi(d, e, m);
    if p.next != d.ui.screen {
      EnterUi(WithContext(b, p.ctx), p.next, m);
      if d.ui.screen == Sleeping && e == Wake {
        EnterUi(Enter(WithContext(b, p.ctx), p.next, m), SelectingProduct, m);
      }
    }
  }

  predicate Leads(ui: Ui, p: Plan, id: Text) {
    && (p.ctx.transactionId == id || (p.ctx == BLANK && p.next == SelectingProduct))
    && (p.next == ui.screen ==> p.ctx == ui.ctx || p.ctx == BLANK)
  }

  lemma BrowsingIds(ui: Ui, e: Event, m: Moment)
    ensures Leads(ui, PlannedBrowsing(ui, e, m), ui.ctx.transactionId)
  {}

  lemma LaterIds(ui: Ui, e: Event)
    ensures ui.screen.Waits() ==> Leads(ui, PlannedWaiting(ui, e), ui.ctx.transactionId)
    ensures ui.screen.Confirms() || ui.screen == Error ==> Leads(ui, PlannedAfter(ui, e), ui.ctx.transactionId)
  {}

  lemma PlanIds(ui: Ui, e: Event, m: Moment)
    ensures Leads(ui, Planned(ui, e, m),
                  if ui.screen == SelectingUser && e == ResidentSelected then m.minted else ui.ctx.transactionId)
  {
    if ui.screen.Waits() {
      LaterIds(ui, e);
      assert Planned(ui, e, m) == PlannedWaiting(ui, e);
    } else if ui.screen.Confirms() || ui.screen == Error {
      LaterIds(ui, e);
      assert Planned(ui, e, m) == PlannedAfter(ui, e);
    } else if ui.screen != SelectingUser {
      BrowsingIds(ui, e, m);
      assert Planned(ui, e, m) == PlannedBrowsing(ui, e, m);
    }
  }

  /** Retry hands over what failed: the same purchase under the same id, or its reversal,
      and never one for the other. */
  lemma RetrySame(d: Device, m: Moment)
    requires Sound(d.ui) && d.ui.screen == Error
    ensures var v, ctx := Dispatch(d, Retry, m), d.ui.ctx;
            && v.ui.ctx.transactionId == ctx.transactionId
            && v.ui.screen == (if ctx.undoInFlight then Undoing else Submitting)
            && (ctx.undoInFlight ==> v.queue == d.queue || v.queue == d.queue + [VoidEntry(ctx)]
                                     || v.queue == RemoveFirst(d.queue, PurchaseOf(ctx.transactionId)))
            && (!ctx.undoInFlight ==> v.queue == d.queue || v.queue == d.queue + [PurchaseEntry(ctx, m)])
  {
    var next := if d.ui.ctx.undoInFlight then Undoing else Submitting;
    assert Dispatch(d, Retry, m) == Enter(d, next, m);
    EnterUi(d, next, m);
    EnterQueue(d, next, m);
  }

  /** What the two handing-over screens do to the queue. */
  lemma EnterQueue(d: Device, next: Screen, m: Moment)
    requires next.Waits() && next != d.ui.screen
    ensures var v, ctx := Enter(d, next, m), d.ui.ctx;
            && (next == Undoing ==> v.queue == d.queue || v.queue == d.queue + [VoidEntry(ctx)]
                                    || v.queue == RemoveFirst(d.queue, PurchaseOf(ctx.transactionId)))
            && (next == Submitting ==> v.queue == d.queue || v.queue == d.queue + [PurchaseEntry(ctx, m)])
  {
    var b := d.(ui := d.ui.(screen := next, deadline := 0, dwell := 0));
    PurchaseQueue(b, m);
    UndoQueue(b, m);
    assert Enter(d, next, m).queue == Begun(b, m).queue;
  }

  lemma PurchaseQueue(d: Device, m: Moment)
    ensures var v := EnqueuePurchase(d, m).0;
            v.ui == d.ui && (v.queue == d.queue || v.queue == d.queue + [PurchaseEntry(d.ui.ctx, m)])
  {}

  lemma UndoQueue(d: Device, m: Moment)
    ensures var v := EnqueueUndo(d, m).0;
            && v.ui == d.ui
            && (v.queue == d.queue || v.queue == d.queue + [VoidEntry(d.ui.ctx)]
                || v.queue == RemoveFirst(d.queue, PurchaseOf(d.ui.ctx.transactionId)))
  {}
}
