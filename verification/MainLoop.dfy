/** Screens, backend and queue in one main loop: one backend turn and one screen turn per
    iteration, events in between, the worker reporting at any time. */
module MainLoop {
  import opened Bits
  import opened Records
  import opened Settings
  import opened Clock
  import opened TransactionQueue
  import opened AppState
  import ApiClient
  import B = Backend

  datatype Terminal = Terminal(d: Device, client: ApiClient.State, disk: seq<Entry>)

  datatype Act =
    /** backend::update, then app_state::update. */
    | Turn(env: B.Env, revision: Uint32, m: Moment)
    | Happen(e: Event, m: Moment)
    /** What the screens do besides dispatching events. */
    | Choose(index: int, name: Name, barcode: Barcode, priceRappen: Int32, freeItem: bool)
    | PickResident(index: int)
    | FailNext(on: bool)
    | QueueProduct(c: Change, kind: Kind, m: Moment)
    /** Anything the worker does to the client. */
    | Worker(client: ApiClient.State)
    /** The queue as it stands reaches flash, or flash loses the file. */
    | Store(lost: bool)
    | Restart(m: Moment)

  function Ticked(t: Terminal, env: B.Env, revision: Uint32): Terminal {
    var d := t.d;
    var o := B.Tick(d.slot, B.HeadOf(d.queue), ChangesProducts(d.queue), revision, t.client, env);
    t.(d := d.(slot := o.slot, queue := if o.popped then B.Popped(d.queue) else d.queue), client := o.client)
  }

  function Acted(t: Terminal, a: Act): Terminal {
    match a
    case Turn(env, revision, m) =>
      var u := Ticked(t, env, revision);
      u.(d := Update(u.d, env.now, m))
    case Happen(e, m) => t.(d := Dispatch(t.d, e, m))
    case Choose(index, name, barcode, price, free) =>
      t.(d := WithContext(t.d, t.d.ui.ctx.(productIndex := index, productName := name, barcode := barcode,
                                           priceRappen := price, freeItem := free)))
    case PickResident(index) => t.(d := WithContext(t.d, t.d.ui.ctx.(residentIndex := index)))
    case FailNext(on) => t.(d := t.d.(ui := t.d.ui.(failNext := on)))
    case QueueProduct(c, kind, m) => t.(d := QueueChange(t.d, c, kind, m))
    case Worker(client) => t.(client := client)
    case Store(lost) => t.(disk := if lost then [] else t.d.queue)
    case Restart(m) =>
      t.(d := Started(B.RequestSync(B.AtPowerOn(t.d.slot.configured), m.revision, m.len, m.now).0, t.disk, m),
         client := t.client.(status := ApiClient.Idle))
  }

  predicate Reverses(q: seq<Entry>, id: Text) {
    exists i :: 0 <= i < |q| && q[i].kind == Void && q[i].transactionId == id
  }

  /** Minted ids are new to the queue, and no simulated deadline falls on the one
      millisecond that reads as none. */
  predicate Proper(q: seq<Entry>, m: Moment) {
    m.minted != [] && !Reverses(q, m.minted) && Add(m.later, MOCK_SUBMIT_MS) != 0
  }

  predicate Can(t: Terminal, a: Act) {
    match a
    case Turn(_, _, m) => Proper(t.d.queue, m)
    case Happen(_, m) => Proper(t.d.queue, m)
    case Choose(_, _, _, _, _) => true
    case PickResident(_) => true
    case FailNext(_) => t.d.ui.screen == Admin
    case QueueProduct(_, kind, _) => kind.IsProductChange()
    case Worker(_) => true
    case Store(_) => true
    case Restart(m) => Proper(t.d.queue, m)
  }

  ghost function After(t: Terminal, acts: seq<Act>): Terminal
    decreases |acts|
  {
    if |acts| == 0 then t else After(Acted(t, acts[0]), acts[1..])
  }

  ghost predicate Possible(t: Terminal, acts: seq<Act>)
    decreases |acts|
  {
    |acts| > 0 ==> Can(t, acts[0]) && Possible(Acted(t, acts[0]), acts[1..])
  }

  // ---- Nobody waits for nothing -----------------------------------------------

  /** A screen that waits for a real result has a live request under way; one that waits
      on the timer has it armed. */
  predicate WaitsForSomething(d: Device) {
    d.ui.screen.Waits() ==>
      if d.ui.simulated then d.ui.deadline != 0
      else d.slot.configured && d.slot.result == B.Pending && d.slot.op.SendsEntry()
  }

  predicate Good(t: Terminal) {
    Sound(t.d.ui) && WaitsForSomething(t.d)
  }

  lemma SetActiveKeeps(b: B.Slot, active: bool, revision: Uint32, len: nat, now: Time)
    ensures var s := B.SetActive(b, active, revision, len, now);
            && s.configured == b.configured && s.result == b.result
            && (b.op != B.NoOp ==> s.op == b.op)
  {}

  lemma PushLive(d: Device, e: Entry, m: Moment)
    requires d.slot.configured
    ensures var (v, sent) := PushAndSend(d, e, m);
            && v.ui == d.ui && v.slot.configured
            && (sent ==> v.slot.op.SendsEntry() && v.slot.result == B.Pending)
  {}

  /** Handing over ends in one of two ways: watched with a live request, or on the timer. */
  lemma BegunWaits(d: Device, m: Moment)
    requires d.ui.screen.Waits()
    ensures var b := Begun(d, m);
            && b.ui.screen == d.ui.screen
            && (b.ui.simulated ==> b.ui.dwell == MOCK_SUBMIT_MS)
            && (!b.ui.simulated ==> b.slot.configured && b.slot.result == B.Pending && b.slot.op.SendsEntry())
  {
    if d.slot.configured {
      PushLive(d, PurchaseEntry(d.ui.ctx, m), m);
      PushLive(d, VoidEntry(d.ui.ctx), m);
    }
  }

  lemma EnterWaits(d: Device, next: Screen, m: Moment)
    requires Add(m.later, MOCK_SUBMIT_MS) != 0 && (next == d.ui.screen ==> WaitsForSomething(d))
    ensures WaitsForSomething(Enter(d, next, m))
  {
    if next != d.ui.screen {
      var x := d.(ui := d.ui.(screen := next, deadline := 0, dwell := 0));
      if next.Waits() {
        BegunWaits(x, m);
        var b := Begun(x, m);
        SetActiveKeeps(b.slot, true, m.revision, m.len, m.later);
      } else {
        EnterUi(d, next, m);
      }
    }
  }

  lemma DispatchWaits(d: Device, e: Event, m: Moment)
    requires Add(m.later, MOCK_SUBMIT_MS) != 0 && WaitsForSomething(d)
    ensures WaitsForSomething(Dispatch(d, e, m))
  {
    var p, b := Planned(d.ui, e, m), WithContext(Prepared(d, e, m), Planned(d.ui, e, m).ctx);
    PreparedUi(d, e, m);
    assert d.ui.screen.Waits() ==> Prepared(d, e, m) == d;
    EnterWaits(b, p.next, m);
    EnterWaits(Enter(b, p.next, m), SelectingProduct, m);
  }

  /** A result that came in moves the screen on in the same iteration: to the error page
      exactly if the server refused, and otherwise to the confirmation. */
  lemma ResultMovesOn(d: Device, m: Moment)
    requires d.ui.screen.Waits() && d.slot.result != B.Pending
    ensures var r := d.slot.result;
            Resolve(d, m).ui.screen == (if r == B.Success || r == B.Unreachable then Success else Error)
  {
    var noted := d.ui.ctx.(deferred := d.slot.result == B.Unreachable);
    Leaves(d, noted, d.slot.result == B.Success || d.slot.result == B.Unreachable, m);
    Leaves(d, noted.(undoInFlight := false, undone := true), true, m);
  }

  /** The timer moves the screen on: a submission to the error page exactly if it was to
      fail, and an undo always to the confirmation. */
  lemma TimerMovesOn(d: Device, m: Moment)
    requires d.ui.screen.Waits()
    ensures Expire(d, m).ui.screen == (if d.ui.screen == Submitting && d.ui.failNext then Error else Success)
    ensures Expire(d, m).queue == d.queue && (d.ui.screen == Undoing ==> Expire(d, m).ui.ctx.undone)
    ensures Expire(d, m).ui.failNext == (d.ui.screen == Undoing && d.ui.failNext)
  {
    var ctx, c := d.ui.ctx, d.(ui := d.ui.(deadline := 0));
    if d.ui.screen == Undoing {
      Leaves(c, ctx.(undoInFlight := false, undone := true), true, m);
    } else if c.ui.failNext {
      Leaves(c.(ui := c.ui.(failNext := false)), ctx, false, m);
    } else {
      Leaves(c, ctx, true, m);
    }
  }

  /** One iteration with a live request: either it goes on, or it ended and the screen
      has moved on. */
  lemma WatchedTurn(t: Terminal, env: B.Env, revision: Uint32, m: Moment)
    requires t.d.ui.screen.Waits() && !t.d.ui.simulated && WaitsForSomething(t.d)
    ensures var u, v := Ticked(t, env, revision), Acted(t, Turn(env, revision, m));
            (v.d == u.d && WaitsForSomething(v.d)) || (u.d.slot.op == B.NoOp && !v.d.ui.screen.Waits())
    ensures var v := Acted(t, Turn(env, revision, m)).d.ui;
            v.screen == Error ==> Ticked(t, env, revision).d.slot.result == B.Rejected
  {
    var d, u := t.d, Ticked(t, env, revision);
    B.AttemptEnds(d.slot, B.HeadOf(d.queue), ChangesProducts(d.queue), revision, t.client, env);
    if u.d.slot.op == B.NoOp {
      ResultMovesOn(u.d, m);
    }
  }

  lemma TurnWaits(t: Terminal, env: B.Env, revision: Uint32, m: Moment)
    requires Good(t) && Add(m.later, MOCK_SUBMIT_MS) != 0
    ensures WaitsForSomething(Acted(t, Turn(env, revision, m)).d)
  {
    var u := Ticked(t, env, revision);
    if t.d.ui.screen.Waits() && !t.d.ui.simulated {
      WatchedTurn(t, env, revision, m);
    } else if t.d.ui.screen.Waits() {
      TimerMovesOn(u.d, m);
    } else {
      DispatchWaits(u.d.(ui := u.d.ui.(deadline := 0)), Dwell, m);
    }
  }

  lemma ActGood(t: Terminal, a: Act)
    requires Good(t) && Can(t, a)
    ensures Good(Acted(t, a))
  {
    match a
    case Turn(env, revision, m) =>
      UpdateSound(Ticked(t, env, revision).d, env.now, m);
      TurnWaits(t, env, revision, m);
    case Happen(e, m) =>
      DispatchSound(t.d, e, m);
      DispatchWaits(t.d, e, m);
    case QueueProduct(c, kind, m) => QueueGood(t.d, c, kind, m);
    case Restart(m) => StartGood(B.RequestSync(B.AtPowerOn(t.d.slot.configured), m.revision, m.len, m.now).0, t.disk, m);
    case _ =>
  }

  lemma QueueGood(d: Device, c: Change, kind: Kind, m: Moment)
    requires WaitsForSomething(d)
    ensures QueueChange(d, c, kind, m).ui == d.ui && WaitsForSomething(QueueChange(d, c, kind, m))
  {}

  lemma StartGood(slot: B.Slot, queue: seq<Entry>, m: Moment)
    ensures Sound(Started(slot, queue, m).ui) && !Started(slot, queue, m).ui.screen.Waits()
    ensures Started(slot, queue, m).ui.ctx == BLANK && Started(slot, queue, m).queue == queue
  {
    var asleep := Device(Ui(Sleeping, BLANK, 0, 0, false, false), slot, queue);
    EnterUi(asleep, Waking, m);
    EnterUi(Enter(asleep, Waking, m), SelectingProduct, m);
  }

  lemma {:induction false} RunGood(t: Terminal, acts: seq<Act>)
    requires Good(t) && Possible(t, acts)
    ensures Good(After(t, acts))
    decreases |acts|
  {
    if |acts| > 0 {
      ActGood(t, acts[0]);
      RunGood(Acted(t, acts[0]), acts[1..]);
    }
  }

  predicate PoweredOn(t: Terminal, slot: B.Slot, m: Moment) {
    t.d == Started(slot, t.disk, m)
  }

  /** After every run the screen never waits for a result that nobody produces; an undo
      is under way where the screen says so, and never a submission; and the two lookup
      screens are never shown. */
  lemma NeverWaitsForNothing(t: Terminal, slot: B.Slot, m: Moment, acts: seq<Act>)
    requires PoweredOn(t, slot, m) && Possible(t, acts)
    ensures WaitsForSomething(After(t, acts).d) && Sound(After(t, acts).d.ui)
  {
    StartGood(slot, t.disk, m);
    RunGood(t, acts);
  }

  // ---- A refused purchase -----------------------------------------------------

  /** The submission was not stored, and the timer will say so. */
  predicate Doomed(ui: Ui) {
    ui.screen == Submitting && ui.simulated && ui.failNext
  }

  /** With a full queue a configured device refuses the purchase. */
  lemma FullRefuses(d: Device, m: Moment)
    requires d.slot.configured && Full(d) && d.ui.screen != Submitting
    ensures Doomed(Enter(d, Submitting, m).ui) && Enter(d, Submitting, m).queue == d.queue
  {}

  predicate Button(a: Act) {
    a.Happen? ==> !a.e.Internal()
  }

  lemma WaitingDeaf(d: Device, e: Event, m: Moment)
    requires d.ui.screen.Waits() && !e.Internal()
    ensures Dispatch(d, e, m) == d
  {
    assert Planned(d.ui, e, m) == Plan(d.ui.screen, d.ui.ctx);
  }

  lemma DoomedStep(t: Terminal, a: Act)
    requires Doomed(t.d.ui) && Can(t, a) && Button(a) && !a.Restart?
    ensures Doomed(Acted(t, a).d.ui) || Acted(t, a).d.ui.screen == Error
  {
    match a
    case Turn(env, revision, m) => TimerMovesOn(Ticked(t, env, revision).d, m);
    case Happen(e, m) => WaitingDeaf(t.d, e, m);
    case _ =>
  }

  /** The first screen after the one that waits, if the run gets that far. */
  ghost function Then(t: Terminal, acts: seq<Act>): Screen
    decreases |acts|
  {
    if t.d.ui.screen != Submitting || |acts| == 0 then t.d.ui.screen else Then(Acted(t, acts[0]), acts[1..])
  }

  /** A refused purchase is never confirmed: whatever happens while the screen waits, the
      next screen is the error page. */
  lemma {:induction false} RefusedNeverConfirmed(t: Terminal, acts: seq<Act>)
    requires Doomed(t.d.ui) && Possible(t, acts)
    requires forall i :: 0 <= i < |acts| ==> Button(acts[i]) && !acts[i].Restart?
    ensures Then(t, acts) == Submitting || Then(t, acts) == Error
    decreases |acts|
  {
    if |acts| > 0 {
      DoomedStep(t, acts[0]);
      if Doomed(Acted(t, acts[0]).d.ui) {
        RefusedNeverConfirmed(Acted(t, acts[0]), acts[1..]);
      }
    }
  }

  // ---- A refused undo ---------------------------------------------------------

  /** An undo does nothing on a configured device exactly when its purchase has left the
      queue and the queue is full. */
  lemma UndoRefusedIff(d: Device, m: Moment)
    requires d.slot.configured && d.ui.screen == Success && !d.ui.ctx.undone
    ensures Dispatch(d, Undo, m).queue == d.queue <==>
              Full(d) && !HoldsPurchase(d.queue, d.ui.ctx.transactionId)
    ensures Dispatch(d, Undo, m).queue == d.queue ==>
              Dispatch(d, Undo, m).ui.simulated && Dispatch(d, Undo, m).ui.failNext
  {
    var x := WithContext(d, d.ui.ctx.(undoInFlight := true));
    Plainly(d, Undo, m);
    UndoBegun(x, m);
    if HoldsPurchase(d.queue, d.ui.ctx.transactionId) {
      Shortens(d.queue, d.ui.ctx.transactionId);
    }
  }

  lemma UndoBegun(d: Device, m: Moment)
    requires d.slot.configured && d.ui.screen != Undoing
    ensures var v, id := Enter(d, Undoing, m), d.ui.ctx.transactionId;
            if HoldsPurchase(d.queue, id) then v.queue == RemoveFirst(d.queue, PurchaseOf(id))
            else if Full(d) then v.queue == d.queue && v.ui.simulated && v.ui.failNext
            else v.queue == d.queue + [VoidEntry(d.ui.ctx)]
  {}

  /** The screen then says that the purchase was taken back, although nothing was queued
      or removed, and the failure stays armed for the next submission. */
  lemma RefusedUndoConfirmed(d: Device, m: Moment, later: Moment)
    requires d.slot.configured && d.ui.screen == Success && !d.ui.ctx.undone
    requires Full(d) && !HoldsPurchase(d.queue, d.ui.ctx.transactionId)
    ensures var v := Expire(Dispatch(d, Undo, m), later);
            v.ui.screen == Success && v.ui.ctx.undone && v.queue == d.queue && v.ui.failNext
  {
    UndoRefusedIff(d, m);
    UndoShown(d, m);
    Confirmed(Dispatch(d, Undo, m), later);
  }

  lemma UndoShown(d: Device, m: Moment)
    requires d.ui.screen == Success && !d.ui.ctx.undone
    ensures Dispatch(d, Undo, m).ui.screen == Undoing
  {
    Plainly(d, Undo, m);
    EnterUi(WithContext(d, d.ui.ctx.(undoInFlight := true)), Undoing, m);
  }

  lemma Confirmed(u: Device, later: Moment)
    requires u.ui.screen == Undoing
    ensures var v := Expire(u, later);
            v.ui.screen == Success && v.ui.ctx.undone && v.queue == u.queue && v.ui.failNext == u.ui.failNext
  {
    TimerMovesOn(u, later);
  }

  /** So the next purchase that is stored while the slot is busy ends on the error page,
      although it is queued and will be sent. */
  lemma NextPurchaseSpoiled(d: Device, m: Moment, later: Moment)
    requires d.slot.configured && d.ui.screen == SelectingUser && d.ui.failNext && !Full(d) && d.slot.op != B.NoOp
    ensures var u := Dispatch(d, ResidentSelected, m);
            var e := PurchaseEntry(d.ui.ctx.(transactionId := m.minted), m);
            && u.queue == d.queue + [e]
            && Expire(u, later).ui.screen == Error && Expire(u, later).queue == d.queue + [e]
  {
    var x := WithContext(d, d.ui.ctx.(transactionId := m.minted)).(slot := B.Clear(d.slot));
    assert Dispatch(d, ResidentSelected, m) == Enter(x, Submitting, m);
    StoredBehind(x, m);
    TimerMovesOn(Enter(x, Submitting, m), later);
  }

  lemma StoredBehind(d: Device, m: Moment)
    requires d.slot.configured && !Full(d) && d.slot.op != B.NoOp && d.ui.screen != Submitting
    ensures var v := Enter(d, Submitting, m);
            && v.queue == d.queue + [PurchaseEntry(d.ui.ctx, m)]
            && v.ui.screen == Submitting && v.ui.simulated && v.ui.failNext == d.ui.failNext
  {}

  /** Nothing keeps an undo from the purchase in flight: on the confirmation screen it
      takes the very entry out of the queue whose request is under way. */
  lemma UndoTakesInFlight(d: Device, m: Moment)
    requires d.slot.configured && d.ui.screen == Success && !d.ui.ctx.undone && d.slot.op.SendsEntry()
    requires d.queue != [] && PurchaseOf(d.ui.ctx.transactionId)(d.queue[0])
    ensures Dispatch(d, Undo, m).queue == d.queue[1..] && Dispatch(d, Undo, m).slot.op == d.slot.op
  {
    var x := WithContext(d, d.ui.ctx.(undoInFlight := true));
    assert HoldsPurchase(d.queue, d.ui.ctx.transactionId);
    Plainly(d, Undo, m);
    UndoBegun(x, m);
    UndoKeepsSlot(x, m);
  }

  lemma UndoKeepsSlot(d: Device, m: Moment)
    requires d.slot.op != B.NoOp && d.ui.screen != Undoing
    ensures Enter(d, Undoing, m).slot.op == d.slot.op
  {}

  // ---- A deadline of zero -----------------------------------------------------

  /** A simulated wait has a deadline unless the clock is 800 ms short of wrapping. */
  lemma ArmedIff(d: Device, next: Screen, m: Moment)
    requires next.Waits() && next != d.ui.screen && Enter(d, next, m).ui.simulated
    ensures Enter(d, next, m).ui.deadline != 0 <==> m.later != CYCLE - MOCK_SUBMIT_MS
  {
    BegunWaits(d.(ui := d.ui.(screen := next, deadline := 0, dwell := 0)), m);
  }

  /** Without a deadline the screen stays for good: no button and no turn of the loop
      leads away from it. */
  lemma {:induction false} StuckForGood(t: Terminal, acts: seq<Act>)
    requires t.d.ui.screen.Waits() && t.d.ui.simulated && t.d.ui.deadline == 0 && Possible(t, acts)
    requires forall i :: 0 <= i < |acts| ==> Button(acts[i]) && !acts[i].Restart?
    ensures After(t, acts).d.ui.screen == t.d.ui.screen
    decreases |acts|
  {
    if |acts| > 0 {
      StuckStep(t, acts[0]);
      StuckForGood(Acted(t, acts[0]), acts[1..]);
    }
  }

  lemma StuckStep(t: Terminal, a: Act)
    requires t.d.ui.screen.Waits() && t.d.ui.simulated && t.d.ui.deadline == 0
    requires Can(t, a) && Button(a) && !a.Restart?
    ensures var u := Acted(t, a).d.ui;
            u.screen == t.d.ui.screen && u.simulated && u.deadline == 0
  {
    match a
    case Happen(e, m) => WaitingDeaf(t.d, e, m);
    case _ =>
  }
}
