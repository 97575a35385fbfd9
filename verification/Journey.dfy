/** From the tap to the sheet: what is chosen on the screens, handed over and answered
    stands in the sheet as it was chosen; and an undo and a product change reach it too. */
module Journey {
  import opened Records
  import opened Wrappers
  import opened Clock
  import opened AppState
  import opened MainLoop
  import opened HandOver
  import opened Bridge
  import opened Server
  import ApiClient
  import AppMachine
  import Upkeep
  import B = Backend
  import D = Delivery
  import R = Runs

  // ---- One move at a time -----------------------------------------------------

  lemma FirstMove(t: Terminal, w: D.World, move: Move, rest: seq<Move>)
    ensures var u, v := Moved(t, w, move), R.Run(w, StepsFor(t, move));
            && Played(t, w, [move] + rest) == Played(u, v, rest)
            && R.Run(w, Steps(t, w, [move] + rest)) == R.Run(v, Steps(u, v, rest))
            && (AllAllowed(t, w, [move] + rest) <==> Allowed(w, move) && AllAllowed(u, v, rest))
  {
    var u, v := Moved(t, w, move), R.Run(w, StepsFor(t, move));
    assert ([move] + rest)[1..] == rest;
    R.RunAppend(w, StepsFor(t, move), Steps(u, v, rest));
  }

  lemma NoMoves(t: Terminal, w: D.World)
    ensures Played(t, w, []) == t && R.Run(w, Steps(t, w, [])) == w && AllAllowed(t, w, [])
  {}

  // ---- One answered round trip ------------------------------------------------

  /** A waiting screen waits for the request under way. */
  predicate Watched(d: Device) {
    d.ui.screen.Waits() ==> !d.ui.simulated && d.slot.result == B.Pending
  }

  /** The only entry of the queue has the slot, and is about to be handed over. */
  predicate Sending(t: Terminal, e: Entry) {
    && t.d.queue == [e] && t.d.slot.configured && t.d.slot.op.SendsEntry() && !t.d.slot.posted
    && t.d.slot.request == ApiClient.EntryRequest(e) && 0 < t.d.slot.requestLen < 640
    && t.client.ready && t.client.status == ApiClient.Idle && Watched(t.d)
  }

  /** The worker has it. */
  predicate Travelling(t: Terminal, e: Entry) {
    && t.d.queue == [e] && t.d.slot.configured && t.d.slot.op.SendsEntry() && t.d.slot.posted
    && t.client.status == ApiClient.Busy && t.client.request == ApiClient.EntryRequest(e) && Watched(t.d)
  }

  /** A turn of the screens while an operation is under way. */
  lemma UpdateWatched(d: Device, now: Time, m: Moment)
    requires d.slot.op.SendsEntry() && Watched(d)
    ensures var v := Update(d, now, m);
            && v.queue == d.queue && v.slot.op == d.slot.op && v.slot.posted == d.slot.posted
            && v.slot.configured == d.slot.configured && Watched(v)
            && (d.ui.screen.Waits() ==> v == d)
            && (!d.ui.screen.Waits() ==> !v.ui.screen.Waits())
  {
    if d.ui.screen.Confirms() {
      AppMachine.ExpiredConfirmation(d, m);
      EnterAside(d.(ui := d.ui.(deadline := 0, ctx := BLANK)), SelectingProduct, m);
    }
  }

  /** A screen that hands nothing over leaves a running operation alone. */
  lemma EnterAside(d: Device, next: Screen, m: Moment)
    requires d.slot.op.SendsEntry() && !next.Waits() && next != Summary
    ensures var v := Enter(d, next, m);
            && v.queue == d.queue && v.ui.screen == next && v.slot == d.slot.(active := v.slot.active)
  {}

  lemma HandsOver(t: Terminal, w: D.World, e: Entry, env: B.Env, m: Moment)
    requires Alike(t, w) && Sending(t, e) && env.online && env.stillOnline && m.revision == w.revision
    ensures var a := Turn(env, w.revision, m);
            var u, v := Acted(t, a), R.Run(w, StepsOf(t, a));
            && Current(w, a) && Alike(u, v) && Travelling(u, e) && v.sheet == w.sheet && v.revision == w.revision
            && (t.d.ui.screen.Waits() ==> u.d.ui == t.d.ui) && (!t.d.ui.screen.Waits() ==> !u.d.ui.screen.Waits())
  {
    var a, u := Turn(env, w.revision, m), Ticked(t, env, w.revision);
    Upkeep.HandsOver(t.d.slot, B.HeadOf(t.d.queue), TransactionQueue.ChangesProducts(t.d.queue), w.revision, t.client, env);
    TickKeepsRevision(w, env);
    UpdateWatched(u.d, env.now, m);
    ActFollows(t, w, a);
    TurnRevision(t, w, env, m);
  }

  lemma TickKeepsRevision(w: D.World, env: B.Env)
    requires !w.slot.posted || w.slot.op != B.SyncOp
    ensures D.Ticked(w, env).revision == w.revision
  {
    var o := D.Turn(w, env);
    Upkeep.OnlySyncApplies(w.slot, B.HeadOf(D.Entries(w.queue)), TransactionQueue.ChangesProducts(D.Entries(w.queue)),
                           w.revision, w.client, env);
    var noted := D.Noted(w, o.slot).(client := o.client);
    assert noted.revision == w.revision;
    var posted := D.Posted(noted, o.slot.posted && !w.slot.posted);
    assert posted.revision == w.revision;
  }

  lemma TurnRevision(t: Terminal, w: D.World, env: B.Env, m: Moment)
    requires Alike(t, w) && m.revision == D.Ticked(w, env).revision
    ensures R.Run(w, StepsOf(t, Turn(env, w.revision, m))).revision == D.Ticked(w, env).revision
  {
    var u, v := Ticked(t, env, w.revision), D.Ticked(w, env);
    var rest := UpdateSteps(u.d, env.now, m);
    TickAlike(t, w, env);
    UpdateFollows(u.d, v, env.now, m);
    One(w, D.LoopTick(env));
    R.RunAppend(w, [D.LoopTick(env)], rest);
  }

  /** The server serves it and answers. */
  function Answering(w: D.World, e: Entry): seq<Step> {
    [D.Serve(true), D.Reply(ApiClient.Body(D.Verdict(Answer(w.sheet, e, true)), None, false))]
  }

  lemma Answers(t: Terminal, w: D.World, e: Entry)
    requires Alike(t, w) && Travelling(t, e)
    ensures var move := Meanwhile(Answering(w, e));
            var u, v := Moved(t, w, move), R.Run(w, Answering(w, e));
            && Allowed(w, move) && Alike(u, v) && v.revision == w.revision
            && v.sheet == Served(w.sheet, e, true) && u.d == t.d
            && u.client == t.client.(status := ApiClient.Done, body := ApiClient.Body(D.Verdict(Answer(w.sheet, e, true)), None, false))
  {
    var body := ApiClient.Body(D.Verdict(Answer(w.sheet, e, true)), None, false);
    var s := D.Step(w, D.Serve(true));
    var v := D.Step(s, D.Reply(body));
    assert Answering(w, e) == [D.Serve(true)] + [D.Reply(body)];
    R.RunFirst(w, D.Serve(true), [D.Reply(body)]);
    R.RunOne(s, D.Reply(body));
    CanAppend(w, [D.Serve(true)], [D.Reply(body)]);
    One(w, D.Serve(true));
    One(s, D.Reply(body));
  }

  /** The answer is noticed: the entry leaves, and a screen that waited for it moves on. */
  lemma Notices(t: Terminal, w: D.World, e: Entry, ack: ApiClient.AckOutcome, env: B.Env, m: Moment)
    requires Alike(t, w) && t.d.queue == [e] && t.d.slot.configured && t.d.slot.op.SendsEntry() && t.d.slot.posted
    requires t.client.status == ApiClient.Done && t.client.body.ack == ack && !ack.AckMalformed?
    requires t.d.ui.screen.Waits() ==> !t.d.ui.simulated
    requires m.revision == w.revision
    ensures var a := Turn(env, w.revision, m);
            var u, v := Acted(t, a), R.Run(w, StepsOf(t, a));
            && Current(w, a) && Alike(u, v) && v.sheet == w.sheet && u.d.queue == []
            && (t.d.ui.screen.Waits() ==> u.d.ui.screen == if ack.AckOk? then Success else Error)
  {
    var a, u := Turn(env, w.revision, m), Ticked(t, env, w.revision);
    TickKeepsRevision(w, env);
    ActFollows(t, w, a);
    if t.d.ui.screen.Waits() {
      Concludes(u.d, m);
    } else {
      UpdateQuiet(u.d, env.now, m);
    }
  }

  lemma Concludes(d: Device, m: Moment)
    requires d.ui.screen.Waits() && (d.slot.result == B.Success || d.slot.result == B.Rejected)
    ensures Resolve(d, m).queue == d.queue
    ensures Resolve(d, m).ui.screen == if d.slot.result == B.Success then Success else Error
  {
    var noted := d.ui.ctx.(deferred := false);
    Leaves(d, noted, d.slot.result == B.Success, m);
    Leaves(d, noted.(undoInFlight := false, undone := true), true, m);
  }

  lemma UpdateQuiet(d: Device, now: Time, m: Moment)
    requires !d.ui.screen.Waits()
    ensures Update(d, now, m).queue == d.queue
  {
    if d.ui.screen.Confirms() {
      AppMachine.ExpiredConfirmation(d, m);
      EnterUi(d.(ui := d.ui.(deadline := 0, ctx := BLANK)), SelectingProduct, m);
    }
  }

  /** Handed over, served, noticed. */
  function Trip(w: D.World, e: Entry, out: B.Env, back: B.Env, m: Moment): seq<Move> {
    [OnDevice(Turn(out, w.revision, m))] + ([Meanwhile(Answering(w, e))] + ([OnDevice(Turn(back, w.revision, m))] + []))
  }

  lemma TripArrives(t: Terminal, w: D.World, e: Entry, out: B.Env, back: B.Env, m: Moment)
    requires Alike(t, w) && Sending(t, e) && out.online && out.stillOnline && m.revision == w.revision
    ensures var moves := Trip(w, e, out, back, m);
            var u, v := Played(t, w, moves), R.Run(w, Steps(t, w, moves));
            && AllAllowed(t, w, moves) && u.d.queue == [] && v.sheet == Served(w.sheet, e, true)
            && (t.d.ui.screen.Waits() ==> u.d.ui.screen == if Answer(w.sheet, e, true).Accepted? then Success else Error)
  {
    var first, second, third := OnDevice(Turn(out, w.revision, m)), Meanwhile(Answering(w, e)), OnDevice(Turn(back, w.revision, m));
    HandsOver(t, w, e, out, m);
    var t1, w1 := Moved(t, w, first), R.Run(w, StepsFor(t, first));
    Answers(t1, w1, e);
    var t2, w2 := Moved(t1, w1, second), R.Run(w1, StepsFor(t1, second));
    Notices(t2, w2, e, D.Verdict(Answer(w.sheet, e, true)), back, m);
    var t3, w3 := Moved(t2, w2, third), R.Run(w2, StepsFor(t2, third));
    NoMoves(t3, w3);
    FirstMove(t2, w2, third, []);
    FirstMove(t1, w1, second, [third] + []);
    FirstMove(t, w, first, [second] + ([third] + []));
  }

  // ---- A purchase -------------------------------------------------------------

  /** On a screen that does not wait, with nothing queued and the slot free. */
  predicate Ready(t: Terminal, screen: Screen) {
    && t.d.ui.screen == screen && !screen.Waits() && t.d.queue == [] && t.d.slot.configured && t.d.slot.op == B.NoOp
    && !t.d.slot.posted && t.d.slot.active && t.client.ready && t.client.status == ApiClient.Idle
  }

  lemma HappenKeeps(t: Terminal, w: D.World, e: Event, m: Moment)
    requires Alike(t, w) && m.revision == w.revision
    ensures var a := Happen(e, m);
            var v := R.Run(w, StepsOf(t, a));
            Allowed(w, OnDevice(a)) && Alike(Acted(t, a), v) && v.sheet == w.sheet && v.revision == w.revision
  {
    ActFollows(t, w, Happen(e, m));
    DispatchFollows(t.d, w, e, m);
  }

  /** The request of an entry that is handed over to a free slot. */
  predicate Started(b: B.Slot, s: B.Slot, e: Entry, len: nat) {
    && s.configured == b.configured && s.op.SendsEntry() && s.posted == b.posted && s.active == b.active
    && s.request == ApiClient.EntryRequest(e) && s.requestLen == len && s.result == B.Pending
  }

  lemma Starts(d: Device, e: Entry, m: Moment)
    requires d.queue == [] && d.slot.configured && d.slot.op == B.NoOp && !d.slot.posted && m.len > 0
    ensures var (v, sent) := PushAndSend(d, e, m);
            sent && v == d.(queue := [e], slot := v.slot) && Started(d.slot, v.slot, e, m.len)
  {
    assert [] + [e] == [e];
  }

  /** Entering a screen that hands e over on a device that is ready. */
  lemma Submits(d: Device, next: Screen, e: Entry, m: Moment)
    requires next.Waits() && next != d.ui.screen && d.queue == [] && d.slot.configured && d.slot.op == B.NoOp
    requires !d.slot.posted && d.slot.active && m.len > 0
    requires Enter(d, next, m).queue == [e]
    ensures var v := Enter(d, next, m);
            v.ui.screen == next && !v.ui.simulated && Started(d.slot, v.slot, e, m.len)
  {
    var b := d.(ui := d.ui.(screen := next, deadline := 0, dwell := 0));
    Starts(b, PurchaseEntry(d.ui.ctx, m), m);
    Starts(b, VoidEntry(d.ui.ctx), m);
  }

  /** From the grid to the residents, and nothing else changes. */
  lemma ToResidents(d: Device, m: Moment)
    requires d.ui.screen == SelectingProduct && d.slot.active
    ensures Dispatch(d, ProductSelected, m) == d.(ui := d.ui.(screen := SelectingUser, deadline := 0, dwell := 0))
  {}

  datatype Order = Order(index: int, name: Name, barcode: Barcode, priceRappen: Int32, freeItem: bool, resident: int)

  /** What the tiles say about the order is in the context. */
  predicate Ordered(ctx: Context, o: Order) {
    && ctx.productIndex == o.index && ctx.productName == o.name && ctx.barcode == o.barcode
    && ctx.priceRappen == o.priceRappen && ctx.freeItem == o.freeItem && ctx.residentIndex == o.resident
  }

  /** The moves lead from t and w to u and v, whatever comes behind them. */
  ghost predicate Leads(t: Terminal, w: D.World, moves: seq<Move>, u: Terminal, v: D.World) {
    forall rest: seq<Move> :: Leading(t, w, moves, u, v, rest)
  }

  ghost predicate Leading(t: Terminal, w: D.World, moves: seq<Move>, u: Terminal, v: D.World, rest: seq<Move>) {
    && Played(t, w, moves + rest) == Played(u, v, rest)
    && R.Run(w, Steps(t, w, moves + rest)) == R.Run(v, Steps(u, v, rest))
    && (AllAllowed(t, w, moves + rest) <==> AllAllowed(u, v, rest))
  }

  lemma LeadsByOne(t: Terminal, w: D.World, a: Move)
    requires Allowed(w, a)
    ensures Leads(t, w, [a], Moved(t, w, a), R.Run(w, StepsFor(t, a)))
  {
    forall rest: seq<Move>
      ensures Leading(t, w, [a], Moved(t, w, a), R.Run(w, StepsFor(t, a)), rest)
    {
      FirstMove(t, w, a, rest);
    }
  }

  lemma LeadsOn(t: Terminal, w: D.World, p: seq<Move>, u: Terminal, v: D.World, r: seq<Move>, x: Terminal, y: D.World)
    requires Leads(t, w, p, u, v) && Leads(u, v, r, x, y)
    ensures Leads(t, w, p + r, x, y)
  {
    forall rest: seq<Move>
      ensures Leading(t, w, p + r, x, y, rest)
    {
      assert (p + r) + rest == p + (r + rest);
      assert Leading(t, w, p, u, v, r + rest) && Leading(u, v, r, x, y, rest);
    }
  }

  /** A tile of the grid. */
  function TapsProduct(o: Order, m: Moment): seq<Move> {
    [OnDevice(Choose(o.index, o.name, o.barcode, o.priceRappen, o.freeItem))] + [OnDevice(Happen(ProductSelected, m))]
  }

  /** And one of the residents. */
  function TapsResident(o: Order, m: Moment): seq<Move> {
    [OnDevice(PickResident(o.resident))] + [OnDevice(Happen(ResidentSelected, m))]
  }

  lemma ProductTapped(t: Terminal, w: D.World, o: Order, m: Moment) returns (u: Terminal, v: D.World)
    requires Alike(t, w) && Ready(t, SelectingProduct) && m.revision == w.revision
    ensures Alike(u, v) && Ready(u, SelectingUser) && v.sheet == w.sheet && v.revision == w.revision
    ensures u.d.ui.ctx == t.d.ui.ctx.(productIndex := o.index, productName := o.name, barcode := o.barcode,
                                      priceRappen := o.priceRappen, freeItem := o.freeItem)
    ensures Leads(t, w, TapsProduct(o, m), u, v)
  {
    var a, b := OnDevice(Choose(o.index, o.name, o.barcode, o.priceRappen, o.freeItem)), OnDevice(Happen(ProductSelected, m));
    var t1 := Moved(t, w, a);
    HappenKeeps(t1, w, ProductSelected, m);
    ToResidents(t1.d, m);
    u, v := Moved(t1, w, b), R.Run(w, StepsFor(t1, b));
    LeadsByOne(t, w, a);
    LeadsByOne(t1, w, b);
    LeadsOn(t, w, [a], t1, w, [b], u, v);
  }

  lemma ChoiceMoves(t: Terminal, w: D.World, m: Moment) returns (u: Terminal, v: D.World, e: Entry)
    requires Alike(t, w) && Ready(t, SelectingUser) && m.revision == w.revision && 0 < m.len < 640
    ensures var a := OnDevice(Happen(ResidentSelected, m));
            Allowed(w, a) && u == Moved(t, w, a) && v == R.Run(w, StepsFor(t, a))
    ensures Alike(u, v) && Sending(u, e) && u.d.ui.screen == Submitting && v.sheet == w.sheet && v.revision == w.revision
    ensures IsPurchaseOf(e, t.d.ui.ctx, m.minted, m.residents)
  {
    var a := OnDevice(Happen(ResidentSelected, m));
    HappenKeeps(t, w, ResidentSelected, m);
    ChoiceBuys(t.d, m);
    u, v := Moved(t, w, a), R.Run(w, StepsFor(t, a));
    e := u.d.queue[0];
    HandsOverChoice(t.d, m, e);
  }

  lemma ResidentTapped(t: Terminal, w: D.World, o: Order, m: Moment) returns (u: Terminal, v: D.World, e: Entry)
    requires Alike(t, w) && Ready(t, SelectingUser) && m.revision == w.revision && 0 < m.len < 640
    ensures Alike(u, v) && Sending(u, e) && u.d.ui.screen == Submitting && v.sheet == w.sheet && v.revision == w.revision
    ensures IsPurchaseOf(e, t.d.ui.ctx.(residentIndex := o.resident), m.minted, m.residents)
    ensures Leads(t, w, TapsResident(o, m), u, v)
  {
    var c, d := OnDevice(PickResident(o.resident)), OnDevice(Happen(ResidentSelected, m));
    var t1 := Moved(t, w, c);
    u, v, e := ChoiceMoves(t1, w, m);
    LeadsByOne(t, w, c);
    LeadsByOne(t1, w, d);
    LeadsOn(t, w, [c], t1, w, [d], u, v);
  }

  lemma HandsOverChoice(d: Device, m: Moment, e: Entry)
    requires d.ui.screen == SelectingUser && d.queue == [] && d.slot.configured && d.slot.op == B.NoOp && !d.slot.posted
    requires d.slot.active && m.len > 0 && Dispatch(d, ResidentSelected, m).queue == [e]
    ensures var v := Dispatch(d, ResidentSelected, m);
            v.ui.screen == Submitting && !v.ui.simulated && Started(d.slot, v.slot, e, m.len)
  {
    var x := WithContext(d, d.ui.ctx.(transactionId := m.minted)).(slot := B.Clear(d.slot));
    assert Dispatch(d, ResidentSelected, m) == Enter(x, Submitting, m);
    Submits(x, Submitting, e, m);
  }

  /** A beer tapped, a resident tapped, one answered round trip: the sheet has one more
      row, with that beer, that price and that resident, under the new id; the queue is
      empty and the screen confirms. */
  lemma PurchaseLeavesRow(t: Terminal, w: D.World, o: Order, out: B.Env, back: B.Env, m: Moment)
    returns (moves: seq<Move>, e: Entry, ctx: Context)
    requires Alike(t, w) && Ready(t, SelectingProduct) && out.online && out.stillOnline
    requires m.revision == w.revision && 0 < m.len < 640 && !Has(w.sheet.ledger, m.minted)
    ensures moves == TapsProduct(o, m) + TapsResident(o, m) + Trip(w, e, out, back, m) && AllAllowed(t, w, moves)
    ensures Ordered(ctx, o) && IsPurchaseOf(e, ctx, m.minted, m.residents)
    ensures R.Run(w, Steps(t, w, moves)).sheet == w.sheet.(ledger := w.sheet.ledger + [Row(e, false)])
    ensures Played(t, w, moves).d.queue == [] && Played(t, w, moves).d.ui.screen == Success
  {
    var t1, w1 := ProductTapped(t, w, o, m);
    var u, v;
    u, v, e := ResidentTapped(t1, w1, o, m);
    ctx := t1.d.ui.ctx.(residentIndex := o.resident);
    LeadsOn(t, w, TapsProduct(o, m), t1, w1, TapsResident(o, m), u, v);
    moves := TapsProduct(o, m) + TapsResident(o, m) + Trip(w, e, out, back, m);
    assert Leading(t, w, TapsProduct(o, m) + TapsResident(o, m), u, v, Trip(w, e, out, back, m));
    SameTrip(w, v, e, out, back, m);
    TripArrives(u, v, e, out, back, m);
    IsServed(w.sheet, e);
  }

  lemma SameTrip(w: D.World, v: D.World, e: Entry, out: B.Env, back: B.Env, m: Moment)
    requires v.sheet == w.sheet && v.revision == w.revision
    ensures Trip(w, e, out, back, m) == Trip(v, e, out, back, m)
  {}

  lemma IsServed(s: Sheet, e: Entry)
    requires e.kind == Purchase && !Has(s.ledger, e.transactionId)
    ensures Served(s, e, true) == s.(ledger := s.ledger + [Row(e, false)]) && Answer(s, e, true) == Accepted(false)
  {}

  // ---- Its undo ---------------------------------------------------------------

  /** Reversing an id marks its row and no other. */
  lemma {:induction false} ReversesOne(rows: Ledger, id: Text)
    requires UniqueIds(rows)
    ensures var after := VoidAll(rows, {id});
            |after| == |rows| && forall i :: 0 <= i < |rows| ==>
              after[i] == Row(rows[i].purchase, rows[i].voided || rows[i].purchase.transactionId == id)
    decreases |rows|
  {
    if |rows| > 0 {
      ReversesOne(rows[1..], id);
      if rows[0].Id() == id {
        assert {id} - {id} == {};
        ReversesNone(rows[1..], {});
        assert forall i :: 0 < i < |rows| ==> rows[i].Id() != id;
      } else {
        assert {id} - {rows[0].Id()} == {id};
      }
    }
  }

  lemma {:induction false} ReversesNone(rows: Ledger, none: set<Text>)
    requires none == {}
    ensures VoidAll(rows, none) == rows
    decreases |rows|
  {
    if |rows| > 0 {
      ReversesNone(rows[1..], none - {rows[0].Id()});
    }
  }

  lemma UndoMoves(t: Terminal, w: D.World, m: Moment) returns (u: Terminal, v: D.World, e: Entry)
    requires Alike(t, w) && Ready(t, Success) && !t.d.ui.ctx.undone && m.revision == w.revision && 0 < m.len < 640
    ensures var a := OnDevice(Happen(Undo, m));
            Allowed(w, a) && u == Moved(t, w, a) && v == R.Run(w, StepsFor(t, a))
    ensures Alike(u, v) && Sending(u, e) && u.d.ui.screen == Undoing && v.sheet == w.sheet && v.revision == w.revision
    ensures IsReversalOf(e, t.d.ui.ctx)
  {
    var a := OnDevice(Happen(Undo, m));
    HappenKeeps(t, w, Undo, m);
    UndoReverses(t.d, m);
    u, v := Moved(t, w, a), R.Run(w, StepsFor(t, a));
    e := u.d.queue[0];
    HandsOverUndo(t.d, m, e);
  }

  lemma HandsOverUndo(d: Device, m: Moment, e: Entry)
    requires d.ui.screen == Success && !d.ui.ctx.undone && d.queue == [] && d.slot.configured && d.slot.op == B.NoOp
    requires !d.slot.posted && d.slot.active && m.len > 0 && Dispatch(d, Undo, m).queue == [e]
    ensures var v := Dispatch(d, Undo, m);
            v.ui.screen == Undoing && !v.ui.simulated && Started(d.slot, v.slot, e, m.len)
  {
    var x := WithContext(d, d.ui.ctx.(undoInFlight := true));
    assert Dispatch(d, Undo, m) == Enter(x, Undoing, m) by {
      Plainly(d, Undo, m);
    }
    Submits(x, Undoing, e, m);
  }

  /** Undo on the confirmation and one answered round trip: the row of the purchase is
      reversed and every other one is as it was. */
  lemma UndoReversesRow(t: Terminal, w: D.World, out: B.Env, back: B.Env, m: Moment) returns (moves: seq<Move>, e: Entry)
    requires Alike(t, w) && Ready(t, Success) && !t.d.ui.ctx.undone && out.online && out.stillOnline
    requires m.revision == w.revision && 0 < m.len < 640
    requires UniqueIds(w.sheet.ledger) && Has(w.sheet.ledger, t.d.ui.ctx.transactionId)
    ensures moves == [OnDevice(Happen(Undo, m))] + Trip(w, e, out, back, m) && AllAllowed(t, w, moves)
    ensures IsReversalOf(e, t.d.ui.ctx)
    ensures var s := R.Run(w, Steps(t, w, moves)).sheet;
            && s.products == w.sheet.products && |s.ledger| == |w.sheet.ledger|
            && forall i :: 0 <= i < |s.ledger| ==>
                 s.ledger[i] == Row(w.sheet.ledger[i].purchase,
                                    w.sheet.ledger[i].voided
                                    || w.sheet.ledger[i].purchase.transactionId == t.d.ui.ctx.transactionId)
    ensures Played(t, w, moves).d.queue == [] && Played(t, w, moves).d.ui.screen == Success
  {
    var a := OnDevice(Happen(Undo, m));
    var u, v;
    u, v, e := UndoMoves(t, w, m);
    moves := [a] + Trip(w, e, out, back, m);
    FirstMove(t, w, a, Trip(w, e, out, back, m));
    SameTrip(w, v, e, out, back, m);
    TripArrives(u, v, e, out, back, m);
    ReversesOne(w.sheet.ledger, t.d.ui.ctx.transactionId);
  }

  // ---- A product change -------------------------------------------------------

  /** What a change makes of the product it names, by barcode or, without one, by name. */
  predicate ChangeMade(before: Products, after: Products, c: Change, kind: Kind) {
    var key := if |c.barcode| > 0 then ByBarcode(c.barcode) else ByName(c.name);
    var price := if c.freeItem then 0 else c.priceRappen;
    match kind
    case Create => after == before[key := Shelf(c.name, price, c.freeItem, true)]
    case Archive => key in before && after == before[key := before[key].(active := false)]
    case Restore => key in before && after == before[key := before[key].(active := true)]
    case ChangePrice => key in before && after == before[key := before[key].(priceRappen := price, freeItem := c.freeItem)]
    case _ => after == before
  }

  lemma ChangeServed(s: Sheet, e: Entry, c: Change, kind: Kind)
    requires kind.IsProductChange() && IsChangeOf(e, c, kind)
    ensures var t := Served(s, e, true);
            t.ledger == s.ledger && if Answer(s, e, true).Accepted? then ChangeMade(s.products, t.products, c, kind) else t == s
  {}

  lemma ChangeMoves(t: Terminal, w: D.World, screen: Screen, c: Change, kind: Kind, m: Moment)
    returns (u: Terminal, v: D.World, e: Entry)
    requires Alike(t, w) && Ready(t, screen) && m.revision == w.revision && 0 < m.len < 640
    ensures var a := OnDevice(QueueProduct(c, kind, m));
            Allowed(w, a) && u == Moved(t, w, a) && v == R.Run(w, StepsFor(t, a))
    ensures Alike(u, v) && Sending(u, e) && v.sheet == w.sheet && v.revision == w.revision && IsChangeOf(e, c, kind)
  {
    var a := OnDevice(QueueProduct(c, kind, m));
    ActFollows(t, w, a.a);
    ChangeFollows(t.d, w, c, kind, m);
    ChangeTells(t.d, c, kind, m);
    Starts(t.d, ChangeEntry(c, kind), m);
    u, v := Moved(t, w, a), R.Run(w, StepsFor(t, a));
    e := u.d.queue[0];
  }

  /** A product changed on the device and one answered round trip: the sheet has exactly
      that change, or, if the server refuses it, none. */
  lemma ChangeReachesSheet(t: Terminal, w: D.World, screen: Screen, c: Change, kind: Kind, out: B.Env, back: B.Env, m: Moment)
    returns (moves: seq<Move>, e: Entry)
    requires Alike(t, w) && Ready(t, screen) && out.online && out.stillOnline && kind.IsProductChange()
    requires m.revision == w.revision && 0 < m.len < 640
    ensures moves == [OnDevice(QueueProduct(c, kind, m))] + Trip(w, e, out, back, m) && AllAllowed(t, w, moves)
    ensures IsChangeOf(e, c, kind)
    ensures var s := R.Run(w, Steps(t, w, moves)).sheet;
            && s.ledger == w.sheet.ledger
            && if Answer(w.sheet, e, true).Accepted? then ChangeMade(w.sheet.products, s.products, c, kind) else s == w.sheet
    ensures Played(t, w, moves).d.queue == []
  {
    var a := OnDevice(QueueProduct(c, kind, m));
    var u, v;
    u, v, e := ChangeMoves(t, w, screen, c, kind, m);
    moves := [a] + Trip(w, e, out, back, m);
    FirstMove(t, w, a, Trip(w, e, out, back, m));
    SameTrip(w, v, e, out, back, m);
    TripArrives(u, v, e, out, back, m);
    ChangeServed(w.sheet, e, c, kind);
  }
}
