/** The runs that the safety conditions shut out, and some that they do not: what really
    goes wrong when the purchase in flight is undone, when the power fails while the
    queue file is missing, and when an undo leaves a trace of the purchase behind. */
module Hazards {
  import opened Records
  import opened Wrappers
  import opened ApiClient
  import opened Backend
  import opened Server
  import opened Replay
  import opened Delivery
  import opened Runs
  import opened Drain
  import opened Charged

  /** A device in use for the first time, with two purchases about to be made. */
  predicate Fresh(w: World, a: Entry, b: Entry) {
    && Rested(w) && w.slot.retryAfter == 0
    && w.queue == [] && w.disk == [] && !w.window && w.history == History([], {}, {}, {}, {}, {})
    && w.sheet.ledger == [] && w.outbox == {}
    && a.kind == Purchase && b.kind == Purchase && a.transactionId != b.transactionId
  }

  /** A purchase is pushed, stored and under way. */
  function Sent(w: World, a: Entry): World {
    var it, h := Item(0, a), w.history;
    var client := w.client.(request := EntryRequest(a), error := NoError, status := Busy);
    w.(queue := [it], disk := [it], sent := Some(it), reply := None, outbox := w.outbox + {a}, client := client,
       slot := Sending(w.slot, a, UP).(posted := true),
       history := h.(origin := [a], pushed := {0}, durable := {0}))
  }

  function SendIt(a: Entry): seq<Action> {
    [Enqueue(a, Written, 100, 0), LoopTick(UP)]
  }

  lemma IsSent(w: World, a: Entry, b: Entry)
    requires Fresh(w, a, b)
    ensures Legal(w, SendIt(a)) && Run(w, SendIt(a)) == Sent(w, a)
  {
    var it := Item(0, a);
    var stored := Flushed(Pushed(w, a), Written);
    assert w.queue + [it] == [it];
    assert Tickets([it]) == {0} by {
      assert [it][0].ticket in Tickets([it]);
    }
    HeadIs([it]);
    var started := SendNow(stored, 100, 0);
    assert started == stored.(slot := Sending(w.slot, a, UP), sent := Some(it));
    Posts(started, UP);
    assert SendIt(a) == [Enqueue(a, Written, 100, 0)] + [LoopTick(UP)];
    RunAppend(w, [Enqueue(a, Written, 100, 0)], [LoopTick(UP)]);
    RunOne(w, Enqueue(a, Written, 100, 0));
    RunOne(started, LoopTick(UP));
  }

  // ---- A lost reply, then an undo ---------------------------------------------

  function LoseReply(a: Entry): seq<Action> {
    [Serve(true), Break(Transport), LoopTick(UP), Undo(a.transactionId, Written)]
  }

  /** The purchase took effect, and its reply is lost. */
  function Lost(w: World, a: Entry): World {
    var t := Sent(w, a);
    t.(sheet := t.sheet.(ledger := [Row(a, false)]), reply := Some(AckOk(false)),
       client := t.client.(status := Failed, error := Transport))
  }

  lemma IsLost(w: World, a: Entry, b: Entry)
    requires Fresh(w, a, b)
    ensures var t := Sent(w, a);
            && Enabled(t, Serve(true)) && Enabled(Step(t, Serve(true)), Break(Transport))
            && Step(Step(t, Serve(true)), Break(Transport)) == Lost(w, a)
  {
    assert w.sheet.ledger + [Row(a, false)] == [Row(a, false)];
    assert !Has(w.sheet.ledger, a.transactionId);
    assert Answer(w.sheet, a, true) == Accepted(false);
    assert Served(w.sheet, a, true) == w.sheet.(ledger := [Row(a, false)]);
  }

  lemma Three(w: World, a: Action, b: Action, c: Action)
    ensures Run(w, [a, b, c]) == Step(Step(Step(w, a), b), c)
    ensures Legal(w, [a, b, c]) <==>
              && Enabled(w, a) && Safe(w, a) && Enabled(Step(w, a), b) && Safe(Step(w, a), b)
              && Enabled(Step(Step(w, a), b), c) && Safe(Step(Step(w, a), b), c)
  {
    assert [a, b, c] == [a] + ([b] + [c]);
    RunAppend(w, [a], [b] + [c]);
    RunOne(w, a);
    RunAppend(Step(w, a), [b], [c]);
    RunOne(Step(w, a), b);
    RunOne(Step(Step(w, a), b), c);
  }

  /** The attempt is given up: the row is there, and the purchase is still queued. */
  lemma GivesUp(w: World, a: Entry, b: Entry)
    requires Fresh(w, a, b)
    ensures var cut := [Serve(true), Break(Transport), LoopTick(UP)];
            var v := Run(Sent(w, a), cut);
            && Legal(Sent(w, a), cut)
            && v.queue == [Item(0, a)] && v.slot.op == NoOp && v.history == Sent(w, a).history
            && v.sheet.ledger == [Row(a, false)]
  {
    Three(Sent(w, a), Serve(true), Break(Transport), LoopTick(UP));
    IsLost(w, a, b);
    Unanswered(Lost(w, a));
  }

  lemma Unanswered(w: World)
    requires w.slot.configured && w.slot.op.SendsEntry() && w.slot.posted && w.client.status == Failed
    ensures var v := Ticked(w, UP);
            && v == w.(slot := v.slot, client := v.client) && v.slot.op == NoOp
  {
    EndsAs(w, Turn(w, UP));
  }

  /** The undo takes the purchase out of the queue as if it had never been sent; but the
      server has it, its row stands, and nothing is queued to reverse it. Every step of
      this run is allowed. */
  lemma UndoAfterLostReply(w: World, a: Entry, b: Entry)
    requires Fresh(w, a, b)
    ensures var actions := SendIt(a) + LoseReply(a);
            var v := Run(w, actions);
            && Legal(w, actions)
            && v.queue == [] && v.history.undone == {0} && v.history.acked == {}
            && v.sheet.ledger == [Row(a, false)]
  {
    var t := Sent(w, a);
    IsSent(w, a, b);
    GivesUp(w, a, b);
    RunAppend(w, SendIt(a), LoseReply(a));
    var cut, undo := [Serve(true), Break(Transport), LoopTick(UP)], Undo(a.transactionId, Written);
    assert LoseReply(a) == cut + [undo];
    RunAppend(t, cut, [undo]);
    var v := Run(t, cut);
    RunOne(v, undo);
    UndoesTheOne(v, a);
  }

  lemma UndoesTheOne(v: World, a: Entry)
    requires v.queue == [Item(0, a)] && a.kind == Purchase
    ensures var u := Step(v, Undo(a.transactionId, Written));
            && Holds(v.queue, a.transactionId)
            && u.queue == [] && u.history.undone == v.history.undone + {0}
            && u.history.acked == v.history.acked && u.sheet == v.sheet && u.slot == v.slot
  {
    assert PurchaseItem(a.transactionId)(v.queue[0]);
    var i := RemovedIs(v, a.transactionId);
    assert v.queue[..0] + v.queue[1..] == [];
  }

  // ---- The file that is not there ---------------------------------------------

  /** A flush is cut between the removal and the rename, and the power fails: a purchase
      that was safely stored is neither queued nor answered nor undone. Every step is
      possible, and only the reboot is unsafe. */
  lemma RebootInWindow(w: World, a: Entry, b: Entry)
    requires Fresh(w, a, b)
    ensures var cut := SendIt(a) + [Flush(Gone)];
            var t := Run(w, cut);
            var v := Step(t, Reboot);
            && Legal(w, cut) && Enabled(t, Reboot) && !Safe(t, Reboot)
            && 0 in v.history.durable && v.queue == [] && !Settled(v, 0)
  {
    var t := Sent(w, a);
    IsSent(w, a, b);
    RunAppend(w, SendIt(a), [Flush(Gone)]);
    RunOne(t, Flush(Gone));
  }

  // ---- Undoing the purchase in flight -----------------------------------------

  const ANSWER: seq<Action> := [Serve(true), Reply(Body(AckOk(false), None, false)), LoopTick(UP)]

  /** The next purchase, while the answer to the first is still out. */
  function NextPurchase(b: Entry): seq<Action> {
    [Enqueue(b, Written, 100, 0)] + (ANSWER + [Flush(Written)])
  }

  /** The first purchase is undone while it is being sent. */
  function TakenBack(w: World, a: Entry): World {
    Sent(w, a).(queue := [], disk := [], history := History([a], {0}, {0}, {}, {}, {0}))
  }

  /** And the second one has been stored. */
  function Overtaken(w: World, a: Entry, b: Entry): World {
    TakenBack(w, a).(queue := [Item(1, b)], disk := [Item(1, b)], history := History([a, b], {0, 1}, {0, 1}, {}, {}, {0}))
  }

  lemma IsTakenBack(w: World, a: Entry, b: Entry)
    requires Fresh(w, a, b)
    ensures var t, undo := Sent(w, a), Undo(a.transactionId, Written);
            && Enabled(t, undo) && !Safe(t, undo) && Step(t, undo) == TakenBack(w, a)
  {
    var t := Sent(w, a);
    assert PurchaseItem(a.transactionId)(t.queue[0]);
    var i := RemovedIs(t, a.transactionId);
    assert t.queue[..0] + t.queue[1..] == [];
    assert Tickets([]) == {};
  }

  lemma IsOvertaken(w: World, a: Entry, b: Entry)
    requires Fresh(w, a, b)
    ensures Step(TakenBack(w, a), Enqueue(b, Written, 100, 0)) == Overtaken(w, a, b)
  {
    var t, it := TakenBack(w, a), Item(1, b);
    assert [] + [it] == [it] && [a] + [b] == [a, b];
    assert Tickets([it]) == {1} by {
      assert [it][0].ticket in Tickets([it]);
    }
    assert Flushed(Pushed(t, b), Written) == Overtaken(w, a, b);
  }

  /** The server answers the request for the purchase that was taken back. */
  function Answered(o: World, a: Entry): World {
    var s := o.(sheet := o.sheet.(ledger := [Row(a, false)]), reply := Some(AckOk(false)));
    s.(client := s.client.(status := Done, body := Body(AckOk(false), None, false)))
  }

  lemma IsAnswered(o: World, a: Entry) returns (s: World)
    requires o.sheet.ledger == [] && a.kind == Purchase
    requires o.client.status == Busy && o.client.request == EntryRequest(a)
    ensures Enabled(o, Serve(true)) && s == Step(o, Serve(true))
    ensures Enabled(s, Reply(Body(AckOk(false), None, false))) && Answered(o, a) == Step(s, Reply(Body(AckOk(false), None, false)))
  {
    s := o.(sheet := o.sheet.(ledger := [Row(a, false)]), reply := Some(AckOk(false)));
    assert [] + [Row(a, false)] == [Row(a, false)];
    assert !Has(o.sheet.ledger, a.transactionId);
    assert Served(o.sheet, a, true) == s.sheet && Answer(o.sheet, a, true) == Accepted(false);
  }

  lemma PopsNext(w: World, a: Entry, b: Entry)
    requires Fresh(w, a, b)
    ensures var o := Overtaken(w, a, b);
            var v := Ticked(Answered(o, a), UP);
            && v.queue == [] && v.outbox == o.outbox
            && v.history == o.history.(acked := {0}) && v.sheet.ledger == [Row(a, false)]
  {
    var o := Overtaken(w, a, b);
    Notices(Answered(o, a), UP);
    var none: set<nat> := {};
    assert none + {0} == {0};
  }

  lemma AnswerPops(w: World, a: Entry, b: Entry)
    requires Fresh(w, a, b)
    ensures var o := Overtaken(w, a, b);
            var v := Run(o, ANSWER);
            && Legal(o, ANSWER) && v.queue == [] && v.outbox == o.outbox
            && v.history == o.history.(acked := {0}) && v.sheet.ledger == [Row(a, false)]
  {
    var o := Overtaken(w, a, b);
    var s := IsAnswered(o, a);
    ThreeTo(o, Serve(true), s, Reply(Body(AckOk(false), None, false)), Answered(o, a), LoopTick(UP));
    PopsNext(w, a, b);
  }

  lemma ThreeTo(w: World, a: Action, u: World, b: Action, v: World, c: Action)
    requires Enabled(w, a) && Safe(w, a) && Step(w, a) == u && Enabled(u, b) && Safe(u, b) && Step(u, b) == v
    requires Enabled(v, c) && Safe(v, c)
    ensures Legal(w, [a, b, c]) && Run(w, [a, b, c]) == Step(v, c)
  {
    assert [a, b, c] == [a] + ([b] + [c]);
    RunFirst(w, a, [b] + [c]);
    RunFirst(u, b, [c]);
    RunOne(v, c);
  }

  lemma LosesNext(w: World, a: Entry, b: Entry)
    requires Fresh(w, a, b)
    ensures var t := TakenBack(w, a);
            var v := Run(t, NextPurchase(b));
            && Legal(t, NextPurchase(b))
            && 1 in v.history.durable && v.queue == [] && v.disk == [] && !Settled(v, 1)
            && b !in v.outbox && v.sheet.ledger == [Row(a, false)] && 0 in v.history.undone
  {
    var t, o, push := TakenBack(w, a), Overtaken(w, a, b), Enqueue(b, Written, 100, 0);
    IsOvertaken(w, a, b);
    AnswerPops(w, a, b);
    RunOne(t, push);
    RunAppend(t, [push], ANSWER + [Flush(Written)]);
    RunAppend(o, ANSWER, [Flush(Written)]);
    RunOne(Run(o, ANSWER), Flush(Written));
  }

  /** One purchase is undone while its request is out, and another one is made. The answer
      to the first pops the second: it was safely stored, and is now neither queued nor
      stored nor sent nor answered nor undone, while the purchase that was undone stands in
      the sheet. Every step is possible, and only the undo is unsafe. */
  lemma UndoInFlightLoses(w: World, a: Entry, b: Entry)
    requires Fresh(w, a, b)
    ensures var t, undo := Run(w, SendIt(a)), Undo(a.transactionId, Written);
            var v := Run(Step(t, undo), NextPurchase(b));
            && Legal(w, SendIt(a)) && Enabled(t, undo) && !Safe(t, undo) && Legal(Step(t, undo), NextPurchase(b))
            && 1 in v.history.durable && v.queue == [] && v.disk == [] && !Settled(v, 1)
            && b !in v.outbox && v.sheet.ledger == [Row(a, false)] && 0 in v.history.undone
  {
    IsSent(w, a, b);
    IsTakenBack(w, a, b);
    LosesNext(w, a, b);
  }

  // ---- Undos that are not final -----------------------------------------------

  /** A device just switched on, and a purchase. */
  ghost predicate New(w: World, a: Entry) {
    Init(w) && Rested(w) && w.sheet.ledger == [] && a.kind == Purchase
  }

  /** A sync has the slot, so that what is pushed stays queued. */
  function Syncing(w: World): World {
    w.(slot := RequestSync(w.slot, w.revision, 100, 0).0)
  }

  function Stored(w: World, q: seq<Item>, es: seq<Entry>, ts: set<nat>): World {
    Syncing(w).(queue := q, disk := q, history := History(es, ts, ts, {}, {}, {}))
  }

  lemma IsSyncing(w: World, a: Entry)
    requires New(w, a)
    ensures Step(w, CallSync(100, 0)) == Syncing(w) && Syncing(w).slot.op == SyncOp
  {}

  lemma IsStored(w: World, a: Entry)
    requires New(w, a)
    ensures Step(Syncing(w), Enqueue(a, Written, 100, 0)) == Stored(w, [Item(0, a)], [a], {0})
  {
    var v, it := Syncing(w), Item(0, a);
    IsSyncing(w, a);
    assert [] + [it] == [it] && [] + [a] == [a];
    assert Tickets([it]) == {0} by {
      assert [it][0].ticket in Tickets([it]);
    }
    assert Flushed(Pushed(v, a), Written) == Stored(w, [it], [a], {0});
  }

  lemma IsStoredTwice(w: World, a: Entry)
    requires New(w, a)
    ensures Step(Stored(w, [Item(0, a)], [a], {0}), Enqueue(a, Written, 100, 0))
            == Stored(w, [Item(0, a), Item(1, a)], [a, a], {0, 1})
  {
    var v, q := Stored(w, [Item(0, a)], [a], {0}), [Item(0, a), Item(1, a)];
    IsSyncing(w, a);
    assert [Item(0, a)] + [Item(1, a)] == q && [a] + [a] == [a, a];
    assert Tickets(q) == {0, 1} by {
      assert q[0].ticket in Tickets(q) && q[1].ticket in Tickets(q);
    }
    assert Flushed(Pushed(v, a), Written) == Stored(w, q, [a, a], {0, 1});
  }

  /** Pushed twice, as a retry does that follows another entry's refusal, and undone once:
      nothing was ever sent, and the copy can still be charged. */
  function TwiceThenUndone(a: Entry): seq<Action> {
    [CallSync(100, 0), Enqueue(a, Written, 100, 0), Enqueue(a, Written, 100, 0)] + [Undo(a.transactionId, Written)]
  }

  lemma UndoLeavesCopy(w: World, a: Entry)
    requires New(w, a)
    ensures var v := Run(w, TwiceThenUndone(a));
            && Legal(w, TwiceThenUndone(a)) && 0 in v.history.undone
            && !WasSent(v.outbox, a.transactionId) && CanBeCharged(v, a.transactionId)
  {
    var three := [CallSync(100, 0), Enqueue(a, Written, 100, 0), Enqueue(a, Written, 100, 0)];
    var u := Stored(w, [Item(0, a), Item(1, a)], [a, a], {0, 1});
    Three(w, three[0], three[1], three[2]);
    IsSyncing(w, a);
    IsStored(w, a);
    IsStoredTwice(w, a);
    RunAppend(w, three, [Undo(a.transactionId, Written)]);
    RunOne(u, Undo(a.transactionId, Written));
    FirstOfTwo(u, a);
    IsBack(w, TwiceThenUndone(a), a.transactionId);
  }

  lemma FirstOfTwo(u: World, a: Entry)
    requires u.queue == [Item(0, a), Item(1, a)] && a.kind == Purchase && u.slot.op == SyncOp
    ensures var undo := Undo(a.transactionId, Written);
            var v := Step(u, undo);
            && Enabled(u, undo) && Safe(u, undo)
            && v.queue == [Item(1, a)] && v.outbox == u.outbox && v.sheet == u.sheet && v.history.undone == u.history.undone + {0}
            && Holds(v.queue, a.transactionId)
  {
    assert PurchaseItem(a.transactionId)(u.queue[0]);
    var i := RemovedIs(u, a.transactionId);
    assert u.queue[..0] + u.queue[1..] == [Item(1, a)];
    assert PurchaseItem(a.transactionId)([Item(1, a)][0]);
  }

  lemma IsBack(w: World, actions: seq<Action>, id: Text)
    requires Init(w) && Rested(w) && Legal(w, actions)
    requires MayStand(Run(w, actions), id) && Run(w, actions).sheet.ledger == []
    ensures CanBeCharged(Run(w, actions), id)
  {
    RunKeepsDevice(w, actions);
    ChargedIff(w, actions, id);
  }

  /** Stored, undone with a flush that fails: nothing was ever sent, memory is empty, and
      the copy on flash can still be charged. */
  lemma UndoLeavesFlash(w: World, a: Entry)
    requires New(w, a)
    ensures var actions := [CallSync(100, 0), Enqueue(a, Written, 100, 0), Undo(a.transactionId, Kept)];
            var v := Run(w, actions);
            && Legal(w, actions) && v.history.undone == {0} && v.queue == []
            && !WasSent(v.outbox, a.transactionId) && CanBeCharged(v, a.transactionId)
  {
    var actions := [CallSync(100, 0), Enqueue(a, Written, 100, 0), Undo(a.transactionId, Kept)];
    var u := Stored(w, [Item(0, a)], [a], {0});
    Three(w, actions[0], actions[1], actions[2]);
    IsSyncing(w, a);
    IsStored(w, a);
    OnlyOne(u, a);
    IsBack(w, actions, a.transactionId);
  }

  lemma OnlyOne(u: World, a: Entry)
    requires u.queue == [Item(0, a)] && u.disk == [Item(0, a)] && a.kind == Purchase && u.slot.op == SyncOp
    ensures var undo := Undo(a.transactionId, Kept);
            var v := Step(u, undo);
            && Enabled(u, undo) && Safe(u, undo)
            && v.queue == [] && v.outbox == u.outbox && v.sheet == u.sheet && v.history.undone == u.history.undone + {0}
            && Holds(v.disk, a.transactionId)
  {
    assert PurchaseItem(a.transactionId)(u.queue[0]);
    var i := RemovedIs(u, a.transactionId);
    assert u.queue[..0] + u.queue[1..] == [];
    assert PurchaseItem(a.transactionId)(u.disk[0]);
  }
  // ---- The ordinary undo ------------------------------------------------------

  ghost function MadeAndSent(w: World, e: Entry): seq<Action> {
    [Enqueue(e, Written, 0, 0)] + Trips(Step(w, Enqueue(e, Written, 0, 0)), [UP], All)
  }

  lemma IsHeld(w: World, e: Entry)
    requires Rested(w) && w.queue == []
    ensures var v := Step(w, Enqueue(e, Written, 0, 0));
            && Rested(v) && v.slot.retryAfter == w.slot.retryAfter && v.sheet == w.sheet
            && |v.queue| == 1 && v.queue[0].entry == e
  {
    var f := Flushed(Pushed(w, e), Written);
    assert f.slot == w.slot && f.client == w.client && f.sheet == w.sheet && f.queue == [Item(|w.history.origin|, e)];
    assert SendNow(f, 0, 0) == f;
  }

  lemma SendsTheOne(u: World, e: Entry) returns (v: World)
    requires Rested(u) && u.slot.retryAfter == 0 && |u.queue| == 1 && u.queue[0].entry == e
    ensures Legal(u, Trips(u, [UP], All)) && v == Run(u, Trips(u, [UP], All))
    ensures Rested(v) && v.queue == [] && v.slot.retryAfter == 0 && v.sheet == Served(u.sheet, e, true)
  {
    TripsDone(u, [UP], All);
    v := Run(u, Trips(u, [UP], All));
    assert Entries(u.queue)[..1] == [e];
    OneServed(u.sheet, e);
  }

  lemma OneServed(s: Sheet, e: Entry)
    ensures Pass(s, [e], All) == Served(s, e, true)
  {
    assert [e][1..] == [];
  }

  lemma MakesAndSends(w: World, e: Entry) returns (v: World)
    requires Rested(w) && w.queue == [] && w.slot.retryAfter == 0
    ensures Legal(w, MadeAndSent(w, e)) && v == Run(w, MadeAndSent(w, e))
    ensures Rested(v) && v.queue == [] && v.slot.retryAfter == 0 && v.sheet == Served(w.sheet, e, true)
  {
    var push := Enqueue(e, Written, 0, 0);
    var u := Step(w, push);
    IsHeld(w, e);
    v := SendsTheOne(u, e);
    RunFirst(w, push, Trips(u, [UP], All));
  }

  /** A purchase is sent, undone, and its reversal sent. It was sent, so a request for it
      may still be under way; and yet it is never charged again, whatever happens. */
  lemma UndoIsFinal(w: World, a: Entry)
    requires New(w, a)
    ensures var bought := Run(w, MadeAndSent(w, a));
            var actions := MadeAndSent(w, a) + MadeAndSent(bought, a.(kind := Void));
            var v := Run(w, actions);
            && Legal(w, actions) && bought.sheet.ledger == [Row(a, false)] && v.sheet.ledger == [Row(a, true)]
            && MayStand(v, a.transactionId) && forall more :: !Live(Run(v, more).sheet.ledger, a.transactionId)
  {
    var undo := a.(kind := Void);
    var bought := MakesAndSends(w, a);
    var v := MakesAndSends(bought, undo);
    RunAppend(w, MadeAndSent(w, a), MadeAndSent(bought, undo));
    RowsOf(w.sheet, a);
    UnsentUncharged(w, MadeAndSent(w, a) + MadeAndSent(bought, undo), a.transactionId);
    forall more
      ensures !Live(Run(v, more).sheet.ledger, a.transactionId)
    {
      RunKeepsRows(v, more);
      StaysReversed(v.sheet.ledger, Run(v, more).sheet.ledger, a.transactionId);
    }
  }

  lemma RowsOf(s: Sheet, a: Entry)
    requires s.ledger == [] && a.kind == Purchase
    ensures var t := Served(s, a, true);
            var u := Served(t, a.(kind := Void), true);
            t.ledger == [Row(a, false)] && u.ledger == [Row(a, true)] && Has(u.ledger, a.transactionId)
  {
    assert !Has(s.ledger, a.transactionId);
    assert s.ledger + [Row(a, false)] == [Row(a, false)];
    var rows := [Row(a, false)];
    assert VoidAll(rows[1..], {}) == [];
    assert VoidAll(rows, {a.transactionId}) == [Row(a, true)];
    assert [Row(a, true)][0].Id() == a.transactionId;
  }
}
