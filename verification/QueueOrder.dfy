/** What the screens put into the queue: after every run a reversal never stands ahead of
    a purchase with its id, so a replay of the queue changes nothing. */
module QueueOrder {
  import opened Bits
  import opened Records
  import opened Clock
  import opened TransactionQueue
  import opened AppState
  import opened MainLoop
  import B = Backend
  import Replay
  import Resend
  import Server

  /** No purchase stands behind a reversal with its id. */
  ghost predicate Ordered(q: seq<Entry>) {
    forall i, j :: 0 <= i < j < |q| && q[i].kind == Void && q[j].kind == Purchase ==>
      q[i].transactionId != q[j].transactionId
  }

  /** A queued reversal of the purchase in hand shows in the context. */
  predicate Admitted(q: seq<Entry>, ctx: Context) {
    ctx.transactionId != [] && Reverses(q, ctx.transactionId) ==> ctx.undoInFlight || ctx.undone
  }

  ghost predicate Orderly(d: Device) {
    Ordered(d.queue) && Admitted(d.queue, d.ui.ctx)
  }

  // ---- The queue operations ---------------------------------------------------

  lemma ReversesAppend(q: seq<Entry>, e: Entry, id: Text)
    ensures Reverses(q + [e], id) <==> Reverses(q, id) || (e.kind == Void && e.transactionId == id)
  {
    var r := q + [e];
    if Reverses(q, id) {
      var i :| 0 <= i < |q| && q[i].kind == Void && q[i].transactionId == id;
      assert r[i] == q[i];
    }
    if e.kind == Void && e.transactionId == id {
      assert r[|q|] == e;
    }
  }

  lemma OrderedAppend(q: seq<Entry>, e: Entry)
    requires Ordered(q) && (e.kind == Purchase ==> !Reverses(q, e.transactionId))
    ensures Ordered(q + [e])
  {}

  lemma OrderedPop(q: seq<Entry>)
    requires Ordered(q)
    ensures Ordered(B.Popped(q)) && forall id :: Reverses(B.Popped(q), id) ==> Reverses(q, id)
  {
    if q != [] {
      assert forall i :: 0 <= i < |q| - 1 ==> q[1..][i] == q[i + 1];
    }
  }

  lemma {:induction false} OrderedRemove(q: seq<Entry>, p: Entry -> bool)
    requires Ordered(q)
    ensures Ordered(RemoveFirst(q, p)) && forall e :: e in RemoveFirst(q, p) ==> e in q
    decreases |q|
  {
    if |q| > 0 && !p(q[0]) {
      var rest := q[1..];
      assert forall i :: 0 <= i < |rest| ==> rest[i] == q[i + 1];
      OrderedRemove(rest, p);
      var r := RemoveFirst(q, p);
      forall j | 0 < j < |r| && r[0].kind == Void && r[j].kind == Purchase
        ensures r[0].transactionId != r[j].transactionId
      {
        assert r[j] in rest;
        var k :| 0 <= k < |rest| && rest[k] == r[j];
        assert q[k + 1] == r[j];
      }
      assert forall i :: 0 < i < |r| ==> r[i] == RemoveFirst(rest, p)[i - 1];
    }
  }

  // ---- The screens ------------------------------------------------------------

  /** A purchase is handed over only while nothing queued reverses it, an undo only with
      the undo noted. */
  predicate MayEnter(d: Device, next: Screen) {
    && (next == Submitting ==> !Reverses(d.queue, d.ui.ctx.transactionId))
    && (next == Undoing ==> d.ui.ctx.undoInFlight)
  }

  lemma EnterOrderly(d: Device, next: Screen, m: Moment)
    requires Orderly(d) && (next != d.ui.screen ==> MayEnter(d, next))
    ensures Orderly(Enter(d, next, m))
  {
    var v, ctx := Enter(d, next, m), d.ui.ctx;
    if next != d.ui.screen {
      EnterUi(d, next, m);
      if next == Submitting {
        EnterQueue(d, next, m);
        OrderedAppend(d.queue, PurchaseEntry(ctx, m));
        ReversesAppend(d.queue, PurchaseEntry(ctx, m), ctx.transactionId);
      } else if next == Undoing {
        EnterQueue(d, next, m);
        OrderedAppend(d.queue, VoidEntry(ctx));
        OrderedRemove(d.queue, PurchaseOf(ctx.transactionId));
      }
    }
  }

  /** What a plan may do with the purchase in hand, and when it hands it over. */
  predicate PlanAllowed(ui: Ui, p: Plan, minted: Id) {
    && (p.ctx.transactionId == [] || p.ctx.transactionId == minted
        || (p.ctx.transactionId == ui.ctx.transactionId && p.ctx.undone == ui.ctx.undone
            && (ui.ctx.undoInFlight ==> p.ctx.undoInFlight)))
    && (p.next == Submitting && ui.screen != Submitting ==>
          p.ctx.transactionId == minted
          || (p.ctx == ui.ctx && !ui.ctx.undoInFlight && !ui.ctx.undone && ui.ctx.transactionId != []))
    && (p.next == Undoing && ui.screen != Undoing ==> p.ctx.undoInFlight)
  }

  lemma BrowsingAllowed(ui: Ui, e: Event, m: Moment)
    requires Sound(ui) && !ui.screen.Waits() && !ui.screen.Confirms() && ui.screen != Error
    ensures PlanAllowed(ui, PlannedBrowsing(ui, e, m), m.minted)
  {}

  lemma ChoiceAllowed(ui: Ui, e: Event, m: Moment)
    requires ui.screen == SelectingUser
    ensures PlanAllowed(ui, PlannedChoice(ui, e, m), m.minted)
  {}

  lemma AfterAllowed(ui: Ui, e: Event, minted: Id)
    requires Sound(ui) && (ui.screen.Confirms() || ui.screen == Error)
    ensures PlanAllowed(ui, PlannedAfter(ui, e), minted)
  {}

  lemma WaitingAllowed(ui: Ui, e: Event, minted: Id)
    requires ui.screen.Waits()
    ensures PlanAllowed(ui, PlannedWaiting(ui, e), minted)
  {}

  lemma EveryPlanAllowed(ui: Ui, e: Event, m: Moment)
    requires Sound(ui)
    ensures PlanAllowed(ui, Planned(ui, e, m), m.minted)
  {
    if ui.screen.Waits() {
      WaitingAllowed(ui, e, m.minted);
    } else if ui.screen.Confirms() || ui.screen == Error {
      AfterAllowed(ui, e, m.minted);
    } else if ui.screen == SelectingUser {
      ChoiceAllowed(ui, e, m);
    } else {
      BrowsingAllowed(ui, e, m);
    }
  }

  lemma ChangeOrderly(d: Device, c: Change, kind: Kind, m: Moment)
    requires Orderly(d) && kind.IsProductChange()
    ensures Orderly(QueueChange(d, c, kind, m))
    ensures forall id :: Reverses(QueueChange(d, c, kind, m).queue, id) <==> Reverses(d.queue, id)
    ensures QueueChange(d, c, kind, m).ui == d.ui
  {
    var e := ChangeEntry(c, kind);
    OrderedAppend(d.queue, e);
    forall id
      ensures Reverses(d.queue + [e], id) <==> Reverses(d.queue, id)
    {
      ReversesAppend(d.queue, e, id);
    }
  }

  lemma PreparedOrderly(d: Device, e: Event, m: Moment)
    requires Orderly(d)
    ensures Ordered(Prepared(d, e, m).queue) && Prepared(d, e, m).ui == d.ui
    ensures forall id :: Reverses(Prepared(d, e, m).queue, id) <==> Reverses(d.queue, id)
  {
    if m.product.Some? {
      ChangeOrderly(d, m.product.value, Archive, m);
    }
  }

  lemma DispatchOrderly(d: Device, e: Event, m: Moment)
    requires Sound(d.ui) && Orderly(d) && Proper(d.queue, m)
    ensures Orderly(Dispatch(d, e, m))
  {
    var p, b := Planned(d.ui, e, m), Prepared(d, e, m);
    EveryPlanAllowed(d.ui, e, m);
    PreparedOrderly(d, e, m);
    var x := WithContext(b, p.ctx);
    assert Orderly(x);
    EnterOrderly(x, p.next, m);
    var there := Enter(x, p.next, m);
    EnterOrderly(there, SelectingProduct, m);
  }

  /** A result or a deadline leads to a screen that hands nothing over. */
  lemma UpdateOrderly(d: Device, now: Time, m: Moment)
    requires Sound(d.ui) && Orderly(d) && Proper(d.queue, m)
    ensures Orderly(Update(d, now, m))
  {
    if d.ui.screen.Waits() {
      ResolveOrderly(d, m);
      ExpireOrderly(d, m);
    } else {
      DispatchOrderly(d.(ui := d.ui.(deadline := 0)), Dwell, m);
    }
  }

  lemma ResolveOrderly(d: Device, m: Moment)
    requires Orderly(d) && d.ui.screen.Waits()
    ensures Orderly(Resolve(d, m))
  {
    var noted := d.ui.ctx.(deferred := d.slot.result == B.Unreachable);
    Leaves(d, noted, d.slot.result == B.Success || d.slot.result == B.Unreachable, m);
    Leaves(d, noted.(undoInFlight := false, undone := true), true, m);
  }

  lemma ExpireOrderly(d: Device, m: Moment)
    requires Orderly(d) && d.ui.screen.Waits()
    ensures Orderly(Expire(d, m))
  {
    var ctx, c := d.ui.ctx, d.(ui := d.ui.(deadline := 0));
    if d.ui.screen == Undoing {
      Leaves(c, ctx.(undoInFlight := false, undone := true), true, m);
    } else if c.ui.failNext {
      Leaves(c.(ui := c.ui.(failNext := false)), ctx, false, m);
    } else {
      Leaves(c, ctx, true, m);
    }
  }

  ghost predicate InOrder(t: Terminal) {
    Good(t) && Orderly(t.d) && Ordered(t.disk)
  }

  lemma TurnInOrder(t: Terminal, env: B.Env, revision: Uint32, m: Moment)
    requires InOrder(t) && Proper(t.d.queue, m)
    ensures Orderly(Acted(t, Turn(env, revision, m)).d)
  {
    OrderedPop(t.d.queue);
    var u := Ticked(t, env, revision);
    assert Orderly(u.d) && Proper(u.d.queue, m);
    UpdateOrderly(u.d, env.now, m);
  }

  lemma ActInOrder(t: Terminal, a: Act)
    requires InOrder(t) && Can(t, a)
    ensures InOrder(Acted(t, a))
  {
    ActGood(t, a);
    match a
    case Turn(env, revision, m) => TurnInOrder(t, env, revision, m);
    case Happen(e, m) => DispatchOrderly(t.d, e, m);
    case QueueProduct(c, kind, m) => ChangeOrderly(t.d, c, kind, m);
    case Restart(m) => StartGood(B.RequestSync(B.AtPowerOn(t.d.slot.configured), m.revision, m.len, m.now).0, t.disk, m);
    case _ =>
  }

  lemma {:induction false} RunInOrder(t: Terminal, acts: seq<Act>)
    requires InOrder(t) && Possible(t, acts)
    ensures InOrder(After(t, acts))
    decreases |acts|
  {
    if |acts| > 0 {
      ActInOrder(t, acts[0]);
      RunInOrder(Acted(t, acts[0]), acts[1..]);
    }
  }

  /** A device that starts with an empty flash can be cut off at any moment: sending the
      first k entries of whatever queue it has, falling back to any earlier position j,
      and sending the rest leaves the ledger of one pass; and with room on the shelf for
      what the queue puts there, the sheet of one pass. */
  lemma QueueReplays(t: Terminal, slot: B.Slot, m: Moment, acts: seq<Act>, s: Server.Sheet, j: nat, k: nat,
                     admits: Replay.Validator)
    requires PoweredOn(t, slot, m) && t.disk == [] && Possible(t, acts)
    requires Server.UniqueIds(s.ledger) && j <= k <= |After(t, acts).d.queue|
    ensures var q := After(t, acts).d.queue;
            var again := Replay.Pass(Replay.Pass(s, q[..k], admits), q[j..], admits);
            && again.ledger == Replay.Pass(s, q, admits).ledger
            && (Replay.Roomy(s.products, q, admits) ==> again == Replay.Pass(s, q, admits))
  {
    var q := After(t, acts).d.queue;
    StartGood(slot, t.disk, m);
    RunInOrder(t, acts);
    OrderedReplays(q, admits);
    assert Replay.Harmless(s.ledger, q, admits);
    Resend.SuffixConverges(s, q, j, k, admits);
  }

  lemma OrderedReplays(q: seq<Entry>, admits: Replay.Validator)
    requires Ordered(q)
    ensures Replay.Replayable(q, admits)
  {}
}
