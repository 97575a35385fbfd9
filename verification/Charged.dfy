/** When a purchase can still come to be charged, whatever was undone. */
module Charged {
  import opened Records
  import opened Wrappers
  import opened Clock
  import opened ApiClient
  import opened Backend
  import opened TransactionQueue
  import opened Server
  import opened Replay
  import opened Delivery
  import opened Runs
  import opened Drain
  import opened Boot

  /** Nobody makes this purchase again. */
  predicate PushesNone(actions: seq<Action>, id: Text) {
    forall i :: 0 <= i < |actions| && actions[i].Enqueue? ==> !IsPurchase(actions[i].entry, id)
  }

  predicate IsPurchase(e: Entry, id: Text) {
    e.kind == Purchase && e.transactionId == id
  }

  /** It was sent, or is queued, or stored. */
  ghost predicate MayStand(w: World, id: Text) {
    WasSent(w.outbox, id) || Holds(w.queue, id) || Holds(w.disk, id)
  }

  // ---- What is gone stays gone ------------------------------------------------

  /** Nothing in memory, on flash or on the way that was not there before, other than
      what e is. */
  ghost predicate Keeps(w: World, v: World, e: Option<Entry>) {
    && (forall it :: it in v.queue || it in v.disk ==> it in w.queue || it in w.disk || Some(it.entry) == e)
    && (forall x :: x in v.outbox ==> x in w.outbox || exists it :: it in w.queue && it.entry == x)
  }

  lemma KeptGone(w: World, v: World, e: Option<Entry>, id: Text)
    requires Keeps(w, v, e) && (e.Some? ==> !IsPurchase(e.value, id)) && !MayStand(w, id)
    ensures !MayStand(v, id)
  {
    forall it | it in w.queue || it in w.disk
      ensures !IsPurchase(it.entry, id)
    {
      if it in w.queue {
        NotHeld(w.queue, it, id);
      } else {
        NotHeld(w.disk, it, id);
      }
    }
    forall i | 0 <= i < |v.queue|
      ensures !PurchaseItem(id)(v.queue[i])
    {
      assert v.queue[i] in v.queue;
    }
    forall i | 0 <= i < |v.disk|
      ensures !PurchaseItem(id)(v.disk[i])
    {
      assert v.disk[i] in v.disk;
    }
  }

  lemma NotHeld(q: seq<Item>, it: Item, id: Text)
    requires !Holds(q, id) && it in q
    ensures !IsPurchase(it.entry, id)
  {
    var i :| 0 <= i < |q| && q[i] == it;
    assert !PurchaseItem(id)(q[i]);
  }

  lemma EnqueueKeeps(w: World, e: Entry, fate: FlushFate, len: nat, now: Time)
    ensures Keeps(w, Step(w, Enqueue(e, fate, len, now)), Some(e))
  {
    var f := Flushed(Pushed(w, e), fate);
    var v := SendNow(f, len, now);
    assert v.queue == f.queue && v.disk == f.disk && v.outbox == f.outbox == w.outbox;
  }

  lemma UndoKeeps(w: World, id: Text, fate: FlushFate)
    requires Holds(w.queue, id)
    ensures Keeps(w, Step(w, Undo(id, fate)), None)
  {
    var i := RemovedIs(w, id);
    var r, v := Removed(w, id), Flushed(Removed(w, id), fate);
    assert v.queue == r.queue == w.queue[..i] + w.queue[i + 1..] && v.outbox == w.outbox;
    assert v.disk == w.disk || v.disk == r.queue || v.disk == [];
  }

  lemma TickKeeps(w: World, env: Env, before: Ledger)
    requires Inv(w) && Traced(w, before)
    ensures Keeps(w, Ticked(w, env), None)
  {
    assert HandedOver(w.slot, w.client) && HeadStable(w.slot, w.sent, w.queue);
    if !w.slot.configured {
      assert Ticked(w, env) == w;
    } else if w.slot.op == NoOp {
      IdleAs(w, env);
      NotedKeeps(w, TickIdle(w.slot, HeadOf(Entries(w.queue)), w.revision, env));
    } else {
      RunningKeeps(w, env, before);
    }
  }

  lemma NotedKeeps(w: World, slot: Slot)
    ensures Keeps(w, Noted(w, slot), None)
  {
    var v := Noted(w, slot);
    assert v.queue == w.queue && v.disk == w.disk && v.outbox == w.outbox;
  }

  lemma RunningKeeps(w: World, env: Env, before: Ledger)
    requires Inv(w) && Traced(w, before) && w.slot.configured && w.slot.op != NoOp
    ensures Keeps(w, Ticked(w, env), None)
  {
    assert HandedOver(w.slot, w.client) && HeadStable(w.slot, w.sent, w.queue);
    if w.slot.posted && AnswerIn(w) {
      PoppedAs(w, env);
    } else if w.slot.posted {
      PostedAs(w, env);
    } else {
      WaitingAs(w, env);
      PostedKeeps(w, Post(w.client, true, env.stillOnline, w.slot.request, w.slot.requestLen).0);
    }
    if Free(Turn(w, env)) && !Turn(w, env).popped {
      EndsAs(w, Turn(w, env));
    }
  }

  lemma PostedKeeps(w: World, c: ApiClient.State)
    requires w.slot.request.EntryRequest? ==> w.queue != [] && w.slot.request.entry == w.queue[0].entry
    ensures Keeps(w, Posted(w.(slot := w.slot.(posted := true), client := c), true), None)
  {
    var v := Posted(w.(slot := w.slot.(posted := true), client := c), true);
    assert v.queue == w.queue && v.disk == w.disk;
    if w.slot.request.EntryRequest? {
      assert w.queue[0] in w.queue;
    }
  }

  lemma StepGone(w: World, a: Action, id: Text, before: Ledger)
    requires Inv(w) && Traced(w, before) && Enabled(w, a) && !MayStand(w, id)
    requires a.Enqueue? ==> !IsPurchase(a.entry, id)
    ensures !MayStand(Step(w, a), id)
  {
    match a
    case Enqueue(e, fate, len, now) =>
      EnqueueKeeps(w, e, fate, len, now);
      KeptGone(w, Step(w, a), Some(e), id);
    case Undo(other, fate) =>
      UndoKeeps(w, other, fate);
      KeptGone(w, Step(w, a), None, id);
    case LoopTick(env) =>
      TickKeeps(w, env, before);
      KeptGone(w, Step(w, a), None, id);
    case _ =>
      OthersKeep(w, a);
      KeptGone(w, Step(w, a), None, id);
  }

  lemma OthersKeep(w: World, a: Action)
    requires !a.Enqueue? && !a.Undo? && !a.LoopTick?
    ensures Keeps(w, Step(w, a), None)
  {
    match a
    case CallSync(len, now) => NotedKeeps(w, RequestSync(w.slot, w.revision, len, now).0);
    case CallMySummary(id, len, now) => NotedKeeps(w, RequestMySummary(w.slot, id, len, now).0);
    case CallActive(active, len, now) => NotedKeeps(w, SetActive(w.slot, active, w.revision, len, now));
    case Flush(fate) =>
      var v := Flushed(w, fate);
      assert v.queue == w.queue && v.outbox == w.outbox && (v.disk == w.disk || v.disk == w.queue || v.disk == []);
    case _ =>
  }

  lemma {:induction false} RunGone(w: World, actions: seq<Action>, id: Text, before: Ledger)
    requires Inv(w) && Traced(w, before) && Legal(w, actions) && PushesNone(actions, id) && !MayStand(w, id)
    ensures !MayStand(Run(w, actions), id)
    decreases |actions|
  {
    if |actions| > 0 {
      StepInv(w, actions[0]);
      StepTraced(w, actions[0], before);
      StepGone(w, actions[0], id, before);
      RunGone(Step(w, actions[0]), actions[1..], id, before);
    }
  }

  // ---- What is left is sent ---------------------------------------------------

  predicate All(e: Entry) {
    true
  }

  const UP: Env := Env(0, 0, true, true, 100, 100)

  function Turns(n: nat): (envs: seq<Env>)
    ensures |envs| == n && AllReach(envs, 0)
  {
    seq(n, i => UP)
  }

  lemma {:induction false} TripsPushNothing(w: World, envs: seq<Env>, id: Text)
    ensures PushesNone(Trips(w, envs, All), id)
    decreases |envs|
  {
    if |envs| > 0 && w.queue != [] {
      TripsPushNothing(Run(w, RoundTrip(w, envs[0], All)), envs[1..], id);
    }
  }

  /** A boot whose sync is answered. */
  const UP_AGAIN: Boot := Boot(100, 0, UP, UP, Answered(Body(AckMalformed, None, false)))

  lemma StoredComes(w: World, id: Text) returns (more: seq<Action>)
    requires w.slot.configured && w.client.ready && !w.window && Holds(w.disk, id) && !Has(w.sheet.ledger, id)
    ensures Legal(w, more) && PushesNone(more, id) && Live(Run(w, more).sheet.ledger, id)
  {
    var j := FirstHeld(w.disk, PurchaseItem(id));
    var envs := Turns(j + 1);
    more := Recovery(w, UP_AGAIN, envs, All);
    RebootSends(w, UP_AGAIN, envs, All);
    TripsPushNothing(Run(w, BootSteps(UP_AGAIN)), envs, id);
    FirstIsCharged(w.sheet, w.disk, id, j);
  }

  /** The first purchase with an id that the sheet does not have is charged. */
  lemma FirstIsCharged(s: Sheet, q: seq<Item>, id: Text, j: nat)
    requires IsFirst(q, PurchaseItem(id), j) && !Has(s.ledger, id)
    ensures Live(Pass(s, Entries(q)[..j + 1], All).ledger, id)
  {
    var es := Entries(q);
    assert FirstBuy(es, j, All) by {
      assert forall k :: 0 <= k < j ==> !PurchaseItem(id)(q[k]);
    }
    AbsentBefore(s, es, j, All);
    assert es[..j + 1] == es[..j] + [es[j]] && [es[j]][1..] == [];
    PassAppend(s, es[..j], [es[j]], All);
    IsRecorded(Pass(s, es[..j], All), es[j]);
  }

  /** A purchase that the sheet does not have is charged when it takes effect. */
  lemma IsRecorded(s: Sheet, e: Entry)
    requires e.kind == Purchase && !Has(s.ledger, e.transactionId)
    ensures Live(Served(s, e, true).ledger, e.transactionId)
  {
    assert Served(s, e, true).ledger[|s.ledger|] == Row(e, false);
  }

  lemma QueuedComes(w: World, id: Text) returns (more: seq<Action>)
    requires w.slot.configured && w.client.ready && Holds(w.queue, id) && !Has(w.sheet.ledger, id)
    ensures Legal(w, more) && PushesNone(more, id) && Live(Run(w, more).sheet.ledger, id)
  {
    var later := StoredComes(Flushed(w, Written), id);
    more := [Flush(Written)] + later;
    RunFirst(w, Flush(Written), later);
  }

  /** A purchase that was sent may still take effect. */
  lemma SentComes(w: World, id: Text) returns (more: seq<Action>)
    requires WasSent(w.outbox, id) && !Has(w.sheet.ledger, id)
    ensures Legal(w, more) && PushesNone(more, id) && Live(Run(w, more).sheet.ledger, id)
  {
    var e :| e in w.outbox && e.kind == Purchase && e.transactionId == id;
    more := [ServeLate(e, true)];
    RunOne(w, more[0]);
    IsRecorded(w.sheet, e);
  }

  lemma Comes(w: World, id: Text) returns (more: seq<Action>)
    requires Inv(w) && w.slot.configured && w.client.ready && MayStand(w, id) && !Has(w.sheet.ledger, id)
    ensures Legal(w, more) && PushesNone(more, id) && Live(Run(w, more).sheet.ledger, id)
  {
    if Holds(w.queue, id) {
      more := QueuedComes(w, id);
    } else if Holds(w.disk, id) {
      MissingIsEmpty(w);
      more := StoredComes(w, id);
    } else {
      more := SentComes(w, id);
    }
  }

  lemma MissingIsEmpty(w: World)
    requires Inv(w)
    ensures w.window ==> |w.disk| == 0
  {
    if |w.disk| > 0 {
      assert w.disk[0].ticket in Tickets(w.disk);
    }
  }

  // ---- What is reversed stays reversed ----------------------------------------

  /** No row is lost or rewritten, and no reversal taken back. */
  predicate RowsKept(rows: Ledger, later: Ledger) {
    && |rows| <= |later| && (UniqueIds(rows) ==> UniqueIds(later))
    && forall i :: 0 <= i < |rows| ==>
         later[i].purchase == rows[i].purchase && (rows[i].voided ==> later[i].voided)
  }

  lemma StepKeepsRows(w: World, a: Action)
    ensures RowsKept(w.sheet.ledger, Step(w, a).sheet.ledger)
  {
    match a
    case Serve(admits) =>
      if w.client.request.EntryRequest? {
        ServedKeeps(w.sheet, w.client.request.entry, admits);
      }
    case ServeLate(e, admits) => ServedKeeps(w.sheet, e, admits);
    case Enqueue(e, fate, len, now) => assert Step(w, a).sheet == w.sheet by { EnqueueKeeps(w, e, fate, len, now); }
    case Undo(id, fate) => FlushedAside(Removed(w, id), fate);
    case Flush(fate) => FlushedAside(w, fate);
    case LoopTick(env) => SheetAfter(w, Turn(w, env));
    case CallSync(len, now) => NotedKeepsAll(w, RequestSync(w.slot, w.revision, len, now).0);
    case CallMySummary(id, len, now) => NotedKeepsAll(w, RequestMySummary(w.slot, id, len, now).0);
    case CallActive(active, len, now) => NotedKeepsAll(w, SetActive(w.slot, active, w.revision, len, now));
    case _ =>
  }

  lemma SheetAfter(w: World, o: Backend.Outcome)
    ensures After(w, o).sheet == w.sheet
  {
    var noted := Noted(w, o.slot).(client := o.client);
    assert noted.sheet == w.sheet;
    var posted := Posted(noted, o.slot.posted && !w.slot.posted);
    assert posted.sheet == w.sheet;
    var popped := if o.popped then PoppedBy(posted, w.client.body.ack) else posted;
    assert popped.sheet == w.sheet;
  }

  lemma {:induction false} RunKeepsRows(w: World, actions: seq<Action>)
    ensures RowsKept(w.sheet.ledger, Run(w, actions).sheet.ledger)
    decreases |actions|
  {
    if |actions| > 0 {
      StepKeepsRows(w, actions[0]);
      RunKeepsRows(Step(w, actions[0]), actions[1..]);
    }
  }

  lemma StaysReversed(rows: Ledger, later: Ledger, id: Text)
    requires UniqueIds(rows) && RowsKept(rows, later) && Has(rows, id)
    ensures Has(later, id) && (!Live(rows, id) ==> !Live(later, id))
  {
    var i :| 0 <= i < |rows| && rows[i].Id() == id;
    assert later[i].Id() == id;
    forall j | 0 <= j < |later| && later[j].Id() == id
      ensures j == i
    {
      assert !(i < j) && !(j < i);
    }
  }

  /** Once the server has acknowledged an undo it is final: whatever happens next, even
      another push of the same purchase, the id is not charged again. */
  lemma AcknowledgedUndoIsFinal(start: World, actions: seq<Action>, more: seq<Action>, t: nat)
    requires Init(start) && Legal(start, actions)
    requires var h := Run(start, actions).history; t in h.acked && t < |h.origin| && h.origin[t].kind == Void
    ensures var w := Run(start, actions);
            var id := w.history.origin[t].transactionId;
            Has(w.sheet.ledger, id) && !Live(Run(w, more).sheet.ledger, id)
  {
    var w := Run(start, actions);
    var id := w.history.origin[t].transactionId;
    InitInv(start);
    RunKeeps(start, actions);
    assert TookEffect(w.sheet, w.history.origin[t]);
    RunKeepsRows(w, more);
    StaysReversed(w.sheet.ledger, Run(w, more).sheet.ledger, id);
  }

  // ---- When it is charged -----------------------------------------------------

  /** Without being made again, the purchase can still come to be charged, or is. */
  ghost predicate CanBeCharged(w: World, id: Text) {
    exists more :: PushesNone(more, id) && Legal(w, more) && Live(Run(w, more).sheet.ledger, id)
  }

  /** At any moment, a purchase can come to be charged without being made again exactly if
      it is charged now, or the sheet does not have it and it was sent before, or is
      queued, or is on flash. So it is never charged exactly if the sheet has it reversed,
      or does not have it and nothing that was sent, is queued or is stored can bring it. */
  lemma ChargedIff(start: World, actions: seq<Action>, id: Text)
    requires Init(start) && Legal(start, actions)
    requires Run(start, actions).slot.configured && Run(start, actions).client.ready
    ensures var w := Run(start, actions);
            CanBeCharged(w, id) <==>
              Live(w.sheet.ledger, id) || (!Has(w.sheet.ledger, id) && MayStand(w, id))
  {
    var w := Run(start, actions);
    InitInv(start);
    RunKeeps(start, actions);
    if Live(w.sheet.ledger, id) {
      assert Legal(w, []) && Run(w, []) == w && PushesNone([], id);
    } else if !Has(w.sheet.ledger, id) && MayStand(w, id) {
      var more := Comes(w, id);
    }
    forall more | PushesNone(more, id) && Legal(w, more) && Live(Run(w, more).sheet.ledger, id)
      ensures Live(w.sheet.ledger, id) || (!Has(w.sheet.ledger, id) && MayStand(w, id))
    {
      OnlyThese(start, actions, more, id);
    }
  }

  lemma OnlyThese(start: World, actions: seq<Action>, more: seq<Action>, id: Text)
    requires Init(start) && Legal(start, actions)
    requires PushesNone(more, id) && Legal(Run(start, actions), more) && Live(Run(Run(start, actions), more).sheet.ledger, id)
    ensures var w := Run(start, actions);
            Live(w.sheet.ledger, id) || (!Has(w.sheet.ledger, id) && MayStand(w, id))
  {
    var w := Run(start, actions);
    InitInv(start);
    RunKeeps(start, actions);
    RunKeepsRows(w, more);
    if Has(w.sheet.ledger, id) {
      StaysReversed(w.sheet.ledger, Run(w, more).sheet.ledger, id);
    } else {
      NotAbsentBefore(start, actions, id);
      ComesFromHere(start, actions, more, id);
    }
  }

  lemma NotAbsentBefore(start: World, actions: seq<Action>, id: Text)
    requires UniqueIds(start.sheet.ledger) && !Has(Run(start, actions).sheet.ledger, id)
    ensures !Has(start.sheet.ledger, id)
  {
    RunKeepsRows(start, actions);
    if Has(start.sheet.ledger, id) {
      StaysReversed(start.sheet.ledger, Run(start, actions).sheet.ledger, id);
    }
  }

  lemma ComesFromHere(start: World, actions: seq<Action>, more: seq<Action>, id: Text)
    requires Init(start) && Legal(start, actions) && !Has(start.sheet.ledger, id)
    requires PushesNone(more, id) && Legal(Run(start, actions), more) && Has(Run(Run(start, actions), more).sheet.ledger, id)
    ensures MayStand(Run(start, actions), id)
  {
    var w := Run(start, actions);
    InitInv(start);
    RunKeeps(start, actions);
    RunTraced(start, actions, start.sheet.ledger);
    RunAppend(start, actions, more);
    UnsentUncharged(start, actions + more, id);
    if !MayStand(w, id) {
      RunGone(w, more, id, start.sheet.ledger);
    }
  }
}
