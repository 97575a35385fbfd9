/** The whole path of an entry, as a step system: pushed, flushed, sent, answered or
    not, and popped; with lost requests, lost replies, late effects, failed flushes
    and reboots. Every queued item carries a ticket, so that the history of one item
    can be told apart from that of another with the same transaction id. */
module Delivery {
  import opened Bits
  import opened Records
  import opened Wrappers
  import opened Settings
  import opened Clock
  import opened ApiClient
  import DeviceStorage
  import opened TransactionQueue
  import opened Backend
  import opened Server
  import opened Replay

  datatype Item = Item(ticket: nat, entry: Entry)

  /** What a flush leaves for the next boot: the new queue, the old one, or nothing
      when the target was removed and the rename did not follow. */
  datatype FlushFate = Written | Kept | Gone

  /** What became of every ticket, as a set of tickets for each fate. */
  datatype History = History(
    origin: seq<Entry>,
    pushed: set<nat>,
    durable: set<nat>,
    acked: set<nat>,
    refused: set<nat>,
    undone: set<nat>)

  datatype World = World(
    slot: Slot,
    client: ApiClient.State,
    revision: Uint32,
    queue: seq<Item>,
    disk: seq<Item>,
    window: bool,
    sheet: Sheet,
    /** The item in the current entry request, and the server's verdict on it so far. */
    sent: Option<Item>,
    reply: Option<AckOutcome>,
    /** Every entry ever posted: it may still take effect, and more than once. */
    outbox: set<Entry>,
    history: History,
    /** What had been answered when the running sync was started. */
    answeredAtSync: set<nat>)

  datatype Action =
    | Enqueue(entry: Entry, fate: FlushFate, len: nat, now: Time)
    | Undo(id: Text, fate: FlushFate)
    | Flush(fate: FlushFate)
    | LoopTick(env: Env)
    | CallSync(len: nat, now: Time)
    | CallMySummary(residentId: Text, len: nat, now: Time)
    | CallActive(active: bool, len: nat, now: Time)
    | CallClear
    | Serve(admits: bool)
    | ServeLate(entry: Entry, admits: bool)
    | Reply(body: Body)
    | Break(error: Error)
    | Reboot

  function Entries(q: seq<Item>): (es: seq<Entry>)
    ensures |es| == |q| && forall i :: 0 <= i < |q| ==> es[i] == q[i].entry
  {
    seq(|q|, i requires 0 <= i < |q| => q[i].entry)
  }

  function Tickets(q: seq<Item>): set<nat> {
    set i | 0 <= i < |q| :: q[i].ticket
  }

  function PurchaseItem(id: Text): Item -> bool {
    (it: Item) => it.entry.kind == Purchase && it.entry.transactionId == id
  }

  ghost predicate Holds(q: seq<Item>, id: Text) {
    exists i :: 0 <= i < |q| && PurchaseItem(id)(q[i])
  }

  // ---- The steps --------------------------------------------------------------

  function Flushed(w: World, fate: FlushFate): World {
    match fate
    case Written => w.(disk := w.queue, window := false, history := w.history.(durable := w.history.durable + Tickets(w.queue)))
    case Kept => w
    case Gone => w.(disk := [], window := true)
  }

  /** The slot changes hands; what it now carries is noted. */
  function Noted(w: World, slot: Slot): World {
    var v := w.(slot := slot);
    if slot.op.SendsEntry() && !w.slot.op.SendsEntry() && w.queue != [] then v.(sent := Some(w.queue[0]))
    else if slot.op == SyncOp && w.slot.op != SyncOp then v.(answeredAtSync := w.history.acked + w.history.refused)
    else v
  }

  function SendNow(w: World, len: nat, now: Time): World {
    Noted(w, SendQueued(w.slot, HeadOf(Entries(w.queue)), len, now).0)
  }

  function Pushed(w: World, e: Entry): World {
    if |w.queue| >= MAX_QUEUED then w
    else
      var h, ticket := w.history, |w.history.origin|;
      w.(queue := w.queue + [Item(ticket, e)], history := h.(origin := h.origin + [e], pushed := h.pushed + {ticket}))
  }

  /** The first queued purchase with the id is taken out; no other entry is touched. */
  ghost function Removed(w: World, id: Text): World {
    var gone := set i | 0 <= i < |w.queue| && IsFirst(w.queue, PurchaseItem(id), i) :: w.queue[i].ticket;
    w.(queue := RemoveFirst(w.queue, PurchaseItem(id)), history := w.history.(undone := w.history.undone + gone))
  }

  function Turn(w: World, env: Env): Backend.Outcome {
    Backend.Tick(w.slot, HeadOf(Entries(w.queue)), ChangesProducts(Entries(w.queue)), w.revision, w.client, env)
  }

  /** The request has just been handed to the worker. */
  function Posted(w: World, posted: bool): World {
    if !posted then w
    else
      var v := w.(reply := None);
      if w.slot.request.EntryRequest? then v.(outbox := v.outbox + {w.slot.request.entry}) else v
  }

  function PoppedBy(w: World, ack: AckOutcome): World {
    var v, h := w.(queue := Backend.Popped(w.queue)), w.history;
    if w.sent.None? then v
    else if ack.AckOk? then v.(history := h.(acked := h.acked + {w.sent.value.ticket}))
    else v.(history := h.(refused := h.refused + {w.sent.value.ticket}))
  }

  function After(w: World, o: Backend.Outcome): World {
    var noted := Noted(w, o.slot).(client := o.client);
    var posted := Posted(noted, o.slot.posted && !w.slot.posted);
    var popped := if o.popped then PoppedBy(posted, w.client.body.ack) else posted;
    if o.sync.catalog.Some? then popped.(revision := o.sync.catalog.value.revision) else popped
  }

  function Ticked(w: World, env: Env): World {
    After(w, Turn(w, env))
  }

  function Verdict(ack: Ack): AckOutcome {
    match ack
    case Accepted(duplicate) => AckOk(duplicate)
    case Refused => AckRejected
  }

  ghost function Step(w: World, a: Action): World {
    match a
    case Enqueue(e, fate, len, now) =>
      if |w.queue| >= MAX_QUEUED then w else SendNow(Flushed(Pushed(w, e), fate), len, now)
    case Undo(id, fate) =>
      Flushed(Removed(w, id), fate)
    case Flush(fate) => Flushed(w, fate)
    case LoopTick(env) => Ticked(w, env)
    case CallSync(len, now) => Noted(w, RequestSync(w.slot, w.revision, len, now).0)
    case CallMySummary(id, len, now) => Noted(w, RequestMySummary(w.slot, id, len, now).0)
    case CallActive(active, len, now) => Noted(w, SetActive(w.slot, active, w.revision, len, now))
    case CallClear => w.(slot := Clear(w.slot))
    case Serve(admits) =>
      if w.client.request.EntryRequest? then
        var e := w.client.request.entry;
        w.(sheet := Served(w.sheet, e, admits), reply := Some(Verdict(Answer(w.sheet, e, admits))))
      else w
    case ServeLate(e, admits) => w.(sheet := Served(w.sheet, e, admits))
    case Reply(body) => w.(client := w.client.(status := Done, body := body))
    case Break(error) => w.(client := w.client.(status := Failed, error := error))
    case Reboot =>
      w.(slot := AtPowerOn(w.slot.configured), client := w.client.(status := Idle), queue := w.disk, sent := None,
         reply := None, history := w.history.(pushed := w.history.durable))
  }

  /** What the step system allows: the worker acts only on a posted request, and a
      verdict it reports was given by the server; an undo removes what is queued. */
  ghost predicate Enabled(w: World, a: Action) {
    match a
    case Undo(id, _) => Holds(w.queue, id)
    case Serve(_) => w.client.status == Busy
    case ServeLate(e, _) => e in w.outbox
    case Reply(body) =>
      w.client.status == Busy && (w.client.request.EntryRequest? ==> body.ack == AckMalformed || w.reply == Some(body.ack))
    case Break(_) => w.client.status == Busy
    case _ => true
  }

  /** The purchase an undo would take out is the one being sent. */
  ghost predicate UndoesInFlight(w: World, id: Text) {
    w.slot.op.SendsEntry() && w.queue != [] && PurchaseItem(id)(w.queue[0])
  }

  /** The two things that must not happen: undoing the purchase in flight, and losing
      power while the queue file is missing. */
  ghost predicate Safe(w: World, a: Action) {
    match a
    case Undo(id, _) => !UndoesInFlight(w, id)
    case Reboot => !w.window
    case _ => true
  }

  // ---- What every step keeps --------------------------------------------------

  ghost predicate WellTicketed(origin: seq<Entry>, q: seq<Item>) {
    && (forall i :: 0 <= i < |q| ==> q[i].ticket < |origin| && origin[q[i].ticket] == q[i].entry)
    && (forall i, j :: 0 <= i < j < |q| ==> q[i].ticket != q[j].ticket)
  }

  /** Everything accepted is still queued, was answered, or was undone; and everything
      that was ever safely on flash would survive a reboot. */
  ghost predicate Accounted(h: History, queued: set<nat>, stored: set<nat>, window: bool) {
    && h.pushed <= queued + h.acked + h.refused + h.undone
    && queued <= h.pushed && stored <= h.durable <= h.pushed
    && (if window then stored == {} else h.durable <= stored + h.acked + h.refused + h.undone)
    && (forall t :: t in h.pushed ==> t < |h.origin|)
    && (forall t :: t in h.undone ==> t < |h.origin| && h.origin[t].kind == Purchase)
  }

  /** What an accepted answer to e means. */
  ghost predicate TookEffect(s: Sheet, e: Entry) {
    && (e.kind == Purchase ==> Has(s.ledger, e.transactionId))
    && (e.kind == Void ==> Has(s.ledger, e.transactionId) && Reverted(s.ledger, e.transactionId))
  }

  ghost predicate AcksTrue(h: History, s: Sheet) {
    forall t :: t in h.acked ==> t < |h.origin| && TookEffect(s, h.origin[t])
  }

  ghost predicate Books(w: World) {
    && WellTicketed(w.history.origin, w.queue) && WellTicketed(w.history.origin, w.disk)
    && Accounted(w.history, Tickets(w.queue), Tickets(w.disk), w.window)
    && AcksTrue(w.history, w.sheet) && UniqueIds(w.sheet.ledger)
  }

  /** The entry being sent is the head of the queue, so a pop removes the answered one. */
  ghost predicate HeadStable(slot: Slot, sent: Option<Item>, q: seq<Item>) {
    slot.op.SendsEntry() ==>
      && q != [] && sent == Some(q[0])
      && slot.request == EntryRequest(q[0].entry) && slot.op == OpFor(q[0].entry)
  }

  /** The worker has a request exactly while an operation is posted, and it is that
      operation's. */
  ghost predicate HandedOver(slot: Slot, client: ApiClient.State) {
    && (client.status != Idle <==> slot.posted)
    && (slot.posted ==> slot.op != NoOp && client.request == slot.request)
  }

  /** A verdict on its way to the device is true of the sheet. */
  ghost predicate RepliesTrue(slot: Slot, client: ApiClient.State, reply: Option<AckOutcome>, s: Sheet) {
    slot.posted && slot.request.EntryRequest?
    && ((reply.Some? && reply.value.AckOk?) || (client.status == Done && client.body.ack.AckOk?))
    ==> TookEffect(s, slot.request.entry)
  }

  ghost predicate IsChange(h: History, t: nat) {
    t < |h.origin| && h.origin[t].kind.IsProductChange()
  }

  /** While a sync runs, every product change was answered before it or is queued. */
  ghost predicate SyncFresh(op: Op, answered: set<nat>, h: History, queued: set<nat>) {
    op == SyncOp ==> forall t :: t in h.pushed && IsChange(h, t) ==> t in answered || t in queued
  }

  ghost predicate Slots(w: World) {
    && HeadStable(w.slot, w.sent, w.queue) && HandedOver(w.slot, w.client)
    && RepliesTrue(w.slot, w.client, w.reply, w.sheet)
    && SyncFresh(w.slot.op, w.answeredAtSync, w.history, Tickets(w.queue))
  }

  ghost predicate Inv(w: World) {
    Books(w) && Slots(w)
  }

  /** A device with an empty queue and an idle worker, and any sheet. */
  ghost predicate Init(w: World) {
    && (exists configured :: w.slot == AtPowerOn(configured))
    && w.client.status == Idle && w.queue == [] && w.disk == [] && !w.window && w.sent == None && w.reply == None
    && w.outbox == {} && w.history == History([], {}, {}, {}, {}, {}) && w.answeredAtSync == {}
    && UniqueIds(w.sheet.ledger)
  }

  lemma InitInv(w: World)
    requires Init(w)
    ensures Inv(w)
  {}

  // ---- Flash ------------------------------------------------------------------

  /** What a fate leaves on flash. */
  function Left<T>(disk: seq<T>, queue: seq<T>, fate: FlushFate): seq<T> {
    match fate
    case Written => queue
    case Kept => disk
    case Gone => []
  }

  lemma FlushedLeaves(w: World, fate: FlushFate)
    ensures Flushed(w, fate).disk == Left(w.disk, w.queue, fate)
  {}

  /** Power loss after any step of a flush leaves the next boot with what one of the three
      fates says, and with nothing only in the window between removal and rename. */
  lemma FlushFates(files: DeviceStorage.Files, disk: seq<Entry>, queue: seq<Entry>, fate: DeviceStorage.Fate, k: nat)
    returns (f: FlushFate)
    requires |queue| <= MAX_QUEUED && AllFit(queue) && Booted(files) == disk
    requires k < |DeviceStorage.Trace(files, PATH, Blob(queue), fate)|
    ensures Booted(DeviceStorage.Trace(files, PATH, Blob(queue), fate)[k]) == Left(disk, queue, f)
    ensures f == Gone ==> |Blob(queue)| < k
  {
    FlushCrashAtomic(files, queue, fate, k);
    f := if k <= |Blob(queue)| || DeviceStorage.Taken(Blob(queue), fate) < |Blob(queue)| then Kept
         else if k == |Blob(queue)| + 1 || !fate.renames then Gone
         else Written;
  }

  // ---- Flushing and pushing ---------------------------------------------------

  lemma FlushedInv(w: World, fate: FlushFate)
    requires Inv(w)
    ensures Inv(Flushed(w, fate))
  {
    assert Tickets([]) == {};
  }

  lemma TicketsAppend(q: seq<Item>, it: Item)
    ensures Tickets(q + [it]) == Tickets(q) + {it.ticket}
  {
    forall t | t in Tickets(q)
      ensures t in Tickets(q + [it])
    {
      var i :| 0 <= i < |q| && q[i].ticket == t;
      assert (q + [it])[i].ticket == t;
    }
    assert (q + [it])[|q|] == it;
    forall t | t in Tickets(q + [it])
      ensures t in Tickets(q) || t == it.ticket
    {
      var i :| 0 <= i < |q + [it]| && (q + [it])[i].ticket == t;
      assert i < |q| ==> q[i].ticket == t;
    }
  }

  lemma WellTicketedAppend(origin: seq<Entry>, q: seq<Item>, e: Entry)
    requires WellTicketed(origin, q)
    ensures WellTicketed(origin + [e], q) && WellTicketed(origin + [e], q + [Item(|origin|, e)])
  {
    var r := q + [Item(|origin|, e)];
    assert forall i :: 0 <= i < |q| ==> r[i] == q[i] && (origin + [e])[q[i].ticket] == q[i].entry;
  }

  lemma PushedBooks(w: World, e: Entry)
    requires Books(w) && |w.queue| < MAX_QUEUED
    ensures Books(Pushed(w, e))
  {
    var h, g := w.history, Pushed(w, e).history;
    WellTicketedAppend(h.origin, w.queue, e);
    WellTicketedAppend(h.origin, w.disk, e);
    TicketsAppend(w.queue, Item(|h.origin|, e));
    assert forall t :: 0 <= t < |h.origin| ==> g.origin[t] == h.origin[t];
    assert Accounted(g, Tickets(w.queue) + {|h.origin|}, Tickets(w.disk), w.window);
    assert AcksTrue(g, w.sheet);
  }

  lemma PushedSlots(w: World, e: Entry)
    requires Books(w) && Slots(w) && |w.queue| < MAX_QUEUED
    ensures Slots(Pushed(w, e))
  {
    var h, v := w.history, Pushed(w, e);
    TicketsAppend(w.queue, Item(|h.origin|, e));
    assert forall t :: 0 <= t < |h.origin| ==> v.history.origin[t] == h.origin[t];
    assert w.queue != [] ==> v.queue[0] == w.queue[0];
  }

  // ---- The slot changes hands -------------------------------------------------

  /** A change of the slot that leaves a running operation alone, or starts one. */
  ghost predicate StartsFairly(was: Slot, slot: Slot, q: seq<Item>) {
    || (slot.op == was.op && slot.posted == was.posted && slot.request == was.request)
    || (was.op == NoOp && slot.op != NoOp && !slot.posted
        && (slot.request.EntryRequest? ==> slot.op.SendsEntry())
        && (slot.op.SendsEntry() ==>
              q != [] && slot.request == EntryRequest(q[0].entry) && slot.op == OpFor(q[0].entry)))
  }

  lemma NotedInv(w: World, slot: Slot)
    requires Inv(w) && StartsFairly(w.slot, slot, w.queue)
    ensures Inv(Noted(w, slot))
  {
    var h, v := w.history, Noted(w, slot);
    assert v.queue == w.queue && v.history == h && v.client == w.client && v.sheet == w.sheet;
    assert HandedOver(w.slot, w.client) ==> HandedOver(v.slot, v.client);
    assert SyncFresh(v.slot.op, v.answeredAtSync, h, Tickets(w.queue)) by {
      forall t | t in h.pushed && IsChange(h, t) && slot.op == SyncOp
        ensures t in v.answeredAtSync || t in Tickets(w.queue)
      {
        assert t in Tickets(w.queue) + h.acked + h.refused + h.undone;
      }
    }
  }

  lemma HeadIs(q: seq<Item>)
    ensures HeadOf(Entries(q)) == if q == [] then None else Some(q[0].entry)
  {
    assert |Entries(q)| == |q|;
  }

  lemma SendsFairly(b: Slot, q: seq<Item>, len: nat, now: Time)
    ensures StartsFairly(b, SendQueued(b, HeadOf(Entries(q)), len, now).0, q)
  {
    HeadIs(q);
  }

  lemma AsksFairly(b: Slot, q: seq<Item>, revision: Uint32, id: Text, len: nat, now: Time, active: bool)
    ensures StartsFairly(b, RequestSync(b, revision, len, now).0, q)
    ensures StartsFairly(b, RequestMySummary(b, id, len, now).0, q)
    ensures StartsFairly(b, SetActive(b, active, revision, len, now), q)
  {}

  lemma IdlesFairly(b: Slot, q: seq<Item>, revision: Uint32, env: Env)
    requires b.op == NoOp
    ensures StartsFairly(b, TickIdle(b, HeadOf(Entries(q)), revision, env), q)
  {
    HeadIs(q);
  }

  // ---- Undo -------------------------------------------------------------------

  lemma FirstHeld(q: seq<Item>, p: Item -> bool) returns (i: nat)
    requires exists j :: 0 <= j < |q| && p(q[j])
    ensures IsFirst(q, p, i)
  {
    i := 0;
    while !p(q[i])
      invariant i < |q| && forall j :: 0 <= j < i ==> !p(q[j])
      invariant exists j :: i <= j < |q| && p(q[j])
      decreases |q| - i
    {
      i := i + 1;
    }
  }

  lemma TicketsWithout(q: seq<Item>, i: nat)
    requires i < |q|
    ensures Tickets(q) == Tickets(q[..i] + q[i + 1..]) + {q[i].ticket}
  {
    var r := q[..i] + q[i + 1..];
    forall t | t in Tickets(q)
      ensures t in Tickets(r) || t == q[i].ticket
    {
      var j :| 0 <= j < |q| && q[j].ticket == t;
      if j < i {
        assert r[j] == q[j];
      } else if j > i {
        assert r[j - 1] == q[j];
      }
    }
    forall t | t in Tickets(r)
      ensures t in Tickets(q)
    {
      var j :| 0 <= j < |r| && r[j].ticket == t;
      assert r[j] == if j < i then q[j] else q[j + 1];
    }
  }

  lemma WellTicketedWithout(origin: seq<Entry>, q: seq<Item>, i: nat)
    requires WellTicketed(origin, q) && i < |q|
    ensures WellTicketed(origin, q[..i] + q[i + 1..])
  {
    var r := q[..i] + q[i + 1..];
    assert forall j :: 0 <= j < |r| ==> r[j] == q[if j < i then j else j + 1];
  }

  lemma RemovedIs(w: World, id: Text) returns (i: nat)
    requires Holds(w.queue, id)
    ensures IsFirst(w.queue, PurchaseItem(id), i)
    ensures Removed(w, id) == w.(queue := w.queue[..i] + w.queue[i + 1..],
                                 history := w.history.(undone := w.history.undone + {w.queue[i].ticket}))
  {
    i := FirstHeld(w.queue, PurchaseItem(id));
    RemoveFirstIs(w.queue, PurchaseItem(id), i);
    var gone := set i | 0 <= i < |w.queue| && IsFirst(w.queue, PurchaseItem(id), i) :: w.queue[i].ticket;
    assert w.queue[i].ticket in gone;
    assert gone == {w.queue[i].ticket};
  }

  lemma RemovedBooks(w: World, id: Text)
    requires Books(w) && Holds(w.queue, id)
    ensures Books(Removed(w, id))
  {
    var i := RemovedIs(w, id);
    var h, v, q := w.history, Removed(w, id), w.queue[..i] + w.queue[i + 1..];
    TicketsWithout(w.queue, i);
    WellTicketedWithout(h.origin, w.queue, i);
    assert h.origin[w.queue[i].ticket].kind == Purchase;
    assert Accounted(v.history, Tickets(q), Tickets(w.disk), w.window);
    assert AcksTrue(v.history, w.sheet);
  }

  lemma RemovedSlots(w: World, id: Text)
    requires Books(w) && Slots(w) && Holds(w.queue, id) && !UndoesInFlight(w, id)
    ensures Slots(Removed(w, id))
  {
    var i := RemovedIs(w, id);
    var h, v := w.history, Removed(w, id);
    TicketsWithout(w.queue, i);
    assert h.origin[w.queue[i].ticket].kind == Purchase;
    assert HeadStable(v.slot, v.sent, v.queue) by {
      assert w.slot.op.SendsEntry() ==> i > 0;
    }
    assert SyncFresh(w.slot.op, w.answeredAtSync, v.history, Tickets(v.queue));
  }

  /** An undo keeps the head stable exactly when it does not take out the entry being
      sent. */
  lemma UndoKeepsHeadIff(w: World, id: Text, fate: FlushFate)
    requires Inv(w) && Holds(w.queue, id)
    ensures var v := Step(w, Undo(id, fate));
            HeadStable(v.slot, v.sent, v.queue) <==> !UndoesInFlight(w, id)
  {
    var v, u := Removed(w, id), Flushed(Removed(w, id), fate);
    assert u.slot == v.slot && u.sent == v.sent && u.queue == v.queue;
    if UndoesInFlight(w, id) {
      UndoneHead(w, id);
    } else {
      RemovedSlots(w, id);
    }
  }

  lemma UndoneHead(w: World, id: Text)
    requires Inv(w) && UndoesInFlight(w, id) && Holds(w.queue, id)
    ensures !HeadStable(w.slot, w.sent, Removed(w, id).queue)
  {
    var i := RemovedIs(w, id);
    assert i == 0;
    assert w.queue[..0] + w.queue[1..] == w.queue[1..];
    assert |w.queue| > 1 ==> w.queue[1].ticket != w.queue[0].ticket;
  }

  // ---- The server -------------------------------------------------------------

  /** What took effect stays in effect, whatever is served afterwards. */
  lemma EffectLasts(s: Sheet, e: Entry, admits: bool, f: Entry)
    requires TookEffect(s, f)
    ensures TookEffect(Served(s, e, admits), f)
  {
    if f.kind == Purchase || f.kind == Void {
      HasKept(s, e, admits, f.transactionId);
      ServedKeeps(s, e, admits);
    }
  }

  /** An accepting verdict is true at once. */
  lemma VerdictTrue(s: Sheet, e: Entry, admits: bool)
    requires UniqueIds(s.ledger) && Answer(s, e, admits).Accepted?
    ensures TookEffect(Served(s, e, admits), e)
  {
    var id, t := e.transactionId, Served(s, e, admits);
    if e.kind == Purchase {
      if !Has(s.ledger, id) {
        assert t.ledger[|s.ledger|].Id() == id;
      }
    } else if e.kind == Void {
      HasVoided(s.ledger, {id}, id);
      VoidedByReversal(s.ledger, {id}, id);
    }
  }

  lemma AcksLast(h: History, s: Sheet, e: Entry, admits: bool)
    requires AcksTrue(h, s)
    ensures AcksTrue(h, Served(s, e, admits))
  {
    forall t | t in h.acked
      ensures TookEffect(Served(s, e, admits), h.origin[t])
    {
      EffectLasts(s, e, admits, h.origin[t]);
    }
  }

  lemma SheetInv(w: World, e: Entry, admits: bool)
    requires Inv(w)
    ensures Inv(w.(sheet := Served(w.sheet, e, admits)))
  {
    var s := Served(w.sheet, e, admits);
    AcksLast(w.history, w.sheet, e, admits);
    assert UniqueIds(s.ledger) by {
      ServedKeeps(w.sheet, e, admits);
    }
    assert RepliesTrue(w.slot, w.client, w.reply, s) by {
      if w.slot.request.EntryRequest? && TookEffect(w.sheet, w.slot.request.entry) {
        EffectLasts(w.sheet, e, admits, w.slot.request.entry);
      }
    }
  }

  lemma ServeInv(w: World, admits: bool)
    requires Inv(w) && w.client.status == Busy
    ensures Inv(Step(w, Serve(admits)))
  {
    if w.client.request.EntryRequest? {
      var e := w.client.request.entry;
      var v := w.(sheet := Served(w.sheet, e, admits));
      SheetInv(w, e, admits);
      var reply := Some(Verdict(Answer(w.sheet, e, admits)));
      assert RepliesTrue(v.slot, v.client, reply, v.sheet) by {
        if Answer(w.sheet, e, admits).Accepted? {
          VerdictTrue(w.sheet, e, admits);
        }
      }
      assert Step(w, Serve(admits)) == v.(reply := reply);
    }
  }

  lemma WorkerInv(w: World, client: ApiClient.State)
    requires Inv(w) && w.client.status == Busy
    requires client.request == w.client.request && (client.status == Failed || client.status == Done)
    requires client.status == Done && client.request.EntryRequest? ==>
               client.body.ack == AckMalformed || w.reply == Some(client.body.ack)
    ensures Inv(w.(client := client))
  {
    assert HandedOver(w.slot, client);
    assert RepliesTrue(w.slot, client, w.reply, w.sheet);
  }

  // ---- One turn of the loop ---------------------------------------------------

  /** An operation ends: the slot is free and the client idle again. */
  lemma ReleasedInv(w: World, slot: Slot, client: ApiClient.State)
    requires Books(w) && slot.op == NoOp && !slot.posted && client.status == Idle
    ensures Inv(w.(slot := slot, client := client))
  {}

  lemma PostedInv(w: World, c: ApiClient.State)
    requires Inv(w) && w.slot.op != NoOp && !w.slot.posted
    requires c.status == Busy && c.request == w.slot.request
    ensures Inv(Posted(w.(slot := w.slot.(posted := true), client := c), true))
  {
    var v := Posted(w.(slot := w.slot.(posted := true), client := c), true);
    assert HeadStable(v.slot, v.sent, v.queue) && HandedOver(v.slot, v.client);
    assert RepliesTrue(v.slot, v.client, v.reply, v.sheet);
    assert SyncFresh(v.slot.op, v.answeredAtSync, v.history, Tickets(v.queue));
  }

  predicate Free(o: Backend.Outcome) {
    o.slot.op == NoOp && !o.slot.posted && o.client.status == Idle
  }

  /** A turn that ends the operation without an answer changes nothing but the slot,
      the client, and the revision a sync brought. */
  lemma EndsAs(w: World, o: Backend.Outcome)
    requires Free(o) && !o.popped
    ensures After(w, o) == w.(slot := o.slot, client := o.client,
                              revision := if o.sync.catalog.Some? then o.sync.catalog.value.revision else w.revision)
  {}

  lemma EndedInv(w: World, env: Env)
    requires Inv(w)
    requires var o := Turn(w, env); Free(o) && !o.popped
    ensures Inv(Ticked(w, env))
  {
    var o := Turn(w, env);
    EndsAs(w, o);
    ReleasedInv(w.(revision := Ticked(w, env).revision), o.slot, o.client);
  }

  lemma IdleAs(w: World, env: Env)
    requires w.slot.configured && w.slot.op == NoOp && !w.slot.posted
    ensures Ticked(w, env) == Noted(w, TickIdle(w.slot, HeadOf(Entries(w.queue)), w.revision, env))
  {
    var slot := TickIdle(w.slot, HeadOf(Entries(w.queue)), w.revision, env);
    assert Turn(w, env) == Quiet(slot, w.client);
    IdlePostsNothing(w.slot, HeadOf(Entries(w.queue)), w.revision, env);
    assert Noted(w, slot).client == w.client;
    assert After(w, Quiet(slot, w.client)) == Noted(w, slot);
  }

  lemma IdlePostsNothing(b: Slot, head: Option<Entry>, revision: Uint32, env: Env)
    requires !b.posted
    ensures !TickIdle(b, head, revision, env).posted
  {}

  lemma TickIdleInv(w: World, env: Env)
    requires Inv(w) && w.slot.configured && w.slot.op == NoOp
    ensures Inv(Ticked(w, env))
  {
    IdleAs(w, env);
    IdlesFairly(w.slot, w.queue, w.revision, env);
    NotedInv(w, TickIdle(w.slot, HeadOf(Entries(w.queue)), w.revision, env));
  }

  lemma PostedAfter(w: World, c: ApiClient.State)
    requires w.slot.op != NoOp && !w.slot.posted
    ensures After(w, Quiet(w.slot.(posted := true), c)) == Posted(w.(slot := w.slot.(posted := true), client := c), true)
  {}

  lemma StaysAsIs(w: World)
    ensures After(w, Quiet(w.slot, w.client)) == w
  {}

  /** Waiting for the radio: posted, given up, or still waiting. */
  lemma WaitingAs(w: World, env: Env)
    requires w.slot.configured && w.slot.op != NoOp && !w.slot.posted && w.client.status == Idle
    ensures var c := Post(w.client, true, env.stillOnline, w.slot.request, w.slot.requestLen).0;
            || Ticked(w, env) == w
            || (Free(Turn(w, env)) && !Turn(w, env).popped)
            || (c.status == Busy && c.request == w.slot.request
                && Ticked(w, env) == Posted(w.(slot := w.slot.(posted := true), client := c), true))
  {
    PostedAfter(w, Post(w.client, true, env.stillOnline, w.slot.request, w.slot.requestLen).0);
    StaysAsIs(w);
  }

  lemma TickWaitingInv(w: World, env: Env)
    requires Inv(w) && w.slot.configured && w.slot.op != NoOp && !w.slot.posted
    ensures Inv(Ticked(w, env))
  {
    WaitingAs(w, env);
    var o, c := Turn(w, env), Post(w.client, true, env.stillOnline, w.slot.request, w.slot.requestLen).0;
    if Free(o) && !o.popped {
      EndedInv(w, env);
    } else if Ticked(w, env) != w {
      PostedInv(w, c);
    }
  }

  lemma TicketsTail(q: seq<Item>)
    requires q != []
    ensures Tickets(q) == {q[0].ticket} + Tickets(q[1..])
  {
    TicketsWithout(q, 0);
    assert q[..0] + q[1..] == q[1..];
  }

  lemma AccountedAnswer(h: History, t: nat, rest: set<nat>, stored: set<nat>, window: bool)
    requires Accounted(h, {t} + rest, stored, window)
    ensures Accounted(h.(acked := h.acked + {t}), rest, stored, window)
    ensures Accounted(h.(refused := h.refused + {t}), rest, stored, window)
  {}

  lemma AcksGrow(h: History, s: Sheet, t: nat)
    requires AcksTrue(h, s) && t < |h.origin| && TookEffect(s, h.origin[t])
    ensures AcksTrue(h.(acked := h.acked + {t}), s)
  {}

  lemma RestTicketed(origin: seq<Entry>, q: seq<Item>)
    requires WellTicketed(origin, q) && q != []
    ensures WellTicketed(origin, q[1..]) && q[0].ticket < |origin| && origin[q[0].ticket] == q[0].entry
  {
    WellTicketedWithout(origin, q, 0);
    assert q[..0] + q[1..] == q[1..];
  }

  /** The answered entry leaves, and its answer goes on record. */
  lemma PoppedBooks(w: World, ack: AckOutcome)
    requires Books(w) && w.queue != [] && w.sent == Some(w.queue[0])
    requires ack.AckOk? ==> TookEffect(w.sheet, w.queue[0].entry)
    ensures Books(PoppedBy(w, ack))
  {
    var h, rest, t := w.history, w.queue[1..], w.queue[0].ticket;
    TicketsTail(w.queue);
    RestTicketed(h.origin, w.queue);
    AccountedAnswer(h, t, Tickets(rest), Tickets(w.disk), w.window);
    if ack.AckOk? {
      AcksGrow(h, w.sheet, t);
    }
  }

  predicate AnswerIn(w: World) {
    w.slot.configured && w.slot.op.SendsEntry() && w.slot.posted && w.client.status == Done
    && !w.client.body.ack.AckMalformed?
  }

  lemma PoppedAs(w: World, env: Env)
    requires AnswerIn(w)
    ensures var o := Turn(w, env);
            Free(o) && Ticked(w, env) == PoppedBy(w, w.client.body.ack).(slot := o.slot, client := o.client)
  {}

  /** A pop removes the very entry that was answered, and nothing else. */
  lemma PopsTheAnswered(w: World, env: Env)
    requires Inv(w) && AnswerIn(w)
    ensures var v, t := Ticked(w, env), w.queue[0].ticket;
            && w.client.request == EntryRequest(w.queue[0].entry)
            && v.queue == w.queue[1..] && v.slot.op == NoOp
            && v.history == (if w.client.body.ack.AckOk? then w.history.(acked := w.history.acked + {t})
                             else w.history.(refused := w.history.refused + {t}))
    ensures Inv(Ticked(w, env))
  {
    PoppedAs(w, env);
    PoppedBooks(w, w.client.body.ack);
    ReleasedInv(PoppedBy(w, w.client.body.ack), Turn(w, env).slot, Turn(w, env).client);
  }

  lemma PostedAs(w: World, env: Env)
    requires w.slot.configured && w.slot.op != NoOp && w.slot.posted && w.client.status != Idle && !AnswerIn(w)
    ensures Ticked(w, env) == w || (Free(Turn(w, env)) && !Turn(w, env).popped)
  {}

  lemma LoopTickInv(w: World, env: Env)
    requires Inv(w)
    ensures Inv(Ticked(w, env))
  {
    if !w.slot.configured {
      assert Ticked(w, env) == w;
    } else if w.slot.op == NoOp {
      TickIdleInv(w, env);
    } else if !w.slot.posted {
      TickWaitingInv(w, env);
    } else if AnswerIn(w) {
      PopsTheAnswered(w, env);
    } else {
      PostedAs(w, env);
      if Ticked(w, env) != w {
        EndedInv(w, env);
      }
    }
  }

  // ---- Every step -------------------------------------------------------------

  lemma RebootInv(w: World)
    requires Inv(w) && !w.window
    ensures Inv(Step(w, Reboot))
  {
    var h := w.history.(pushed := w.history.durable);
    var v := w.(queue := w.disk, sent := None, reply := None, history := h);
    assert Accounted(h, Tickets(w.disk), Tickets(w.disk), false);
    assert AcksTrue(h, w.sheet);
    ReleasedInv(v, AtPowerOn(w.slot.configured), w.client.(status := Idle));
  }

  /** A reboot keeps everything that was safely stored exactly if the queue file is not
      missing, or nothing stored is still open. */
  lemma RebootKeepsIff(w: World)
    requires Inv(w)
    ensures var h, v := w.history, Step(w, Reboot);
            h.durable <= Tickets(v.queue) + h.acked + h.refused + h.undone
            <==> !w.window || h.durable <= h.acked + h.refused + h.undone
  {
    assert Step(w, Reboot).queue == w.disk;
  }

  lemma EnqueueInv(w: World, e: Entry, fate: FlushFate, len: nat, now: Time)
    requires Inv(w)
    ensures Inv(Step(w, Enqueue(e, fate, len, now)))
  {
    if |w.queue| < MAX_QUEUED {
      var p := Pushed(w, e);
      assert Inv(p) by {
        PushedBooks(w, e);
        PushedSlots(w, e);
      }
      var f := Flushed(p, fate);
      FlushedInv(p, fate);
      SendsFairly(f.slot, f.queue, len, now);
      NotedInv(f, SendQueued(f.slot, HeadOf(Entries(f.queue)), len, now).0);
    }
  }

  lemma UndoInv(w: World, id: Text, fate: FlushFate)
    requires Inv(w) && Holds(w.queue, id) && !UndoesInFlight(w, id)
    ensures Inv(Step(w, Undo(id, fate)))
  {
    assert Inv(Removed(w, id)) by {
      RemovedBooks(w, id);
      RemovedSlots(w, id);
    }
    FlushedInv(Removed(w, id), fate);
  }

  lemma ClearInv(w: World)
    requires Inv(w)
    ensures Inv(Step(w, CallClear))
  {
    assert StartsFairly(w.slot, Clear(w.slot), w.queue);
    NotedInv(w, Clear(w.slot));
    assert Noted(w, Clear(w.slot)) == w.(slot := Clear(w.slot));
  }

  lemma StepInv(w: World, a: Action)
    requires Inv(w) && Enabled(w, a) && Safe(w, a)
    ensures Inv(Step(w, a))
  {
    match a
    case Enqueue(e, fate, len, now) => EnqueueInv(w, e, fate, len, now);
    case Undo(id, fate) => UndoInv(w, id, fate);
    case Flush(fate) => FlushedInv(w, fate);
    case LoopTick(env) => LoopTickInv(w, env);
    case CallSync(len, now) =>
      AsksFairly(w.slot, w.queue, w.revision, [], len, now, true);
      NotedInv(w, RequestSync(w.slot, w.revision, len, now).0);
    case CallMySummary(id, len, now) =>
      AsksFairly(w.slot, w.queue, w.revision, id, len, now, true);
      NotedInv(w, RequestMySummary(w.slot, id, len, now).0);
    case CallActive(active, len, now) =>
      AsksFairly(w.slot, w.queue, w.revision, [], len, now, active);
      NotedInv(w, SetActive(w.slot, active, w.revision, len, now));
    case CallClear => ClearInv(w);
    case Serve(admits) => ServeInv(w, admits);
    case ServeLate(e, admits) => SheetInv(w, e, admits);
    case Reply(body) => WorkerInv(w, w.client.(status := Done, body := body));
    case Break(error) => WorkerInv(w, w.client.(status := Failed, error := error));
    case Reboot => RebootInv(w);
  }
}
