/** What holds after every run of the delivery system. */
module Runs {
  import opened Bits
  import opened Records
  import opened Settings
  import opened Clock
  import opened ApiClient
  import opened TransactionQueue
  import opened Backend
  import opened Server
  import opened Replay
  import opened Delivery

  ghost function Run(w: World, actions: seq<Action>): World
    decreases |actions|
  {
    if |actions| == 0 then w else Run(Step(w, actions[0]), actions[1..])
  }

  /** Every step is possible, no purchase is undone while it is being sent, and the
      power does not fail while the queue file is missing. */
  ghost predicate Legal(w: World, actions: seq<Action>)
    decreases |actions|
  {
    |actions| > 0 ==>
      Enabled(w, actions[0]) && Safe(w, actions[0]) && Legal(Step(w, actions[0]), actions[1..])
  }

  lemma {:induction false} RunKeeps(w: World, actions: seq<Action>)
    requires Inv(w) && Legal(w, actions)
    ensures Inv(Run(w, actions))
    decreases |actions|
  {
    if |actions| > 0 {
      StepInv(w, actions[0]);
      RunKeeps(Step(w, actions[0]), actions[1..]);
    }
  }

  lemma {:induction false} RunAppend(w: World, p: seq<Action>, r: seq<Action>)
    ensures Run(w, p + r) == Run(Run(w, p), r)
    ensures Legal(w, p + r) <==> Legal(w, p) && Legal(Run(w, p), r)
    decreases |p|
  {
    if |p| == 0 {
      assert p + r == r;
    } else {
      assert (p + r)[1..] == p[1..] + r;
      RunAppend(Step(w, p[0]), p[1..], r);
    }
  }

  lemma RunOne(w: World, a: Action)
    ensures Run(w, [a]) == Step(w, a)
    ensures Legal(w, [a]) <==> Enabled(w, a) && Safe(w, a)
  {
    assert [a][1..] == [];
  }

  lemma RunFirst(w: World, a: Action, rest: seq<Action>)
    ensures Run(w, [a] + rest) == Run(Step(w, a), rest)
    ensures Legal(w, [a] + rest) <==> Enabled(w, a) && Safe(w, a) && Legal(Step(w, a), rest)
  {
    assert ([a] + rest)[1..] == rest;
  }

  lemma AsksKeepDevice(b: Slot, revision: Uint32, id: Text, active: bool, len: nat, now: Time)
    ensures RequestSync(b, revision, len, now).0.configured == b.configured
    ensures RequestMySummary(b, id, len, now).0.configured == b.configured
    ensures SetActive(b, active, revision, len, now).configured == b.configured
  {}

  lemma NotedAs(w: World, slot: Slot)
    ensures Noted(w, slot).slot == slot && Noted(w, slot).client == w.client
  {}

  lemma StepKeepsDevice(w: World, a: Action)
    ensures Step(w, a).slot.configured == w.slot.configured && Step(w, a).client.ready == w.client.ready
  {
    match a
    case LoopTick(env) =>
      TickKeepsDevice(w.slot, HeadOf(Entries(w.queue)), ChangesProducts(Entries(w.queue)), w.revision, w.client, env);
      SlotAfter(w, Turn(w, env));
    case Enqueue(e, fate, len, now) => EnqueueKeepsDevice(w, e, fate, len, now);
    case Undo(id, fate) => FlushedAside(Removed(w, id), fate);
    case Flush(fate) => FlushedAside(w, fate);
    case CallSync(len, now) =>
      AsksKeepDevice(w.slot, w.revision, [], true, len, now);
      NotedAs(w, RequestSync(w.slot, w.revision, len, now).0);
    case CallMySummary(id, len, now) =>
      AsksKeepDevice(w.slot, w.revision, id, true, len, now);
      NotedAs(w, RequestMySummary(w.slot, id, len, now).0);
    case CallActive(active, len, now) =>
      AsksKeepDevice(w.slot, w.revision, [], active, len, now);
      NotedAs(w, SetActive(w.slot, active, w.revision, len, now));
    case _ =>
  }

  lemma FlushedAside(w: World, fate: FlushFate)
    ensures var v := Flushed(w, fate);
            && v.slot == w.slot && v.client == w.client && v.queue == w.queue && v.sheet == w.sheet
            && v.outbox == w.outbox && v.reply == w.reply && v.history.origin == w.history.origin
  {}

  lemma EnqueueKeepsDevice(w: World, e: Entry, fate: FlushFate, len: nat, now: Time)
    ensures var v := Step(w, Enqueue(e, fate, len, now));
            v.slot.configured == w.slot.configured && v.client == w.client
  {
    var f := Flushed(Pushed(w, e), fate);
    assert f.slot == w.slot && f.client == w.client;
    var v := SendNow(f, len, now);
    assert v.slot == SendQueued(f.slot, HeadOf(Entries(f.queue)), len, now).0 && v.client == f.client;
  }

  /** Whether there is a backend and a worker does not change. */
  lemma {:induction false} RunKeepsDevice(w: World, actions: seq<Action>)
    ensures Run(w, actions).slot.configured == w.slot.configured && Run(w, actions).client.ready == w.client.ready
    decreases |actions|
  {
    if |actions| > 0 {
      StepKeepsDevice(w, actions[0]);
      RunKeepsDevice(Step(w, actions[0]), actions[1..]);
    }
  }

  // ---- Exactly once -----------------------------------------------------------

  ghost predicate OneRow(rows: Ledger, id: Text) {
    exists i :: 0 <= i < |rows| && rows[i].Id() == id && forall j :: 0 <= j < |rows| && rows[j].Id() == id ==> j == i
  }

  /** An entry is queued, or was refused, or was taken back, or was acknowledged; and an
      acknowledged purchase stands in the sheet under exactly one row, an acknowledged
      reversal leaves that one row reverted. */
  ghost predicate Settled(w: World, t: nat) {
    var h := w.history;
    && t < |h.origin|
    && (t in Tickets(w.queue) || t in h.refused || t in h.undone || t in h.acked)
    && (t in h.undone ==> h.origin[t].kind == Purchase)
    && (t in h.acked && (h.origin[t].kind == Purchase || h.origin[t].kind == Void) ==>
          OneRow(w.sheet.ledger, h.origin[t].transactionId))
    && (t in h.acked && h.origin[t].kind == Void ==> Reverted(w.sheet.ledger, h.origin[t].transactionId))
  }

  /** Whatever was once safely stored is settled after every run of pushes, failed
      flushes, lost requests, lost replies, effects that come late or twice, refusals,
      undos and reboots. */
  lemma ExactlyOnce(start: World, actions: seq<Action>, t: nat)
    requires Init(start) && Legal(start, actions)
    requires t in Run(start, actions).history.durable
    ensures Settled(Run(start, actions), t)
  {
    InitInv(start);
    RunKeeps(start, actions);
    SettledNow(Run(start, actions), t);
  }

  lemma SettledNow(w: World, t: nat)
    requires Inv(w) && t in w.history.pushed
    ensures Settled(w, t)
  {
    var h := w.history;
    assert t in Tickets(w.queue) + h.acked + h.refused + h.undone;
    if t in h.acked && (h.origin[t].kind == Purchase || h.origin[t].kind == Void) {
      assert TookEffect(w.sheet, h.origin[t]);
      OnlyRow(w.sheet.ledger, h.origin[t].transactionId);
    }
  }

  lemma OnlyRow(rows: Ledger, id: Text)
    requires UniqueIds(rows) && Has(rows, id)
    ensures OneRow(rows, id)
  {
    var i :| 0 <= i < |rows| && rows[i].Id() == id;
    assert forall j :: 0 <= j < |rows| && rows[j].Id() == id ==> !(j < i) && !(i < j);
  }

  // ---- The catalog a sync brings ----------------------------------------------

  /** A sync never takes back a product change of ours: by the time its catalog is
      applied, every change that was pushed had been answered before that sync was
      started, and none is queued. */
  lemma SyncKeepsChanges(start: World, actions: seq<Action>, env: Env, t: nat)
    requires Init(start) && Legal(start, actions)
    requires Turn(Run(start, actions), env).sync.catalog.Some?
    requires t in Run(start, actions).history.pushed && IsChange(Run(start, actions).history, t)
    ensures var w := Run(start, actions);
            t in w.answeredAtSync && t !in Tickets(w.queue)
  {
    var w := Run(start, actions);
    InitInv(start);
    RunKeeps(start, actions);
    AppliesOnly(w, env);
    QueuedChangeSeen(w.history, w.queue, t);
  }

  lemma AppliesOnly(w: World, env: Env)
    requires Turn(w, env).sync.catalog.Some?
    ensures w.slot.op == SyncOp && !ChangesProducts(Entries(w.queue))
  {}

  lemma QueuedChangeSeen(h: History, q: seq<Item>, t: nat)
    requires WellTicketed(h.origin, q) && IsChange(h, t)
    ensures t in Tickets(q) ==> ChangesProducts(Entries(q))
  {
    if t in Tickets(q) {
      var i :| 0 <= i < |q| && q[i].ticket == t;
      assert Entries(q)[i].kind.IsProductChange();
    }
  }

  /** When a sync starts, what has been answered by then is noted. */
  ghost predicate StartNoted(w: World, v: World) {
    w.slot.op != SyncOp && v.slot.op == SyncOp ==> v.answeredAtSync == w.history.acked + w.history.refused
  }

  lemma SyncStarts(w: World, a: Action)
    requires Inv(w)
    ensures StartNoted(w, Step(w, a))
  {
    match a
    case LoopTick(env) => TickStartsSync(w, env);
    case Enqueue(e, fate, len, now) => EnqueueStartsNoSync(w, e, fate, len, now);
    case CallSync(len, now) => NoteTaken(w, RequestSync(w.slot, w.revision, len, now).0);
    case CallMySummary(id, len, now) => NoteTaken(w, RequestMySummary(w.slot, id, len, now).0);
    case CallActive(active, len, now) => NoteTaken(w, SetActive(w.slot, active, w.revision, len, now));
    case _ => OthersStartNothing(w, a);
  }

  predicate Concerns(a: Action) {
    a.LoopTick? || a.Enqueue? || a.CallSync? || a.CallMySummary? || a.CallActive?
  }

  lemma OthersStartNothing(w: World, a: Action)
    requires !Concerns(a)
    ensures Step(w, a).slot.op == w.slot.op || Step(w, a).slot.op == NoOp
  {
    match a
    case Undo(id, fate) => FlushedAside(Removed(w, id), fate);
    case Flush(fate) => FlushedAside(w, fate);
    case _ =>
  }

  lemma NoteTaken(w: World, slot: Slot)
    ensures StartNoted(w, Noted(w, slot))
  {}

  lemma EnqueueStartsNoSync(w: World, e: Entry, fate: FlushFate, len: nat, now: Time)
    ensures StartNoted(w, Step(w, Enqueue(e, fate, len, now)))
  {
    var f := Flushed(Pushed(w, e), fate);
    assert f.slot == w.slot;
    assert SendNow(f, len, now).slot == SendQueued(f.slot, HeadOf(Entries(f.queue)), len, now).0;
  }

  lemma TickStartsSync(w: World, env: Env)
    requires Inv(w)
    ensures StartNoted(w, Ticked(w, env))
  {
    if w.slot.configured && w.slot.op == NoOp {
      IdleAs(w, env);
      NoteTaken(w, TickIdle(w.slot, HeadOf(Entries(w.queue)), w.revision, env));
    } else {
      KeepsOp(w, env);
      SlotAfter(w, Turn(w, env));
    }
  }

  lemma SlotAfter(w: World, o: Backend.Outcome)
    ensures After(w, o).slot == o.slot && After(w, o).client == o.client
  {
    var noted := Noted(w, o.slot).(client := o.client);
    assert noted.slot == o.slot;
    var posted := Posted(noted, o.slot.posted && !w.slot.posted);
    assert posted.slot == o.slot && posted.client == o.client;
    var popped := if o.popped then PoppedBy(posted, w.client.body.ack) else posted;
    assert popped.slot == o.slot && popped.client == o.client;
  }

  /** A running operation ends or goes on; it does not turn into another one. */
  lemma KeepsOp(w: World, env: Env)
    requires w.slot.op != NoOp || !w.slot.configured
    ensures Turn(w, env).slot.op == NoOp || Turn(w, env).slot.op == w.slot.op
  {
    if w.slot.configured && !w.slot.posted {
      var op := TickWaiting(w.slot, w.client, env).slot.op;
      assert op == NoOp || op == w.slot.op;
    } else if w.slot.configured && w.client.status == Done {
      assert TickDone(w.slot, ChangesProducts(Entries(w.queue)), w.revision, w.client, env.now).slot.op == NoOp;
    }
  }

  // ---- Where rows come from ---------------------------------------------------

  ghost predicate Recorded(rows: Ledger, e: Entry) {
    exists i :: 0 <= i < |rows| && rows[i].purchase == e
  }

  ghost predicate WasPushed(origin: seq<Entry>, e: Entry) {
    exists t :: 0 <= t < |origin| && origin[t] == e
  }

  /** Every row was there before or records a request that was sent, and nothing is
      sent that the user did not enter. */
  ghost predicate Sourced(rows: Ledger, before: Ledger, outbox: set<Entry>) {
    forall i :: 0 <= i < |rows| ==>
      Recorded(before, rows[i].purchase) || (rows[i].purchase in outbox && rows[i].purchase.kind == Purchase)
  }

  ghost predicate OutboxTrue(origin: seq<Entry>, outbox: set<Entry>, slot: Slot) {
    && (forall e :: e in outbox ==> WasPushed(origin, e))
    && (slot.op != NoOp && slot.request.EntryRequest? ==> slot.op.SendsEntry())
    && (slot.posted && slot.request.EntryRequest? ==> slot.request.entry in outbox)
  }

  ghost predicate Traced(w: World, before: Ledger) {
    OutboxTrue(w.history.origin, w.outbox, w.slot) && Sourced(w.sheet.ledger, before, w.outbox)
  }

  lemma ServedSourced(s: Sheet, e: Entry, admits: bool, before: Ledger, outbox: set<Entry>)
    requires Sourced(s.ledger, before, outbox) && e in outbox
    ensures Sourced(Served(s, e, admits).ledger, before, outbox)
  {}

  lemma ServeTraced(w: World, admits: bool, before: Ledger)
    requires Inv(w) && w.client.status == Busy && Traced(w, before)
    ensures Traced(Step(w, Serve(admits)), before)
  {
    if w.client.request.EntryRequest? {
      ServedSourced(w.sheet, w.client.request.entry, admits, before, w.outbox);
    }
  }

  lemma NotedTraced(w: World, slot: Slot, before: Ledger)
    requires Traced(w, before) && StartsFairly(w.slot, slot, w.queue)
    ensures Traced(Noted(w, slot), before)
  {
    var v := Noted(w, slot);
    assert v.slot == slot && v.outbox == w.outbox && v.sheet == w.sheet && v.history == w.history;
  }

  lemma EnqueueTraced(w: World, e: Entry, fate: FlushFate, len: nat, now: Time, before: Ledger)
    requires Traced(w, before)
    ensures Traced(Step(w, Enqueue(e, fate, len, now)), before)
  {
    if |w.queue| < MAX_QUEUED {
      var f, origin := Flushed(Pushed(w, e), fate), w.history.origin;
      assert f.slot == w.slot && f.outbox == w.outbox && f.sheet == w.sheet && f.history.origin == origin + [e];
      forall x | WasPushed(origin, x)
        ensures WasPushed(origin + [e], x)
      {
        var t :| 0 <= t < |origin| && origin[t] == x;
        assert (origin + [e])[t] == x;
      }
      SendsFairly(f.slot, f.queue, len, now);
      NotedTraced(f, SendQueued(f.slot, HeadOf(Entries(f.queue)), len, now).0, before);
    }
  }

  lemma PostedTraced(w: World, c: ApiClient.State, before: Ledger)
    requires Inv(w) && Traced(w, before) && w.slot.op != NoOp
    ensures Traced(Posted(w.(slot := w.slot.(posted := true), client := c), true), before)
  {
    var v := Posted(w.(slot := w.slot.(posted := true), client := c), true);
    assert v.sheet == w.sheet && v.history == w.history && v.slot == w.slot.(posted := true);
    if w.slot.request.EntryRequest? {
      assert w.history.origin[w.queue[0].ticket] == w.slot.request.entry;
      assert v.outbox == w.outbox + {w.slot.request.entry};
    } else {
      assert v.outbox == w.outbox;
    }
  }

  lemma TickTraced(w: World, env: Env, before: Ledger)
    requires Inv(w) && Traced(w, before)
    ensures Traced(Ticked(w, env), before)
  {
    if !w.slot.configured {
      assert Ticked(w, env) == w;
    } else if w.slot.op == NoOp {
      IdleAs(w, env);
      IdlesFairly(w.slot, w.queue, w.revision, env);
      NotedTraced(w, TickIdle(w.slot, HeadOf(Entries(w.queue)), w.revision, env), before);
    } else {
      RunningTraced(w, env, before);
    }
  }

  lemma RunningTraced(w: World, env: Env, before: Ledger)
    requires Inv(w) && Traced(w, before) && w.slot.configured && w.slot.op != NoOp
    ensures Traced(Ticked(w, env), before)
  {
    if Free(Turn(w, env)) && !Turn(w, env).popped {
      EndsAs(w, Turn(w, env));
    } else if w.slot.posted {
      if AnswerIn(w) {
        PoppedAs(w, env);
      } else {
        PostedAs(w, env);
      }
    } else {
      WaitingAs(w, env);
      PostedTraced(w, Post(w.client, true, env.stillOnline, w.slot.request, w.slot.requestLen).0, before);
    }
  }

  lemma StepTraced(w: World, a: Action, before: Ledger)
    requires Inv(w) && Traced(w, before) && Enabled(w, a)
    ensures Traced(Step(w, a), before)
  {
    match a
    case Enqueue(e, fate, len, now) => EnqueueTraced(w, e, fate, len, now, before);
    case LoopTick(env) => TickTraced(w, env, before);
    case CallSync(len, now) =>
      AsksFairly(w.slot, w.queue, w.revision, [], len, now, true);
      NotedTraced(w, RequestSync(w.slot, w.revision, len, now).0, before);
    case CallMySummary(id, len, now) =>
      AsksFairly(w.slot, w.queue, w.revision, id, len, now, true);
      NotedTraced(w, RequestMySummary(w.slot, id, len, now).0, before);
    case CallActive(active, len, now) =>
      AsksFairly(w.slot, w.queue, w.revision, [], len, now, active);
      NotedTraced(w, SetActive(w.slot, active, w.revision, len, now), before);
    case Serve(admits) => ServeTraced(w, admits, before);
    case ServeLate(e, admits) => ServedSourced(w.sheet, e, admits, before, w.outbox);
    case _ => OthersTraced(w, a, before);
  }

  lemma OthersTraced(w: World, a: Action, before: Ledger)
    requires Traced(w, before) && !Concerns(a) && !a.Serve? && !a.ServeLate?
    ensures Traced(Step(w, a), before)
  {
    match a
    case Undo(id, fate) => FlushedAside(Removed(w, id), fate);
    case Flush(fate) => FlushedAside(w, fate);
    case _ =>
  }

  lemma {:induction false} RunTraced(w: World, actions: seq<Action>, before: Ledger)
    requires Inv(w) && Legal(w, actions) && Traced(w, before)
    ensures Traced(Run(w, actions), before)
    decreases |actions|
  {
    if |actions| > 0 {
      StepInv(w, actions[0]);
      StepTraced(w, actions[0], before);
      RunTraced(Step(w, actions[0]), actions[1..], before);
    }
  }

  /** Nobody is charged for what was not entered and sent: a row that was not in the
      sheet before records an entry the user pushed and the device sent. */
  lemma NothingInvented(start: World, actions: seq<Action>, i: nat)
    requires Init(start) && Legal(start, actions) && i < |Run(start, actions).sheet.ledger|
    ensures var w := Run(start, actions);
            var e := w.sheet.ledger[i].purchase;
            Recorded(start.sheet.ledger, e) || (e in w.outbox && e.kind == Purchase && WasPushed(w.history.origin, e))
  {
    InitInv(start);
    RunTraced(start, actions, start.sheet.ledger);
  }

  ghost predicate WasSent(outbox: set<Entry>, id: Text) {
    exists e :: e in outbox && e.kind == Purchase && e.transactionId == id
  }

  /** So an id under which no purchase was ever sent is not charged: one that is undone
      before its first request leaves no row. */
  lemma UnsentUncharged(start: World, actions: seq<Action>, id: Text)
    requires Init(start) && Legal(start, actions) && !Has(start.sheet.ledger, id)
    ensures Has(Run(start, actions).sheet.ledger, id) ==> WasSent(Run(start, actions).outbox, id)
  {
    var rows := Run(start, actions).sheet.ledger;
    if Has(rows, id) {
      var i :| 0 <= i < |rows| && rows[i].Id() == id;
      NothingInvented(start, actions, i);
      if Recorded(start.sheet.ledger, rows[i].purchase) {
        RecordedHas(start.sheet.ledger, rows[i].purchase);
      }
    }
  }

  lemma RecordedHas(rows: Ledger, e: Entry)
    requires Recorded(rows, e)
    ensures Has(rows, e.transactionId)
  {
    var j :| 0 <= j < |rows| && rows[j].purchase == e;
    assert rows[j].Id() == e.transactionId;
  }
}
