/** The one-slot operation machine between the user interface and the network. */
module Backend {
  import opened Bits
  import opened Records
  import opened Wrappers
  import opened Settings
  import opened Clock
  import opened ApiClient
  import DeviceStorage
  import opened TransactionQueue
  import ProductCatalog
  import PurchaseLog

  datatype Op = NoOp | SyncOp | PurchaseOp | VoidOp | MySummaryOp {
    /** Carries the head of the queue. */
    predicate SendsEntry() {
      PurchaseOp? || VoidOp?
    }
  }

  datatype Result = NoResult | Pending | Success | Unreachable | Rejected
  datatype MySummaryState = NotAsked | Loading | Ready | Unavailable

  /** How long an operation may wait for the radio before it is given up. */
  const OP_TIMEOUT_MS: nat := WIFI_CONNECT_TIMEOUT_MS + REQUEST_TIMEOUT_MS + 5000
  const MAX_BACKOFF_MS: nat := 120_000
  const MAX_FAILURES: nat := 6

  datatype Slot = Slot(
    configured: bool,
    op: Op,
    posted: bool,
    deadline: Time,
    request: Request,
    requestLen: nat,
    result: Result,
    duplicate: bool,
    lastSync: Time,
    active: bool,
    retryAfter: Time,
    sendFailures: nat,
    myState: MySummaryState,
    myResident: Text)

  /** What one call of update() finds outside the backend: the loop's time and the
      clock read again, the radio at two moments, and the lengths of the requests it
      builds, zero for one that does not fit its buffer. */
  datatype Env = Env(now: Time, millis: Time, online: bool, stillOnline: bool, len: nat, myLen: nat)

  // ---- The operations as functions --------------------------------------------

  function Finish(b: Slot, r: Result): Slot {
    b.(result := if b.op == SyncOp || b.op == MySummaryOp then NoResult else r, op := NoOp, posted := false)
  }

  function Start(b: Slot, op: Op, request: Request, len: nat, now: Time): (Slot, bool) {
    if len == 0 then (b, false)
    else
      var s := b.(op := op, posted := false, request := request, requestLen := len, deadline := Add(now, OP_TIMEOUT_MS));
      (if op == SyncOp then s else s.(result := Pending, duplicate := false), true)
  }

  function Backoff(failures: nat): nat
    requires failures <= MAX_FAILURES
  {
    var wait := 2000 * Bits.Pow2(failures);
    if wait > MAX_BACKOFF_MS then MAX_BACKOFF_MS else wait
  }

  function NoteSendFailure(b: Slot, now: Time): Slot {
    var n := if b.sendFailures < MAX_FAILURES then b.sendFailures + 1 else b.sendFailures;
    b.(sendFailures := n, retryAfter := Add(now, if n <= MAX_FAILURES then Backoff(n) else MAX_BACKOFF_MS))
  }

  function RequestSync(b: Slot, revision: Uint32, len: nat, now: Time): (Slot, bool) {
    if !b.configured || b.op != NoOp then (b, false) else Start(b, SyncOp, SyncRequest(revision), len, now)
  }

  function OpFor(e: Entry): Op {
    if e.kind == Void then VoidOp else PurchaseOp
  }

  function SendQueued(b: Slot, head: Option<Entry>, len: nat, now: Time): (Slot, bool) {
    if !b.configured || b.op != NoOp || head.None? then (b, false)
    else Start(b, OpFor(head.value), EntryRequest(head.value), len, now)
  }

  function RequestMySummary(b: Slot, residentId: Text, len: nat, now: Time): (Slot, bool) {
    if !b.configured || residentId == [] then (b.(myState := Unavailable), false)
    else
      var s := b.(myResident := residentId, myState := Loading);
      if s.op != NoOp then (s, true)
      else
        var (t, started) := Start(s, MySummaryOp, MySummaryRequest(residentId), len, now);
        if started then (t, true) else (s.(myState := Unavailable), false)
  }

  function SetActive(b: Slot, active: bool, revision: Uint32, len: nat, now: Time): Slot {
    if active == b.active then b
    else
      var s := b.(active := active);
      if active && (s.lastSync == 0 || Due(now, Add(s.lastSync, SYNC_ON_WAKE_MIN_MS)))
      then RequestSync(s, revision, len, now).0 else s
  }

  function Clear(b: Slot): Slot {
    b.(result := NoResult, duplicate := false)
  }

  /** What a finished sync changes on the device. */
  datatype SyncEffect = SyncEffect(
    summary: Option<seq<Tally>>,
    residents: Option<seq<Resident>>,
    catalog: Option<SyncBody>)

  const NOTHING: SyncEffect := SyncEffect(None, None, None)

  function ApplySync(body: Option<SyncBody>, changesQueued: bool, revision: Uint32): SyncEffect {
    match body
    case None => NOTHING
    case Some(s) =>
      var summary := if s.hasSummary then Some(s.summary) else None;
      if changesQueued then SyncEffect(summary, None, None)
      else if !s.changed && s.revision == revision then SyncEffect(summary, None, None)
      else SyncEffect(summary, if |s.residents| > 0 then Some(s.residents) else None, Some(s))
  }

  datatype Outcome = Outcome(slot: Slot, client: ApiClient.State, popped: bool, sync: SyncEffect)

  function Quiet(b: Slot, c: ApiClient.State): Outcome {
    Outcome(b, c, false, NOTHING)
  }

  /** The slot and the client give the request up; the queue keeps its entry. */
  function GiveUp(b: Slot, c: ApiClient.State, now: Time): Outcome {
    var s := Finish(NoteSendFailure(b, now), Unreachable);
    Quiet(if b.op == SyncOp then s.(lastSync := now) else s, Reset(c))
  }

  function TickIdle(b: Slot, head: Option<Entry>, revision: Uint32, env: Env): Slot {
    var wanted := b.myState == Loading && b.myResident != [];
    var (s, started) :=
      if wanted then Start(b, MySummaryOp, MySummaryRequest(b.myResident), env.myLen, env.now) else (b, false);
    if started then s
    else
      var t := if wanted then b.(myState := Unavailable) else b;
      if head.Some? then (if Due(env.now, t.retryAfter) then SendQueued(t, head, env.len, env.millis).0 else t)
      else if t.active && Due(env.now, Add(t.lastSync, SYNC_INTERVAL_MS)) then RequestSync(t, revision, env.len, env.millis).0
      else t
  }

  function TickWaiting(b: Slot, c: ApiClient.State, env: Env): Outcome {
    if env.online then
      var (c', ok) := Post(c, b.configured, env.stillOnline, b.request, b.requestLen);
      if ok then Quiet(b.(posted := true), c')
      else if c'.error != BusyError then GiveUp(b, c', env.now)
      else Quiet(b, c')
    else if Due(env.now, b.deadline) then
      GiveUp(if b.op == MySummaryOp then b.(myState := Unavailable) else b, c, env.now)
    else Quiet(b, c)
  }

  function TickDone(b: Slot, changesQueued: bool, revision: Uint32, c: ApiClient.State, now: Time): Outcome {
    match b.op
    case MySummaryOp =>
      Quiet(Finish(b.(myState := if c.body.mySummary then Ready else Unavailable), NoResult), Reset(c))
    case SyncOp =>
      Outcome(Finish(b.(lastSync := now), NoResult), Reset(c), false, ApplySync(c.body.sync, changesQueued, revision))
    case _ =>
      match c.body.ack
      case AckOk(duplicate) =>
        Outcome(Finish(b.(duplicate := duplicate, sendFailures := 0, lastSync := 0), Success), Reset(c), true, NOTHING)
      case AckRejected => Outcome(Finish(b, Rejected), Reset(c), true, NOTHING)
      case AckMalformed => GiveUp(b, c, now)
  }

  /** One call of update(). */
  function Tick(b: Slot, head: Option<Entry>, changesQueued: bool, revision: Uint32, c: ApiClient.State, env: Env): Outcome {
    if !b.configured then Quiet(b, c)
    else if b.op == NoOp then Quiet(TickIdle(b, head, revision, env), c)
    else if !b.posted then TickWaiting(b, c, env)
    else
      match c.status
      case Busy => Quiet(b, c)
      case Failed => GiveUp(if b.op == MySummaryOp then b.(myState := Unavailable) else b, c, env.now)
      case Idle => Quiet(b, c)
      case Done => TickDone(b, changesQueued, revision, c, env.now)
  }

  function HeadOf(q: seq<Entry>): Option<Entry> {
    if q == [] then None else Some(q[0])
  }

  /** Whether there is a backend and a worker does not change. */
  lemma TickKeepsDevice(b: Slot, head: Option<Entry>, changes: bool, revision: Uint32, c: ApiClient.State, env: Env)
    ensures var o := Tick(b, head, changes, revision, c, env);
            o.slot.configured == b.configured && o.client.ready == c.ready
  {
    if b.configured && b.op == NoOp {
      IdleConfigured(b, head, revision, env);
    } else if b.configured && !b.posted {
      var o := TickWaiting(b, c, env);
      assert o.slot.configured && o.client.ready == c.ready;
    } else if b.configured && c.status == Done {
      var o := TickDone(b, changes, revision, c, env.now);
      assert o.slot.configured && o.client.ready == c.ready;
    }
  }

  lemma IdleConfigured(b: Slot, head: Option<Entry>, revision: Uint32, env: Env)
    ensures TickIdle(b, head, revision, env).configured == b.configured
  {}

  // ---- Draining ---------------------------------------------------------------

  /** The next attempt is held back for 4 to 120 seconds. */
  ghost predicate HeldBack(b: Slot, now: Time) {
    exists wait: nat :: 4000 <= wait <= MAX_BACKOFF_MS && b.retryAfter == Add(now, wait)
  }

  lemma GivenUp(b: Slot, c: ApiClient.State, now: Time)
    requires b.op.SendsEntry()
    ensures var s := GiveUp(b, c, now).slot;
            s.op == NoOp && s.result == Unreachable && HeldBack(s, now)
  {
    var n := if b.sendFailures < MAX_FAILURES then b.sendFailures + 1 else b.sendFailures;
    var wait := if n <= MAX_FAILURES then Backoff(n) else MAX_BACKOFF_MS;
    if n <= MAX_FAILURES {
      BackoffBounds(n);
    }
    assert GiveUp(b, c, now).slot.retryAfter == Add(now, wait);
  }

  /** An attempt that ends either was answered, and exactly then the entry leaves the
      queue; or was not, and then the entry stays and the next attempt is held back. */
  lemma AttemptEnds(b: Slot, head: Option<Entry>, changesQueued: bool, revision: Uint32, c: ApiClient.State, env: Env)
    requires b.configured && b.op.SendsEntry()
    ensures var o := Tick(b, head, changesQueued, revision, c, env);
            && (o.popped <==> b.posted && c.status == Done && !c.body.ack.AckMalformed?)
            && (o.popped ==> o.slot.op == NoOp && o.slot.result == if c.body.ack.AckOk? then Success else Rejected)
            && (!o.popped && o.slot.op == NoOp ==> o.slot.result == Unreachable && HeldBack(o.slot, env.now))
            && (o.slot.op != NoOp ==> o.slot == b.(posted := o.slot.posted))
  {
    GivenUp(b, c, env.now);
    GivenUp(b, Post(c, b.configured, env.stillOnline, b.request, b.requestLen).0, env.now);
  }

  /** A free slot goes to a waiting overview, then to the queue, and only then to a sync;
      a queue that is held back keeps a sync out as well. */
  lemma SlotOrder(b: Slot, head: Option<Entry>, revision: Uint32, env: Env)
    requires b.configured && b.op == NoOp
    ensures var s := TickIdle(b, head, revision, env);
            var overview := b.myState == Loading && b.myResident != [] && env.myLen > 0;
            && (s.op == MySummaryOp <==> overview)
            && (s.op.SendsEntry() <==> !overview && head.Some? && Due(env.now, b.retryAfter) && env.len > 0)
            && (s.op == SyncOp <==> !overview && head.None? && b.active && env.len > 0
                                    && Due(env.now, Add(b.lastSync, SYNC_INTERVAL_MS)))
            && (s.op.SendsEntry() ==> s.request == EntryRequest(head.value))
  {}

  /** An acknowledgement resets the time of the last sync, so that fresh figures are
      pulled. With an empty queue a sync then starts exactly if an even number of half
      cycles of the clock lies behind the tenth minute after power-on: not in the first
      ten minutes, and not in every other 25 days. */
  lemma SyncAfterAckIff(b: Slot, revision: Uint32, env: Env, now: int)
    requires b.configured && b.op == NoOp && b.lastSync == 0 && b.active && b.myState != Loading
    requires env.len > 0 && env.now == Shown(now)
    ensures TickIdle(b, None, revision, env).op == SyncOp <==> (now - SYNC_INTERVAL_MS) / HALF % 2 == 0
  {
    assert Add(0, SYNC_INTERVAL_MS) == Shown(SYNC_INTERVAL_MS);
    DueIff(now, SYNC_INTERVAL_MS);
  }

  lemma BackoffBounds(n: nat)
    requires 1 <= n <= MAX_FAILURES
    ensures 4000 <= Backoff(n) <= MAX_BACKOFF_MS
    ensures Backoff(n) == if n == MAX_FAILURES then MAX_BACKOFF_MS else 2000 * Bits.Pow2(n)
  {
    assert Bits.Pow2(1) == 2 && Bits.Pow2(2) == 4 && Bits.Pow2(3) == 8;
    assert Bits.Pow2(4) == 16 && Bits.Pow2(5) == 32 && Bits.Pow2(6) == 64;
  }

  /** From two minutes after an unanswered attempt on, the next one is enabled. */
  lemma NextAttemptEnabled(t: int, wait: nat, later: int)
    requires wait <= MAX_BACKOFF_MS && t + MAX_BACKOFF_MS <= later < t + HALF
    ensures Due(Shown(later), Add(Shown(t), wait))
  {
    AddShown(t, wait);
    DueWithinHalf(later, t + wait);
  }

  /** The drain starts the head's request exactly when nothing else wants the slot and
      an even number of half cycles of the clock lies behind the retry time: a device
      that has met no failure for 25 days drains nothing by itself for the next 25,
      until another entry is pushed and sends the head. */
  lemma DrainsIff(b: Slot, head: Option<Entry>, revision: Uint32, env: Env, now: int, retry: int)
    requires b.configured && b.op == NoOp && head.Some? && b.myState != Loading && env.len > 0
    requires env.now == Shown(now) && b.retryAfter == Shown(retry)
    ensures TickIdle(b, head, revision, env).op.SendsEntry() <==> (now - retry) / HALF % 2 == 0
    ensures !TickIdle(b, head, revision, env).op.SendsEntry() ==> TickIdle(b, head, revision, env) == b
  {
    DueIff(now, retry);
  }

  // ---- The globals ------------------------------------------------------------

  class Service {
    /** The backend's own variables, as one record. */
    var slot: Slot
    var residents: seq<Resident>
    /** What flash held at every start of an entry's request, in order. */
    ghost var startedOn: seq<DeviceStorage.Files>

    const queue: Queue
    const client: Client
    const catalog: ProductCatalog.Catalog
    const log: PurchaseLog.Log

    ghost predicate Valid()
      reads this, queue, queue.items, catalog, catalog.items, log
    {
      queue.Valid() && catalog.Valid() && log.Valid() && log.queue == queue
    }

    constructor (configured: bool, queue: Queue, client: Client, catalog: ProductCatalog.Catalog, log: PurchaseLog.Log)
      requires queue.Valid() && catalog.Valid() && log.Valid() && log.queue == queue
      ensures Valid() && slot == AtPowerOn(configured) && residents == []
      ensures this.queue == queue && this.client == client && this.catalog == catalog && this.log == log
    {
      this.queue, this.client, this.catalog, this.log := queue, client, catalog, log;
      slot, residents := AtPowerOn(configured), [];
    }

    method FinishOp(r: Result)
      modifies this`slot, client
      ensures slot == Finish(old(slot), r) && client.state == Reset(old(client.state))
    {
      var shown := if slot.op == SyncOp || slot.op == MySummaryOp then NoResult else r;
      slot := slot.(result := shown, op := NoOp, posted := false);
      client.ResetStatus();
    }

    method StartOp(op: Op, request: Request, len: nat, now: Time) returns (ok: bool)
      modifies this`slot
      ensures (slot, ok) == Start(old(slot), op, request, len, now)
    {
      if len == 0 {
        return false;
      }
      slot := slot.(op := op, posted := false, request := request, requestLen := len);
      slot := slot.(deadline := Add(now, OP_TIMEOUT_MS));
      if op != SyncOp {
        slot := slot.(result := Pending, duplicate := false);
      }
      return true;
    }

    method NoteFailure(now: Time)
      modifies this`slot
      ensures slot == NoteSendFailure(old(slot), now)
    {
      if slot.sendFailures < MAX_FAILURES {
        slot := slot.(sendFailures := slot.sendFailures + 1);
      }
      var wait := if slot.sendFailures <= MAX_FAILURES then 2000 * Bits.Pow2(slot.sendFailures) else MAX_BACKOFF_MS;
      slot := slot.(retryAfter := Add(now, if wait > MAX_BACKOFF_MS then MAX_BACKOFF_MS else wait));
    }

    method SyncNow(len: nat, now: Time) returns (ok: bool)
      modifies this`slot
      ensures (slot, ok) == RequestSync(old(slot), catalog.revision, len, now)
    {
      if !slot.configured || slot.op != NoOp {
        return false;
      }
      ok := StartOp(SyncOp, SyncRequest(catalog.revision), len, now);
    }

    method SendQueuedNow(len: nat, now: Time) returns (ok: bool)
      requires queue.Valid()
      modifies this`slot, this`startedOn
      ensures (slot, ok) == SendQueued(old(slot), HeadOf(queue.Contents()), len, now)
      ensures startedOn == old(startedOn) + if ok then [queue.flash.files] else []
    {
      if !slot.configured || slot.op != NoOp {
        return false;
      }
      var head := queue.Head();
      if head.None? {
        return false;
      }
      ok := StartOp(if head.value.kind == Void then VoidOp else PurchaseOp, EntryRequest(head.value), len, now);
      if ok {
        startedOn := startedOn + [queue.flash.files];
      }
    }

    method AskMySummary(residentId: Text, len: nat, now: Time) returns (ok: bool)
      modifies this`slot
      ensures (slot, ok) == RequestMySummary(old(slot), residentId, len, now)
    {
      if !slot.configured || residentId == [] {
        slot := slot.(myState := Unavailable);
        return false;
      }
      slot := slot.(myResident := residentId, myState := Loading);
      if slot.op != NoOp {
        return true;
      }
      ok := StartOp(MySummaryOp, MySummaryRequest(slot.myResident), len, now);
      if !ok {
        slot := slot.(myState := Unavailable);
      }
    }

    method Activate(active: bool, len: nat, now: Time)
      modifies this`slot
      ensures slot == SetActive(old(slot), active, catalog.revision, len, now)
    {
      if active == slot.active {
        return;
      }
      slot := slot.(active := active);
      if !active {
        return;
      }
      if slot.lastSync == 0 || Due(now, Add(slot.lastSync, SYNC_ON_WAKE_MIN_MS)) {
        var _ := SyncNow(len, now);
      }
    }

    method ClearResult()
      modifies this`slot
      ensures slot == Clear(old(slot))
    {
      slot := slot.(result := NoResult, duplicate := false);
    }

    /** A sync that can be read is in. */
    predicate SyncIn()
      reads this, client
    {
      slot.configured && slot.op == SyncOp && slot.posted && client.state.status == Done && client.state.body.sync.Some?
    }

    /** What a sync leaves of the device's lists. */
    twostate predicate Applied(effect: SyncEffect)
      requires old(Valid()) && Valid()
      reads this, queue, queue.items, catalog, catalog.items, log, log.baseline
    {
      && log.Baseline() == (if effect.summary.Some? then effect.summary.value else old(log.Baseline()))
      && residents == (if effect.residents.Some? then effect.residents.value else old(residents))
      && catalog.Contents() == (if effect.catalog.Some?
                                then ProductCatalog.Merged(old(catalog.Contents()), effect.catalog.value.products)
                                else old(catalog.Contents()))
      && catalog.revision == (if effect.catalog.Some? then effect.catalog.value.revision else old(catalog.revision))
    }

    /** And in full: the figures if they were sent; the catalog, its revision and the
        residents unless a product change of ours is queued or nothing is new. */
    twostate predicate Landed(s: SyncBody)
      requires old(Valid()) && Valid()
      reads this, queue, queue.items, catalog, catalog.items, log, log.baseline
    {
      var news := !ChangesProducts(old(queue.Contents())) && (s.changed || s.revision != old(catalog.revision));
      && log.Baseline() == (if s.hasSummary then s.summary else old(log.Baseline()))
      && residents == (if news && |s.residents| > 0 then s.residents else old(residents))
      && catalog.revision == (if news then s.revision else old(catalog.revision))
      && if news then s.products <= catalog.Contents() else catalog.Contents() == old(catalog.Contents())
    }

    method ApplySyncBody()
      requires Valid()
      modifies this`residents, catalog, catalog.items, log, log.baseline, log.view
      ensures Valid() && queue.Contents() == old(queue.Contents())
      ensures Applied(ApplySync(client.state.body.sync, ChangesProducts(queue.Contents()), old(catalog.revision)))
      ensures client.state.body.sync.Some? ==> Landed(client.state.body.sync.value)
    {
      if client.state.body.sync.None? {
        return;
      }
      var body := client.state.body.sync.value;
      if body.hasSummary {
        log.SetBaseline(body.summary);
      }
      var changes := queue.HasProductChanges();
      if changes {
        return;
      }
      if !body.changed && body.revision == catalog.revision {
        return;
      }
      if |body.residents| > 0 {
        residents := body.residents;
      }
      var _ := catalog.ReplaceAll(body.products, body.revision);
    }

    method GiveUpOp(now: Time)
      modifies this`slot, client
      ensures slot == GiveUp(old(slot), old(client.state), now).slot
      ensures client.state == GiveUp(old(slot), old(client.state), now).client
    {
      var wasSync := slot.op == SyncOp;
      NoteFailure(now);
      FinishOp(Unreachable);
      if wasSync {
        slot := slot.(lastSync := now);
      }
    }

    method UpdateIdle(env: Env)
      requires queue.Valid() && slot.configured && slot.op == NoOp
      modifies this`slot, this`startedOn
      ensures slot == TickIdle(old(slot), HeadOf(queue.Contents()), catalog.revision, env)
    {
      if slot.myState == Loading && slot.myResident != [] {
        var started := StartOp(MySummaryOp, MySummaryRequest(slot.myResident), env.myLen, env.now);
        if started {
          return;
        }
        slot := slot.(myState := Unavailable);
      }
      var head := queue.Head();
      if head.Some? {
        if Due(env.now, slot.retryAfter) {
          var _ := SendQueuedNow(env.len, env.millis);
        }
        return;
      }
      if slot.active && Due(env.now, Add(slot.lastSync, SYNC_INTERVAL_MS)) {
        var _ := SyncNow(env.len, env.millis);
      }
    }

    method UpdateWaiting(env: Env)
      requires !slot.posted
      modifies this`slot, client
      ensures var o := TickWaiting(old(slot), old(client.state), env);
              slot == o.slot && client.state == o.client && !o.popped && o.sync == NOTHING
    {
      if env.online {
        var ok := client.PostRequest(slot.configured, env.stillOnline, slot.request, slot.requestLen);
        if ok {
          slot := slot.(posted := true);
        } else if client.state.error != BusyError {
          GiveUpOp(env.now);
        }
      } else if Due(env.now, slot.deadline) {
        if slot.op == MySummaryOp {
          slot := slot.(myState := Unavailable);
        }
        GiveUpOp(env.now);
      }
    }

    method UpdateAnswered(now: Time)
      requires queue.Valid() && slot.op.SendsEntry()
      modifies this`slot, client, queue, queue.items
      ensures queue.Valid()
      ensures !queue.dirty ==> !old(queue.dirty) && queue.Contents() == old(queue.Contents())
      ensures var o := TickDone(old(slot), false, 0, old(client.state), now);
              && slot == o.slot && client.state == o.client && o.sync == NOTHING
              && queue.Contents() == if o.popped then Popped(old(queue.Contents())) else old(queue.Contents())
    {
      match client.state.body.ack
      case AckOk(dup) =>
        slot := slot.(duplicate := dup);
        queue.Pop();
        slot := slot.(sendFailures := 0, lastSync := 0);
        FinishOp(Success);
      case AckRejected =>
        queue.Pop();
        FinishOp(Rejected);
      case AckMalformed =>
        GiveUpOp(now);
    }

    /** What one call of update() owes its specification. */
    twostate predicate Ticked(o: Outcome)
      requires old(Valid()) && Valid()
      reads this, client, queue, queue.items, catalog, catalog.items, log, log.baseline
    {
      && slot == o.slot && client.state == o.client
      && queue.Contents() == (if o.popped then Popped(old(queue.Contents())) else old(queue.Contents()))
      && Applied(o.sync)
    }

    method Update(env: Env)
      requires Valid()
      modifies this, client, queue, queue.items, catalog, catalog.items, log, log.baseline, log.view
      ensures Valid()
      ensures !queue.dirty ==> !old(queue.dirty) && queue.Contents() == old(queue.Contents())
      ensures Ticked(Tick(old(slot), HeadOf(old(queue.Contents())), ChangesProducts(old(queue.Contents())),
                          old(catalog.revision), old(client.state), env))
      ensures old(SyncIn()) ==> Landed(old(client.state.body.sync.value))
    {
      if !slot.configured {
        return;
      }
      if slot.op == NoOp {
        UpdateIdle(env);
        return;
      }
      if !slot.posted {
        UpdateWaiting(env);
        return;
      }
      UpdatePosted(env);
    }

    /** The worker has the request, or has had it. */
    method UpdatePosted(env: Env)
      requires Valid() && slot.configured && slot.op != NoOp && slot.posted
      modifies this, client, queue, queue.items, catalog, catalog.items, log, log.baseline, log.view
      ensures Valid()
      ensures !queue.dirty ==> !old(queue.dirty) && queue.Contents() == old(queue.Contents())
      ensures Ticked(Tick(old(slot), HeadOf(old(queue.Contents())), ChangesProducts(old(queue.Contents())),
                          old(catalog.revision), old(client.state), env))
      ensures old(SyncIn()) ==> Landed(old(client.state.body.sync.value))
    {
      match client.state.status
      case Busy =>
      case Idle =>
      case Failed =>
        if slot.op == MySummaryOp {
          slot := slot.(myState := Unavailable);
        }
        GiveUpOp(env.now);
      case Done =>
        UpdateDone(env.now);
    }

    method UpdateDone(now: Time)
      requires Valid() && slot.op != NoOp
      modifies this, client, queue, queue.items, catalog, catalog.items, log, log.baseline, log.view
      ensures Valid()
      ensures !queue.dirty ==> !old(queue.dirty) && queue.Contents() == old(queue.Contents())
      ensures Ticked(TickDone(old(slot), ChangesProducts(old(queue.Contents())), old(catalog.revision), old(client.state), now))
      ensures old(slot.op) == SyncOp && old(client.state.body.sync).Some? ==> Landed(old(client.state.body.sync.value))
    {
      if slot.op == MySummaryOp {
        slot := slot.(myState := if client.state.body.mySummary then Ready else Unavailable);
        FinishOp(NoResult);
      } else if slot.op == SyncOp {
        ApplySyncBody();
        slot := slot.(lastSync := now);
        FinishOp(NoResult);
      } else {
        UpdateAnswered(now);
      }
    }
  }

  /** pop() does nothing on an empty queue. */
  function Popped<T>(q: seq<T>): seq<T> {
    if q == [] then q else q[1..]
  }

  function AtPowerOn(configured: bool): Slot {
    Slot(configured, NoOp, false, 0, NoRequest, 0, NoResult, false, 0, true, 0, 0, NotAsked, [])
  }
}
