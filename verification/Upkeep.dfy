/** What the end of an operation leaves behind, kind by kind, and what starts one: the
    sync and the lists it brings, the answers to the queue, the overview, the radio. */
module Upkeep {
  import opened Bits
  import opened Records
  import opened Wrappers
  import opened Clock
  import opened ApiClient
  import opened TransactionQueue
  import opened Backend

  /** The answer to what the slot has under way is there. */
  predicate Answered(b: Slot, c: ApiClient.State) {
    b.configured && b.op != NoOp && b.posted && c.status == Done
  }

  // ---- The sync ---------------------------------------------------------------

  /** Figures are taken over whenever they are sent. The catalog is exactly if no product
      change of ours is queued and the server says it changed or its revision is another
      one than ours; and the residents are, if there are any, with it. */
  lemma SyncApplies(b: Slot, head: Option<Entry>, changes: bool, revision: Uint32, c: ApiClient.State, env: Env, s: SyncBody)
    requires Answered(b, c) && b.op == SyncOp && c.body.sync == Some(s)
    ensures var o := Tick(b, head, changes, revision, c, env);
            var news := !changes && (s.changed || s.revision != revision);
            && o.sync.summary == (if s.hasSummary then Some(s.summary) else None)
            && o.sync.catalog == (if news then Some(s) else None)
            && o.sync.residents == (if news && |s.residents| > 0 then Some(s.residents) else None)
  {}

  /** Nothing else brings lists, and neither does a sync that cannot be read. */
  lemma OnlySyncApplies(b: Slot, head: Option<Entry>, changes: bool, revision: Uint32, c: ApiClient.State, env: Env)
    requires !Answered(b, c) || b.op != SyncOp || c.body.sync.None?
    ensures var o := Tick(b, head, changes, revision, c, env);
            o.sync.summary.None? && o.sync.catalog.None? && o.sync.residents.None?
  {
    if b.configured && b.op != NoOp && !b.posted {
      assert TickWaiting(b, c, env).sync == NOTHING;
    }
  }

  /** A queue holds the sync's catalog off if and only if it archives, restores, creates or
      prices a product. */
  lemma HoldsOffIff(q: seq<Entry>)
    ensures ChangesProducts(q) <==>
              exists i :: 0 <= i < |q| && (q[i].kind == Archive || q[i].kind == Restore || q[i].kind == Create
                                           || q[i].kind == ChangePrice)
  {
    if ChangesProducts(q) {
      var i :| 0 <= i < |q| && q[i].kind.IsProductChange();
      assert q[i].kind == Archive || q[i].kind == Restore || q[i].kind == Create || q[i].kind == ChangePrice;
    }
    if i :| 0 <= i < |q| && (q[i].kind == Archive || q[i].kind == Restore || q[i].kind == Create || q[i].kind == ChangePrice) {
      assert q[i].kind.IsProductChange();
    }
  }

  /** The sync ends without a result for the screens, and the next one counts from now. */
  lemma SyncEnds(b: Slot, head: Option<Entry>, changes: bool, revision: Uint32, c: ApiClient.State, env: Env)
    requires Answered(b, c) && b.op == SyncOp
    ensures var o := Tick(b, head, changes, revision, c, env);
            o.slot == b.(op := NoOp, posted := false, result := NoResult, lastSync := env.now)
            && !o.popped && o.client == c.(status := Idle)
  {}

  // ---- The answers to the queue -----------------------------------------------

  /** An acknowledgement ends the attempt, forgets the failures and asks for fresh figures. */
  lemma AckEnds(b: Slot, head: Option<Entry>, changes: bool, revision: Uint32, c: ApiClient.State, env: Env, duplicate: bool)
    requires Answered(b, c) && (b.op == PurchaseOp || b.op == VoidOp) && c.body.ack == AckOk(duplicate)
    ensures var o := Tick(b, head, changes, revision, c, env);
            && o.popped && o.client == c.(status := Idle)
            && o.slot == b.(op := NoOp, posted := false, result := Success, duplicate := duplicate, sendFailures := 0,
                            lastSync := 0)
  {}

  /** A refusal ends it too, and changes nothing else. */
  lemma RejectionEnds(b: Slot, head: Option<Entry>, changes: bool, revision: Uint32, c: ApiClient.State, env: Env)
    requires Answered(b, c) && (b.op == PurchaseOp || b.op == VoidOp) && c.body.ack == AckRejected
    ensures var o := Tick(b, head, changes, revision, c, env);
            && o.popped && o.client == c.(status := Idle)
            && o.slot == b.(op := NoOp, posted := false, result := Rejected)
  {}

  /** No answer: an unreadable one, a failed request, or one that could not be handed over. */
  predicate Unanswered(b: Slot, c: ApiClient.State, env: Env) {
    && b.configured && b.op != NoOp
    && if b.posted then c.status == Failed || (c.status == Done && b.op.SendsEntry() && c.body.ack == AckMalformed)
       else c.status == Idle
            && if env.online then !(env.stillOnline && c.ready && 0 < b.requestLen < 640) else Due(env.now, b.deadline)
  }

  /** The waits after one, two and more failures in a row, in milliseconds. */
  const WAITS: seq<nat> := [4000, 8000, 16000, 32000, 64000, 120000]

  /** The entry stays, the slot is free, and the next attempt is held back for twice as
      long as the one before, up to two minutes; a sync counts as made. */
  predicate GivenUp(b: Slot, o: Outcome, now: Time)
    requires b.sendFailures <= 6
  {
    var n := if b.sendFailures < 6 then b.sendFailures + 1 else 6;
    && !o.popped && o.client.status == Idle && o.slot.op == NoOp && !o.slot.posted
    && o.slot.sendFailures == n && o.slot.retryAfter == Add(now, WAITS[n - 1])
    && o.slot.result == (if b.op.SendsEntry() then Unreachable else NoResult)
    && o.slot.lastSync == (if b.op == SyncOp then now else b.lastSync)
  }

  lemma GiveUpIs(b: Slot, c: ApiClient.State, now: Time)
    requires b.sendFailures <= 6 && b.op != NoOp
    ensures GivenUp(b, GiveUp(b, c, now), now)
  {
    BackoffIs(if b.sendFailures < 6 then b.sendFailures + 1 else 6);
  }

  lemma FailureEnds(b: Slot, head: Option<Entry>, changes: bool, revision: Uint32, c: ApiClient.State, env: Env)
    requires Unanswered(b, c, env) && b.sendFailures <= 6
    ensures GivenUp(b, Tick(b, head, changes, revision, c, env), env.now)
  {
    GiveUpIs(b, c, env.now);
    GiveUpIs(b.(myState := Unavailable), c, env.now);
    GiveUpIs(b, Post(c, true, env.stillOnline, b.request, b.requestLen).0, env.now);
  }

  lemma BackoffIs(n: nat)
    requires 1 <= n <= 6
    ensures Backoff(n) == WAITS[n - 1]
  {
    assert Bits.Pow2(1) == 2;
    assert Bits.Pow2(3) == 8;
    assert Bits.Pow2(5) == 32;
  }

  // ---- The radio --------------------------------------------------------------

  /** A started request waits for the radio for 32 seconds, enough to associate and to be
      answered, and then for every other half cycle of the clock. */
  lemma WaitsForRadio(b: Slot, op: Op, request: Request, len: nat, start: int, head: Option<Entry>, changes: bool,
                      revision: Uint32, c: ApiClient.State, env: Env, now: int)
    requires b.configured && op != NoOp && len > 0 && !env.online && env.now == Shown(now)
    ensures var s := Start(b, op, request, len, Shown(start)).0;
            var o := Tick(s, head, changes, revision, c, env);
            && s.request == request && s.requestLen == len
            && (o.slot.op == NoOp <==> (now - start - 32000) / 0x8000_0000 % 2 == 0)
            && (o.slot.op != NoOp ==> o.slot == s && o.client == c)
            && (0 <= now - start < 32000 ==> o.slot == s)
  {
    AddShown(start, 32000);
    DueIff(now, start + 32000);
  }

  /** With the radio up it is handed over at once, as it was built. */
  lemma HandsOver(b: Slot, head: Option<Entry>, changes: bool, revision: Uint32, c: ApiClient.State, env: Env)
    requires b.configured && b.op != NoOp && !b.posted && env.online && env.stillOnline
    requires c.ready && c.status == Idle && 0 < b.requestLen < 640
    ensures var o := Tick(b, head, changes, revision, c, env);
            && o.slot == b.(posted := true) && !o.popped
            && o.client == c.(request := b.request, error := NoError, status := Busy)
  {}

  // ---- Waking -----------------------------------------------------------------

  /** Waking starts a sync on a free slot exactly if there was none since power-on or the
      last acknowledgement, or a minute has passed since the last one; going to sleep, or
      staying as it is, starts nothing. */
  lemma WakesWithSync(b: Slot, active: bool, revision: Uint32, len: nat, last: int, now: int)
    requires b.configured && b.op == NoOp && len > 0 && b.lastSync == Shown(last)
    ensures var s := SetActive(b, active, revision, len, Shown(now));
            && s.active == active
            && (s.op == SyncOp <==> active && !b.active && (b.lastSync == 0 || (now - last - 60000) / 0x8000_0000 % 2 == 0))
            && (s.op == SyncOp ==> s.request == SyncRequest(revision))
            && (s.op != SyncOp ==> s == b.(active := active))
  {
    AddShown(last, 60000);
    DueIff(now, last + 60000);
  }

  /** An operation under way is left alone. */
  lemma WakesQuietly(b: Slot, active: bool, revision: Uint32, len: nat, now: Time)
    requires b.op != NoOp || !b.configured
    ensures SetActive(b, active, revision, len, now) == b.(active := active)
  {}

  // ---- The overview -----------------------------------------------------------

  /** Asking for the overview starts it on a free slot, parks it behind a running operation,
      and gives it up without a backend, without a resident, or if it cannot be built. */
  lemma OverviewAsked(b: Slot, id: Text, len: nat, now: Time)
    ensures var (s, ok) := RequestMySummary(b, id, len, now);
            && (ok <==> b.configured && id != [] && (b.op != NoOp || len > 0))
            && s.myState == (if ok then Loading else Unavailable)
            && (ok ==> s.myResident == id)
            && (s.op != b.op ==> s.op == MySummaryOp && s.request == MySummaryRequest(id))
            && (s.op == MySummaryOp && b.op != MySummaryOp <==> ok && b.op == NoOp)
  {}

  /** A parked one is started by the first turn that finds the slot free, for the resident
      that was asked for. */
  lemma OverviewUnparked(b: Slot, head: Option<Entry>, changes: bool, revision: Uint32, c: ApiClient.State, env: Env)
    requires b.configured && b.op == NoOp && b.myState == Loading && b.myResident != [] && env.myLen > 0
    ensures var s := Tick(b, head, changes, revision, c, env).slot;
            s.op == MySummaryOp && s.request == MySummaryRequest(b.myResident) && s.myState == Loading
  {}

  /** Its answer makes it ready exactly if it can be read, and no answer unavailable. */
  lemma OverviewEnds(b: Slot, head: Option<Entry>, changes: bool, revision: Uint32, c: ApiClient.State, env: Env)
    requires b.configured && b.op == MySummaryOp && b.posted && (c.status == Done || c.status == Failed)
    ensures var o := Tick(b, head, changes, revision, c, env);
            && o.slot.myState == (if c.status == Done && c.body.mySummary then Ready else Unavailable)
            && o.slot.op == NoOp && o.slot.result == NoResult && !o.popped
  {}

  // ---- A free slot ------------------------------------------------------------

  /** With nothing queued and nobody waiting for figures, a sync is started while somebody
      is there, exactly from ten minutes after the last one in every other half cycle. */
  lemma SyncsEveryTenMinutes(b: Slot, changes: bool, revision: Uint32, c: ApiClient.State, env: Env, last: int, now: int)
    requires b.configured && b.op == NoOp && b.myState != Loading && env.len > 0
    requires b.lastSync == Shown(last) && env.now == Shown(now)
    ensures var s := Tick(b, None, changes, revision, c, env).slot;
            && (s.op == SyncOp <==> b.active && (now - last - 600000) / 0x8000_0000 % 2 == 0)
            && (s.op == SyncOp ==> s.request == SyncRequest(revision)) && (s.op != SyncOp ==> s == b)
  {
    AddShown(last, 600000);
    DueIff(now, last + 600000);
  }

  /** A device that has just been switched on sends the head of its queue, and asks for the
      catalog after ten minutes at the latest. */
  lemma PowerOnDrains(head: Entry, changes: bool, revision: Uint32, c: ApiClient.State, env: Env, now: int)
    requires env.now == Shown(now) && 0 <= now < 0x8000_0000 && env.len > 0
    ensures var s := Tick(AtPowerOn(true), Some(head), changes, revision, c, env).slot;
            s.op.SendsEntry() && s.request == EntryRequest(head)
    ensures var s := Tick(AtPowerOn(true), None, changes, revision, c, env).slot;
            s.op == SyncOp <==> now >= 600000
  {
    DueIff(now, 0);
    SyncsEveryTenMinutes(AtPowerOn(true), changes, revision, c, env, 0, now);
  }

  /** What is sent for the head of the queue: its own request, as a reversal if it is one. */
  lemma HeadSent(b: Slot, e: Entry, len: nat, now: Time)
    ensures var (s, sent) := SendQueued(b, Some(e), len, now);
            && (sent <==> b.configured && b.op == NoOp && len > 0) && (!sent ==> s == b)
            && (sent ==> s.request == EntryRequest(e) && s.op == (if e.kind == Void then VoidOp else PurchaseOp)
                         && s.result == Pending && s.deadline == Add(now, 32000))
    ensures SendQueued(b, None, len, now) == (b, false)
  {}

  /** A refused request says what was missing. */
  lemma RefusalNames(c: ApiClient.State, configured: bool, online: bool, request: Request, len: nat)
    requires !Post(c, configured, online, request, len).1
    ensures var error := Post(c, configured, online, request, len).0.error;
            && (error == NotConfigured <==> !configured)
            && (error == BusyError <==> configured && c.ready && c.status != Idle)
            && (error == Offline <==> configured && c.ready && c.status == Idle && !online)
            && (error == Transport <==> configured && (!c.ready || (c.status == Idle && online && (len == 0 || len >= 640))))
  {}
}
