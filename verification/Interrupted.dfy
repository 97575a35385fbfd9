/** A queue on its way to the server while nothing new is entered: requests and replies
    get lost, effects come late, the main loop flushes or fails to, and the power fails, in
    any order and any number of times. */
module Interrupted {
  import opened Records
  import opened ApiClient
  import opened Backend
  import opened Server
  import opened Replay
  import opened Resend
  import opened Delivery
  import opened Runs
  import opened Drain
  import opened Boot

  /** A drain: the sheet and the queue it begins with, the requests that were out before,
      whether no effect comes late, and how the server judges an entry. */
  datatype Course = Course(s: Sheet, es: seq<Entry>, known: set<Entry>, calm: bool, admits: Validator)

  /** Everything but new entries, undos, and late effects of what was sent before. */
  predicate Quiet(w: World, a: Action, c: Course) {
    match a
    case Enqueue(_, _, _, _) => false
    case Undo(_, _) => false
    case ServeLate(e, ok) => !c.calm && e !in c.known && ok == c.admits(e)
    case Serve(ok) => w.client.request.EntryRequest? ==> ok == c.admits(w.client.request.entry)
    case _ => true
  }

  ghost predicate QuietRun(w: World, actions: seq<Action>, c: Course)
    decreases |actions|
  {
    |actions| > 0 ==> Quiet(w, actions[0], c) && QuietRun(Step(w, actions[0]), actions[1..], c)
  }

  // ---- Where the queue stands -------------------------------------------------

  /** The server has judged the head of the queue; the device may not know yet. */
  predicate Judged(w: World) {
    && w.slot.posted && w.slot.op.SendsEntry()
    && (w.reply.Some? || (w.client.status == Done && !w.client.body.ack.AckMalformed?))
  }

  /** The ledger has the first h entries, and the head too, once that is judged. */
  ghost predicate LedgerStands(queue: seq<Entry>, judged: bool, t: Sheet, c: Course, h: nat) {
    && |queue| <= |c.es| && |c.es| - |queue| <= h <= |c.es|
    && LedgerAt(c.s, c.es, h, t.ledger, c.admits)
    && (judged && queue != [] ==> |c.es| - |queue| < h)
  }

  /** And so has the whole sheet, while no effect comes late. */
  ghost predicate SheetStands(queue: seq<Entry>, judged: bool, t: Sheet, c: Course) {
    && |queue| <= |c.es|
    && SheetAt(c.s, c.es, |c.es| - |queue|, t, c.admits)
    && (judged && queue != [] ==> SheetAt(c.s, c.es, |c.es| - |queue| + 1, t, c.admits))
  }

  /** Memory and flash hold ends of the queue. */
  predicate AreEnds(queue: seq<Entry>, disk: seq<Entry>, window: bool, es: seq<Entry>) {
    && |queue| <= |es| && queue == es[|es| - |queue|..]
    && (!window ==> |queue| <= |disk| <= |es| && disk == es[|es| - |disk|..])
  }

  ghost predicate Stands(queue: seq<Entry>, disk: seq<Entry>, window: bool, judged: bool, t: Sheet, c: Course, h: nat) {
    && AreEnds(queue, disk, window, c.es) && LedgerStands(queue, judged, t, c, h)
    && (c.calm ==> SheetStands(queue, judged, t, c))
  }

  /** What was sent since is one of the first entries, or the one behind them. */
  ghost predicate Tracked(outbox: set<Entry>, c: Course, h: nat) {
    forall e :: e in outbox ==> e in c.known || exists i :: 0 <= i <= h && i < |c.es| && c.es[i] == e
  }

  ghost predicate OnCourse(w: World, c: Course, h: nat) {
    Stands(Entries(w.queue), Entries(w.disk), w.window, Judged(w), w.sheet, c, h) && Tracked(w.outbox, c, h)
  }

  lemma Pops(queue: seq<Entry>, disk: seq<Entry>, window: bool, t: Sheet, c: Course, h: nat)
    requires queue != [] && Stands(queue, disk, window, true, t, c, h)
    ensures Stands(queue[1..], disk, window, false, t, c, h)
  {
    var i := |c.es| - |queue|;
    assert c.es[i..][1..] == c.es[i + 1..];
  }

  lemma Serves(queue: seq<Entry>, disk: seq<Entry>, window: bool, was: bool, judged: bool, t: Sheet, c: Course, h: nat)
    requires queue != [] && Stands(queue, disk, window, was, t, c, h)
    ensures Stands(queue, disk, window, judged, Served(t, queue[0], c.admits(queue[0])), c, Further(h, |c.es| - |queue|))
  {
    var i := |c.es| - |queue|;
    assert queue[0] == c.es[i];
    LedgerMoves(c.s, c.es, h, i, t, c.admits);
    if c.calm {
      MovesOnOrStays(c.s, c.es, i, t, c.admits);
    }
  }

  lemma Reboots(queue: seq<Entry>, disk: seq<Entry>, was: bool, t: Sheet, c: Course, h: nat)
    requires Stands(queue, disk, false, was, t, c, h)
    ensures Stands(disk, disk, false, false, t, c, h)
  {
    if c.calm {
      FallsBack(c.s, c.es, |c.es| - |queue|, |c.es| - |disk|, t, c.admits);
    }
  }

  /** Nothing happened that concerns the queue or the server, other than that the head may
      have been handed to the worker. */
  ghost predicate Aside(w: World, v: World) {
    && v.queue == w.queue && v.disk == w.disk && v.window == w.window && v.sheet == w.sheet
    && (Judged(v) ==> Judged(w))
    && forall e :: e in v.outbox ==> e in w.outbox || (w.queue != [] && e == w.queue[0].entry)
  }

  lemma StaysOnCourse(w: World, v: World, c: Course, h: nat)
    requires OnCourse(w, c, h) && Aside(w, v)
    ensures OnCourse(v, c, h)
  {
    forall e | e in v.outbox && e !in c.known
      ensures exists i :: 0 <= i <= h && i < |c.es| && c.es[i] == e
    {
      if e !in w.outbox {
        assert e == Entries(w.queue)[0] == c.es[|c.es| - |w.queue|];
      }
    }
  }

  lemma NotedAside(w: World, slot: Slot)
    requires Inv(w) && StartsFairly(w.slot, slot, w.queue)
    ensures Aside(w, Noted(w, slot))
  {
    var v := Noted(w, slot);
    assert v.queue == w.queue && v.disk == w.disk && v.window == w.window && v.sheet == w.sheet && v.outbox == w.outbox;
    assert v.slot == slot && v.client == w.client && v.reply == w.reply;
  }

  lemma PostedAside(w: World, c: ApiClient.State)
    requires c.status == Busy
    requires w.slot.request.EntryRequest? ==> w.queue != [] && w.slot.request.entry == w.queue[0].entry
    ensures Aside(w, Posted(w.(slot := w.slot.(posted := true), client := c), true))
  {}

  /** A turn of the loop that brings no answer stays aside. */
  lemma TickAside(w: World, env: Env)
    requires Inv(w) && CarriesHead(w) && !AnswerIn(w)
    ensures Aside(w, Ticked(w, env))
  {
    assert HandedOver(w.slot, w.client);
    if !w.slot.configured {
      assert Ticked(w, env) == w;
    } else if w.slot.op == NoOp {
      IdleAs(w, env);
      IdlesFairly(w.slot, w.queue, w.revision, env);
      NotedAside(w, TickIdle(w.slot, HeadOf(Entries(w.queue)), w.revision, env));
    } else {
      RunningAside(w, env);
    }
  }

  /** An operation with an entry has the head of the queue. */
  predicate CarriesHead(w: World) {
    w.slot.op != NoOp && w.slot.request.EntryRequest? ==> w.queue != [] && w.slot.request.entry == w.queue[0].entry
  }

  lemma HeadCarried(w: World, before: Ledger)
    requires HeadStable(w.slot, w.sent, w.queue) && OutboxTrue(w.history.origin, w.outbox, w.slot)
    ensures CarriesHead(w)
  {}

  lemma RunningAside(w: World, env: Env)
    requires HandedOver(w.slot, w.client) && CarriesHead(w) && w.slot.configured && w.slot.op != NoOp && !AnswerIn(w)
    ensures Aside(w, Ticked(w, env))
  {
    if Free(Turn(w, env)) && !Turn(w, env).popped {
      EndsAs(w, Turn(w, env));
    } else if w.slot.posted {
      PostedAs(w, env);
    } else {
      var c := Post(w.client, true, env.stillOnline, w.slot.request, w.slot.requestLen).0;
      WaitingAs(w, env);
      if c.status == Busy {
        PostedAside(w, c);
      }
    }
  }

  /** A turn that brings an answer takes the judged head out of the queue. */
  lemma PopOnCourse(w: World, env: Env, c: Course, h: nat)
    requires HeadStable(w.slot, w.sent, w.queue) && AnswerIn(w) && OnCourse(w, c, h)
    ensures OnCourse(Ticked(w, env), c, h)
  {
    TakenOut(w, env);
    Pops(Entries(w.queue), Entries(w.disk), w.window, w.sheet, c, h);
  }

  lemma TakenOut(w: World, env: Env)
    requires AnswerIn(w) && w.queue != []
    ensures var v := Ticked(w, env);
            && Entries(v.queue) == Entries(w.queue)[1..] && v.disk == w.disk && v.window == w.window
            && v.sheet == w.sheet && v.outbox == w.outbox && !Judged(v)
  {
    PoppedAs(w, env);
  }

  /** A busy worker has the head of the queue, if it has an entry at all. */
  lemma ServeOnCourse(w: World, c: Course, h: nat) returns (further: nat)
    requires OnCourse(w, c, h) && HandedOver(w.slot, w.client) && CarriesHead(w)
    requires w.client.status == Busy && w.client.request.EntryRequest?
    ensures OnCourse(Step(w, Serve(c.admits(w.client.request.entry))), c, further)
  {
    var e := w.queue[0].entry;
    var v := Step(w, Serve(c.admits(e)));
    further := Further(h, |c.es| - |w.queue|);
    assert v.queue == w.queue && v.disk == w.disk && v.window == w.window && v.outbox == w.outbox;
    assert v.sheet == Served(w.sheet, Entries(w.queue)[0], c.admits(Entries(w.queue)[0]));
    Serves(Entries(w.queue), Entries(w.disk), w.window, Judged(w), Judged(v), w.sheet, c, h);
  }

  /** An effect that comes late is that of one of the first entries, or the one behind. */
  lemma LateOnCourse(w: World, e: Entry, c: Course, h: nat) returns (further: nat)
    requires OnCourse(w, c, h) && e in w.outbox && e !in c.known && !c.calm
    ensures OnCourse(Step(w, ServeLate(e, c.admits(e))), c, further)
  {
    var i :| 0 <= i <= h && i < |c.es| && c.es[i] == e;
    LedgerMoves(c.s, c.es, h, i, w.sheet, c.admits);
    further := Further(h, i);
  }

  predicate Calls(a: Action) {
    a.CallSync? || a.CallMySummary? || a.CallActive? || a.CallClear?
  }

  lemma CallAside(w: World, a: Action)
    requires Inv(w) && Calls(a)
    ensures Aside(w, Step(w, a))
  {
    match a
    case CallSync(len, now) =>
      AsksFairly(w.slot, w.queue, w.revision, [], len, now, true);
      NotedAside(w, RequestSync(w.slot, w.revision, len, now).0);
    case CallMySummary(id, len, now) =>
      AsksFairly(w.slot, w.queue, w.revision, id, len, now, true);
      NotedAside(w, RequestMySummary(w.slot, id, len, now).0);
    case CallActive(active, len, now) =>
      AsksFairly(w.slot, w.queue, w.revision, [], len, now, active);
      NotedAside(w, SetActive(w.slot, active, w.revision, len, now));
    case CallClear =>
  }

  /** The worker reports what the server said, or that it got no answer. */
  lemma ReportAside(w: World, a: Action)
    requires HandedOver(w.slot, w.client) && Enabled(w, a) && (a.Reply? || a.Break?)
    requires w.slot.op.SendsEntry() ==> w.slot.request.EntryRequest?
    ensures Aside(w, Step(w, a))
  {}

  lemma TickOnCourse(w: World, env: Env, c: Course, h: nat)
    requires Inv(w) && CarriesHead(w) && OnCourse(w, c, h)
    ensures OnCourse(Ticked(w, env), c, h)
  {
    assert HeadStable(w.slot, w.sent, w.queue);
    if AnswerIn(w) {
      PopOnCourse(w, env, c, h);
    } else {
      TickAside(w, env);
      StaysOnCourse(w, Ticked(w, env), c, h);
    }
  }

  lemma FlushOnCourse(w: World, fate: FlushFate, c: Course, h: nat)
    requires OnCourse(w, c, h)
    ensures OnCourse(Flushed(w, fate), c, h)
  {
    var v := Flushed(w, fate);
    assert v.queue == w.queue && v.sheet == w.sheet && v.outbox == w.outbox && Judged(v) == Judged(w);
  }

  lemma RebootOnCourse(w: World, c: Course, h: nat)
    requires OnCourse(w, c, h) && !w.window
    ensures OnCourse(Step(w, Reboot), c, h)
  {
    var v := Step(w, Reboot);
    assert v.queue == v.disk == w.disk && v.sheet == w.sheet && v.outbox == w.outbox && !v.window && !Judged(v);
    Reboots(Entries(w.queue), Entries(w.disk), Judged(w), w.sheet, c, h);
  }

  lemma AsideOnCourse(w: World, a: Action, c: Course, h: nat)
    requires Inv(w) && Enabled(w, a) && (Calls(a) || a.Reply? || a.Break?) && OnCourse(w, c, h)
    ensures OnCourse(Step(w, a), c, h)
  {
    if Calls(a) {
      CallAside(w, a);
    } else {
      ReportAside(w, a);
    }
    StaysOnCourse(w, Step(w, a), c, h);
  }

  lemma StepOnCourse(w: World, a: Action, c: Course, h: nat, before: Ledger) returns (further: nat)
    requires Inv(w) && Traced(w, before) && Enabled(w, a) && Safe(w, a) && Quiet(w, a, c) && OnCourse(w, c, h)
    ensures OnCourse(Step(w, a), c, further)
  {
    further := h;
    HeadCarried(w, before);
    match a
    case LoopTick(env) => TickOnCourse(w, env, c, h);
    case Serve(ok) =>
      if w.client.request.EntryRequest? {
        further := ServeOnCourse(w, c, h);
      }
    case ServeLate(e, ok) => further := LateOnCourse(w, e, c, h);
    case Flush(fate) => FlushOnCourse(w, fate, c, h);
    case Reboot => RebootOnCourse(w, c, h);
    case _ => AsideOnCourse(w, a, c, h);
  }

  lemma {:induction false} RunOnCourse(w: World, actions: seq<Action>, c: Course, h: nat, before: Ledger) returns (further: nat)
    requires Inv(w) && Traced(w, before) && Legal(w, actions) && QuietRun(w, actions, c) && OnCourse(w, c, h)
    ensures OnCourse(Run(w, actions), c, further)
    decreases |actions|
  {
    further := h;
    if |actions| > 0 {
      StepInv(w, actions[0]);
      StepTraced(w, actions[0], before);
      var next := StepOnCourse(w, actions[0], c, h, before);
      further := RunOnCourse(Step(w, actions[0]), actions[1..], c, next, before);
    }
  }

  // ---- One pass in the end ----------------------------------------------------

  /** The queue is stored as it stands, and its head has not been judged. */
  predicate Settles(w: World) {
    w.disk == w.queue && !w.window && !Judged(w)
  }

  function CourseFrom(w: World, calm: bool, admits: Validator): Course {
    Course(w.sheet, Entries(w.queue), w.outbox, calm, admits)
  }

  /** The sheet that t and the rest of the queue lead to is the one of a single pass: its
      ledger always, all of it with room on the shelf while no effect comes late. */
  predicate LeadsTo(t: Sheet, rest: seq<Entry>, c: Course) {
    && Pass(t, rest, c.admits).ledger == Pass(c.s, c.es, c.admits).ledger
    && (c.calm && Roomy(c.s.products, c.es, c.admits) ==> Pass(t, rest, c.admits) == Pass(c.s, c.es, c.admits))
  }

  lemma SetsOut(w: World, c: Course)
    requires Settles(w) && c == CourseFrom(w, c.calm, c.admits)
    ensures OnCourse(w, c, 0)
  {
    Begins(c.s, c.es, c.admits);
    assert c.es[0..] == c.es;
  }

  lemma Stays(start: World, before: seq<Action>, actions: seq<Action>, c: Course) returns (h: nat)
    requires Init(start) && Legal(start, before) && Settles(Run(start, before))
    requires c == CourseFrom(Run(start, before), c.calm, c.admits)
    requires Legal(Run(start, before), actions) && QuietRun(Run(start, before), actions, c)
    ensures UniqueIds(c.s.ledger) && OnCourse(Run(Run(start, before), actions), c, h)
  {
    var w := Run(start, before);
    InitInv(start);
    RunKeeps(start, before);
    RunTraced(start, before, start.sheet.ledger);
    SetsOut(w, c);
    h := RunOnCourse(w, actions, c, 0, start.sheet.ledger);
  }

  /** However a drain goes, at every moment both what is left in memory and what flash
      would bring back, while its file is there, lead to the sheet that one undisturbed
      pass leaves. The queue must not hold a stray reversal of a purchase that the sheet
      does not have. */
  lemma DrainConverges(start: World, before: seq<Action>, actions: seq<Action>, c: Course)
    requires Init(start) && Legal(start, before) && Settles(Run(start, before))
    requires c == CourseFrom(Run(start, before), c.calm, c.admits) && Harmless(c.s.ledger, c.es, c.admits)
    requires Legal(Run(start, before), actions) && QuietRun(Run(start, before), actions, c)
    ensures var v := Run(Run(start, before), actions);
            && LeadsTo(v.sheet, Entries(v.queue), c)
            && (!v.window ==> LeadsTo(v.sheet, Entries(v.disk), c))
  {
    var h := Stays(start, before, actions, c);
    CourseLeads(Run(Run(start, before), actions), c, h);
  }

  lemma CourseLeads(v: World, c: Course, h: nat)
    requires OnCourse(v, c, h) && UniqueIds(c.s.ledger) && Harmless(c.s.ledger, c.es, c.admits)
    ensures LeadsTo(v.sheet, Entries(v.queue), c)
    ensures !v.window ==> LeadsTo(v.sheet, Entries(v.disk), c)
  {
    var i := |c.es| - |v.queue|;
    EndLeads(c, i, h, i, v.sheet);
    if !v.window {
      EndLeads(c, |c.es| - |v.disk|, h, i, v.sheet);
    }
  }

  /** From position i, or any earlier one. */
  lemma EndLeads(c: Course, j: nat, h: nat, i: nat, t: Sheet)
    requires UniqueIds(c.s.ledger) && Harmless(c.s.ledger, c.es, c.admits) && j <= i <= |c.es| && i <= h
    requires LedgerAt(c.s, c.es, h, t.ledger, c.admits) && (c.calm ==> SheetAt(c.s, c.es, i, t, c.admits))
    ensures LeadsTo(t, c.es[j..], c)
  {
    LedgerFallsBack(c.s, c.es, h, j, t.ledger, c.admits);
    LedgerFinishes(c.s, c.es, j, t, c.admits);
    if c.calm {
      SheetLeads(c, j, i, t);
    }
  }

  lemma SheetLeads(c: Course, j: nat, i: nat, t: Sheet)
    requires UniqueIds(c.s.ledger) && Harmless(c.s.ledger, c.es, c.admits)
    requires j <= i && SheetAt(c.s, c.es, i, t, c.admits)
    ensures Roomy(c.s.products, c.es, c.admits) ==> Pass(t, c.es[j..], c.admits) == Pass(c.s, c.es, c.admits)
  {
    FallsBack(c.s, c.es, i, j, t, c.admits);
    Finishes(c.s, c.es, j, t, c.admits);
  }

  /** In particular: cut the power at any such moment, boot, however the sync of the boot
      ends, and send what flash held. */
  lemma CutConverges(start: World, before: seq<Action>, actions: seq<Action>, c: Course, b: Boot, after: seq<Env>)
    requires Init(start) && Legal(start, before) && Settles(Run(start, before))
    requires c == CourseFrom(Run(start, before), c.calm, c.admits) && Harmless(c.s.ledger, c.es, c.admits)
    requires Legal(Run(start, before), actions) && QuietRun(Run(start, before), actions, c)
    requires var v := Run(Run(start, before), actions);
             && v.slot.configured && v.client.ready && !v.window
             && CanEnd(b) && AllReach(after, RetryAt(b)) && |after| == |v.disk|
    ensures var v := Run(Run(start, before), actions);
            var end := Run(v, Recovery(v, b, after, c.admits));
            && Legal(v, Recovery(v, b, after, c.admits))
            && end.queue == [] && LeadsTo(end.sheet, [], c)
  {
    var v := Run(Run(start, before), actions);
    DrainConverges(start, before, actions, c);
    RebootDrains(v, b, after, c.admits);
  }
}
