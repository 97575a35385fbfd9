/** The screens as a source of delivery steps: everything that the state machine and its
    loop do to the slot, the client, the queue and flash is a list of steps of the
    delivery system, so what holds after every run of that holds for the screens. */
module Bridge {
  import opened Records
  import opened Clock
  import opened TransactionQueue
  import opened AppState
  import opened MainLoop
  import ApiClient
  import B = Backend
  import D = Delivery
  import R = Runs

  type Step = D.Action

  // ---- The steps behind the screens -------------------------------------------

  function PushSteps(d: Device, e: Entry, m: Moment): seq<Step> {
    if d.slot.configured && !Full(d) then [D.Enqueue(e, D.Kept, m.len, m.now)] else []
  }

  /** What entering a screen does before its deadline is set. */
  function BeginSteps(d: Device, next: Screen, m: Moment): seq<Step> {
    var ctx := d.ui.ctx;
    match next
    case Submitting => PushSteps(d, PurchaseEntry(ctx, m), m)
    case Undoing =>
      if d.slot.configured && HoldsPurchase(d.queue, ctx.transactionId) then [D.Undo(ctx.transactionId, D.Kept)]
      else PushSteps(d, VoidEntry(ctx), m)
    case Summary => [D.CallMySummary(ResidentAt(m, ctx.residentIndex).id, m.len, m.now)]
    case _ => []
  }

  function EnterSteps(d: Device, next: Screen, m: Moment): seq<Step> {
    if next == d.ui.screen then [] else BeginSteps(d, next, m) + [D.CallActive(next != Sleeping, m.len, m.later)]
  }

  function PrepareSteps(d: Device, e: Event, m: Moment): seq<Step> {
    if d.ui.screen == SelectingUser && e == ResidentSelected then [D.CallClear]
    else if d.ui.screen == ConfirmArchive && e == ArchiveConfirmed && m.product.Some?
    then PushSteps(d, ChangeEntry(m.product.value, Archive), m)
    else []
  }

  function DispatchSteps(d: Device, e: Event, m: Moment): seq<Step> {
    var p := Planned(d.ui, e, m);
    var b := WithContext(Prepared(d, e, m), p.ctx);
    PrepareSteps(d, e, m) + EnterSteps(b, p.next, m)
    + if d.ui.screen == Sleeping && e == Wake then EnterSteps(Enter(b, p.next, m), SelectingProduct, m) else []
  }

  function ConcludeSteps(d: Device, ok: bool, m: Moment): seq<Step> {
    var submitting := d.ui.screen == Submitting;
    if ok then (if submitting then DispatchSteps(d, SubmitSucceeded, m) else DispatchSteps(Reversed(d), UndoSucceeded, m))
    else DispatchSteps(d, if submitting then SubmitFailed else UndoFailed, m)
  }

  function ResolveSteps(d: Device, m: Moment): seq<Step> {
    var r := d.slot.result;
    if r == B.Pending then []
    else
      ConcludeSteps(WithContext(d, d.ui.ctx.(deferred := r == B.Unreachable)), r == B.Success || r == B.Unreachable, m)
      + [D.CallClear]
  }

  function ExpireSteps(d: Device, m: Moment): seq<Step> {
    var c := d.(ui := d.ui.(deadline := 0));
    match d.ui.screen
    case Submitting =>
      if c.ui.failNext then DispatchSteps(c.(ui := c.ui.(failNext := false)), SubmitFailed, m)
      else DispatchSteps(c, SubmitSucceeded, m)
    case Undoing => DispatchSteps(Reversed(c), UndoSucceeded, m)
    case Success => DispatchSteps(c, Dwell, m)
    case Summary => DispatchSteps(c, Dwell, m)
    case _ => []
  }

  function UpdateSteps(d: Device, now: Time, m: Moment): seq<Step> {
    if !d.ui.simulated && d.ui.screen.Waits() then ResolveSteps(d, m)
    else if d.ui.deadline == 0 || !Due(now, d.ui.deadline) then []
    else ExpireSteps(d, m)
  }

  // ---- One device under both --------------------------------------------------

  /** The device of the screens is the device of the delivery system. */
  ghost predicate Same(d: Device, w: D.World) {
    d.slot == w.slot && d.queue == D.Entries(w.queue)
  }

  /** The steps turn w into a world that is the same device as v, and touch neither the
      client nor flash nor the sheet. */
  ghost predicate Follows(w: D.World, steps: seq<Step>, v: Device) {
    var u := R.Run(w, steps);
    && Same(v, u) && u.client == w.client && u.disk == w.disk && u.window == w.window
    && u.revision == w.revision && u.sheet == w.sheet && CanRun(w, steps)
  }

  /** Every step is possible; whether it is safe is another matter. */
  ghost predicate CanRun(w: D.World, steps: seq<Step>)
    decreases |steps|
  {
    |steps| > 0 ==> D.Enabled(w, steps[0]) && CanRun(D.Step(w, steps[0]), steps[1..])
  }

  lemma {:induction false} CanAppend(w: D.World, p: seq<Step>, r: seq<Step>)
    ensures CanRun(w, p + r) <==> CanRun(w, p) && CanRun(R.Run(w, p), r)
    decreases |p|
  {
    if |p| == 0 {
      assert p + r == r;
    } else {
      assert (p + r)[1..] == p[1..] + r;
      CanAppend(D.Step(w, p[0]), p[1..], r);
    }
  }

  lemma Nothing(w: D.World, d: Device)
    requires Same(d, w)
    ensures Follows(w, [], d)
  {}

  lemma Chains(w: D.World, p: seq<Step>, d: Device, r: seq<Step>, v: Device)
    requires Follows(w, p, d) && Follows(R.Run(w, p), r, v)
    ensures Follows(w, p + r, v)
  {
    R.RunAppend(w, p, r);
    CanAppend(w, p, r);
  }

  lemma One(w: D.World, a: Step)
    ensures R.Run(w, [a]) == D.Step(w, a) && (CanRun(w, [a]) <==> D.Enabled(w, a))
  {
    R.RunOne(w, a);
    assert [a][1..] == [];
  }

  // ---- Step by step -----------------------------------------------------------

  lemma EntriesAppend(q: seq<D.Item>, it: D.Item)
    ensures D.Entries(q + [it]) == D.Entries(q) + [it.entry]
  {}

  lemma PushFollows(d: Device, w: D.World, e: Entry, m: Moment)
    requires Same(d, w) && d.slot.configured
    ensures Follows(w, PushSteps(d, e, m), if Full(d) then d else PushAndSend(d, e, m).0)
  {
    if Full(d) {
      Nothing(w, d);
    } else {
      var a := D.Enqueue(e, D.Kept, m.len, m.now);
      var p := D.Pushed(w, e);
      One(w, a);
      EntriesAppend(w.queue, D.Item(|w.history.origin|, e));
      assert p.slot == w.slot && D.Entries(p.queue) == d.queue + [e] && p.client == w.client && p.disk == w.disk && p.sheet == w.sheet;
      SendFollows(p, m);
    }
  }

  lemma SendFollows(p: D.World, m: Moment)
    ensures var v := D.SendNow(p, m.len, m.now);
            && v.slot == B.SendQueued(p.slot, B.HeadOf(D.Entries(p.queue)), m.len, m.now).0
            && v.queue == p.queue && v.client == p.client && v.disk == p.disk && v.window == p.window
            && v.revision == p.revision && v.sheet == p.sheet
  {}

  lemma NotedSame(w: D.World, slot: B.Slot)
    ensures var v := D.Noted(w, slot);
            && v.slot == slot && v.queue == w.queue && v.client == w.client && v.disk == w.disk
            && v.window == w.window && v.revision == w.revision && v.sheet == w.sheet
  {}

  /** The first queued purchase with an id is the first of the entries. */
  lemma HeldEntry(q: seq<D.Item>, id: Text)
    requires HoldsPurchase(D.Entries(q), id)
    ensures D.Holds(q, id)
  {
    var j :| 0 <= j < |q| && D.Entries(q)[j].kind == Purchase && D.Entries(q)[j].transactionId == id;
    assert D.PurchaseItem(id)(q[j]);
  }

  lemma FirstEntry(q: seq<D.Item>, id: Text, i: nat)
    requires IsFirst(q, D.PurchaseItem(id), i)
    ensures RemoveFirst(D.Entries(q), PurchaseOf(id)) == D.Entries(q[..i] + q[i + 1..])
  {
    var es := D.Entries(q);
    assert IsFirst(es, PurchaseOf(id), i) by {
      assert forall k :: 0 <= k < i ==> !D.PurchaseItem(id)(q[k]);
    }
    RemoveFirstIs(es, PurchaseOf(id), i);
    assert D.Entries(q[..i] + q[i + 1..]) == es[..i] + es[i + 1..];
  }

  /** Taking an item out of the queue is taking its entry out of the entries. */
  lemma RemovedEntries(w: D.World, id: Text)
    requires HoldsPurchase(D.Entries(w.queue), id)
    ensures D.Holds(w.queue, id) && D.Entries(D.Removed(w, id).queue) == RemoveFirst(D.Entries(w.queue), PurchaseOf(id))
  {
    HeldEntry(w.queue, id);
    var i := D.RemovedIs(w, id);
    FirstEntry(w.queue, id, i);
  }

  lemma UndoFollows(d: Device, w: D.World, id: Text)
    requires Same(d, w) && HoldsPurchase(d.queue, id)
    ensures Follows(w, [D.Undo(id, D.Kept)], d.(queue := RemoveFirst(d.queue, PurchaseOf(id))))
  {
    RemovedEntries(w, id);
    One(w, D.Undo(id, D.Kept));
  }

  lemma SummaryFollows(d: Device, w: D.World, id: Text, m: Moment)
    requires Same(d, w)
    ensures Follows(w, [D.CallMySummary(id, m.len, m.now)], d.(slot := B.RequestMySummary(d.slot, id, m.len, m.now).0))
  {
    One(w, D.CallMySummary(id, m.len, m.now));
    NotedSame(w, B.RequestMySummary(w.slot, id, m.len, m.now).0);
  }

  lemma ActiveFollows(d: Device, w: D.World, active: bool, m: Moment)
    requires Same(d, w) && m.revision == w.revision
    ensures Follows(w, [D.CallActive(active, m.len, m.later)],
                    d.(slot := B.SetActive(d.slot, active, m.revision, m.len, m.later)))
  {
    One(w, D.CallActive(active, m.len, m.later));
    NotedSame(w, B.SetActive(w.slot, active, w.revision, m.len, m.later));
  }

  lemma ClearFollows(d: Device, w: D.World)
    requires Same(d, w)
    ensures Follows(w, [D.CallClear], d.(slot := B.Clear(d.slot)))
  {
    One(w, D.CallClear);
  }

  /** What the user interface keeps for itself is no business of the delivery system. */
  lemma UiAside(w: D.World, steps: seq<Step>, v: Device, ui: Ui)
    requires Follows(w, steps, v)
    ensures Follows(w, steps, v.(ui := ui))
  {}

  lemma BeginFollows(d: Device, w: D.World, next: Screen, m: Moment)
    requires Same(d, w) && next != d.ui.screen
    ensures var x := d.(ui := d.ui.(screen := next, deadline := 0, dwell := 0));
            Follows(w, BeginSteps(d, next, m), Begun(x, m))
  {
    var x := d.(ui := d.ui.(screen := next, deadline := 0, dwell := 0));
    var id := d.ui.ctx.transactionId;
    if !next.Waits() {
      Nothing(w, x);
      SummaryFollows(x, w, ResidentAt(m, d.ui.ctx.residentIndex).id, m);
    } else if !d.slot.configured {
      Nothing(w, x);
    } else if next == Undoing && HoldsPurchase(d.queue, id) {
      UndoFollows(x, w, id);
    } else {
      PushFollows(x, w, if next == Submitting then PurchaseEntry(d.ui.ctx, m) else VoidEntry(d.ui.ctx), m);
    }
  }

  lemma EnterFollows(d: Device, w: D.World, next: Screen, m: Moment)
    requires Same(d, w) && m.revision == w.revision
    ensures Follows(w, EnterSteps(d, next, m), Enter(d, next, m))
  {
    if next == d.ui.screen {
      Nothing(w, d);
    } else {
      var x := d.(ui := d.ui.(screen := next, deadline := 0, dwell := 0));
      var b, u := Begun(x, m), R.Run(w, BeginSteps(d, next, m));
      BeginFollows(d, w, next, m);
      ActiveFollows(b, u, next != Sleeping, m);
      var call := [D.CallActive(next != Sleeping, m.len, m.later)];
      var last := b.(slot := B.SetActive(b.slot, next != Sleeping, m.revision, m.len, m.later));
      Chains(w, BeginSteps(d, next, m), b, call, last);
      UiAside(w, BeginSteps(d, next, m) + call, last, Armed(b.ui, m.later));
    }
  }

  lemma PreparedFollows(d: Device, w: D.World, e: Event, m: Moment)
    requires Same(d, w)
    ensures Follows(w, PrepareSteps(d, e, m), Prepared(d, e, m))
  {
    if d.ui.screen == SelectingUser && e == ResidentSelected {
      ClearFollows(d, w);
    } else if d.ui.screen == ConfirmArchive && e == ArchiveConfirmed && m.product.Some? {
      ChangeFollows(d, w, m.product.value, Archive, m);
    } else {
      Nothing(w, d);
    }
  }

  lemma ChangeFollows(d: Device, w: D.World, c: Change, kind: Kind, m: Moment)
    requires Same(d, w)
    ensures Follows(w, PushSteps(d, ChangeEntry(c, kind), m), QueueChange(d, c, kind, m))
  {
    if d.slot.configured {
      PushFollows(d, w, ChangeEntry(c, kind), m);
    } else {
      Nothing(w, d);
    }
  }

  lemma DispatchFollows(d: Device, w: D.World, e: Event, m: Moment)
    requires Same(d, w) && m.revision == w.revision
    ensures Follows(w, DispatchSteps(d, e, m), Dispatch(d, e, m))
  {
    var p, first := Planned(d.ui, e, m), PrepareSteps(d, e, m);
    var b := WithContext(Prepared(d, e, m), p.ctx);
    PreparedFollows(d, w, e, m);
    UiAside(w, first, Prepared(d, e, m), b.ui);
    var second, there := EnterSteps(b, p.next, m), Enter(b, p.next, m);
    EnterFollows(b, R.Run(w, first), p.next, m);
    Chains(w, first, b, second, there);
    var u := R.Run(w, first + second);
    if d.ui.screen == Sleeping && e == Wake {
      EnterFollows(there, u, SelectingProduct, m);
      Chains(w, first + second, there, EnterSteps(there, SelectingProduct, m), Enter(there, SelectingProduct, m));
    } else {
      Nothing(u, there);
      Chains(w, first + second, there, [], there);
    }
  }

  lemma ConcludeFollows(d: Device, w: D.World, ok: bool, m: Moment)
    requires Same(d, w) && m.revision == w.revision
    ensures Follows(w, ConcludeSteps(d, ok, m), Concluded(d, ok, m))
  {
    if ok && d.ui.screen != Submitting {
      DispatchFollows(Reversed(d), w, UndoSucceeded, m);
    } else {
      DispatchFollows(d, w, if ok then SubmitSucceeded else if d.ui.screen == Submitting then SubmitFailed else UndoFailed, m);
    }
  }

  lemma ResolveFollows(d: Device, w: D.World, m: Moment)
    requires Same(d, w) && m.revision == w.revision
    ensures Follows(w, ResolveSteps(d, m), Resolve(d, m))
  {
    var r := d.slot.result;
    if r == B.Pending {
      Nothing(w, d);
    } else {
      var noted := WithContext(d, d.ui.ctx.(deferred := r == B.Unreachable));
      var ok := r == B.Success || r == B.Unreachable;
      var steps, done := ConcludeSteps(noted, ok, m), Concluded(noted, ok, m);
      ConcludeFollows(noted, w, ok, m);
      ClearFollows(done, R.Run(w, steps));
      Chains(w, steps, done, [D.CallClear], done.(slot := B.Clear(done.slot)));
    }
  }

  lemma ExpireFollows(d: Device, w: D.World, m: Moment)
    requires Same(d, w) && m.revision == w.revision
    ensures Follows(w, ExpireSteps(d, m), Expire(d, m))
  {
    var c := d.(ui := d.ui.(deadline := 0));
    match d.ui.screen
    case Submitting =>
      if c.ui.failNext {
        DispatchFollows(c.(ui := c.ui.(failNext := false)), w, SubmitFailed, m);
      } else {
        DispatchFollows(c, w, SubmitSucceeded, m);
      }
    case Undoing => DispatchFollows(Reversed(c), w, UndoSucceeded, m);
    case Success => DispatchFollows(c, w, Dwell, m);
    case Summary => DispatchFollows(c, w, Dwell, m);
    case _ => Nothing(w, c);
  }

  lemma UpdateFollows(d: Device, w: D.World, now: Time, m: Moment)
    requires Same(d, w) && m.revision == w.revision
    ensures Follows(w, UpdateSteps(d, now, m), Update(d, now, m))
  {
    if !d.ui.simulated && d.ui.screen.Waits() {
      ResolveFollows(d, w, m);
    } else if d.ui.deadline == 0 || !Due(now, d.ui.deadline) {
      Nothing(w, d);
    } else {
      ExpireFollows(d, w, m);
    }
  }

  // ---- Act by act -------------------------------------------------------------

  /** What the screens, the client and flash make of one device. */
  ghost predicate Alike(t: Terminal, w: D.World) {
    Same(t.d, w) && t.client == w.client && t.disk == D.Entries(w.disk)
  }

  function Dark(t: Terminal, m: Moment): Device {
    Device(Ui(Sleeping, BLANK, 0, 0, false, false),
           B.RequestSync(B.AtPowerOn(t.d.slot.configured), m.revision, m.len, m.now).0, t.disk)
  }

  function Restarting(m: Moment): seq<Step> {
    [D.Reboot, D.CallSync(m.len, m.now)]
  }

  function StepsOf(t: Terminal, a: Act): seq<Step> {
    match a
    case Turn(env, revision, m) => [D.LoopTick(env)] + UpdateSteps(Ticked(t, env, revision).d, env.now, m)
    case Happen(e, m) => DispatchSteps(t.d, e, m)
    case QueueProduct(c, kind, m) => PushSteps(t.d, ChangeEntry(c, kind), m)
    case Store(lost) => [D.Flush(if lost then D.Gone else D.Written)]
    case Restart(m) =>
      var woken := Enter(Dark(t, m), Waking, m);
      Restarting(m) + (EnterSteps(Dark(t, m), Waking, m) + EnterSteps(woken, SelectingProduct, m))
    case _ => []
  }

  /** The act sees the catalog revision that the device has. */
  ghost predicate Current(w: D.World, a: Act) {
    match a
    case Turn(env, revision, m) => revision == w.revision && m.revision == D.Step(w, D.LoopTick(env)).revision
    case Happen(_, m) => m.revision == w.revision
    case QueueProduct(_, _, m) => true
    case Restart(m) => m.revision == w.revision
    case Worker(_) => false
    case _ => true
  }

  lemma FollowsAlike(t: Terminal, w: D.World, steps: seq<Step>, v: Device)
    requires Alike(t, w) && Follows(w, steps, v)
    ensures Alike(t.(d := v), R.Run(w, steps)) && R.Run(w, steps).sheet == w.sheet
  {}

  lemma QueueAfter(w: D.World, o: B.Outcome)
    ensures var v := D.After(w, o);
            v.queue == (if o.popped then B.Popped(w.queue) else w.queue) && v.disk == w.disk && v.sheet == w.sheet
  {
    var noted := D.Noted(w, o.slot).(client := o.client);
    assert noted.queue == w.queue && noted.disk == w.disk && noted.sheet == w.sheet;
    var posted := D.Posted(noted, o.slot.posted && !w.slot.posted);
    assert posted.queue == w.queue && posted.disk == w.disk && posted.sheet == w.sheet;
    var popped := if o.popped then D.PoppedBy(posted, w.client.body.ack) else posted;
    assert popped.queue == (if o.popped then B.Popped(w.queue) else w.queue) && popped.disk == w.disk && popped.sheet == w.sheet;
  }

  lemma TickAlike(t: Terminal, w: D.World, env: B.Env)
    requires Alike(t, w)
    ensures Alike(Ticked(t, env, w.revision), D.Ticked(w, env)) && D.Ticked(w, env).sheet == w.sheet
  {
    var o := D.Turn(w, env);
    R.SlotAfter(w, o);
    QueueAfter(w, o);
    assert D.Entries(B.Popped(w.queue)) == B.Popped(D.Entries(w.queue));
  }

  lemma TurnFollows(t: Terminal, w: D.World, env: B.Env, m: Moment)
    requires Alike(t, w) && m.revision == D.Ticked(w, env).revision
    ensures var a := Turn(env, w.revision, m);
            Alike(Acted(t, a), R.Run(w, StepsOf(t, a))) && CanRun(w, StepsOf(t, a)) && R.Run(w, StepsOf(t, a)).sheet == w.sheet
  {
    var u, v := Ticked(t, env, w.revision), D.Ticked(w, env);
    var rest := UpdateSteps(u.d, env.now, m);
    TickAlike(t, w, env);
    One(w, D.LoopTick(env));
    UpdateFollows(u.d, v, env.now, m);
    FollowsAlike(u, v, rest, Update(u.d, env.now, m));
    R.RunAppend(w, [D.LoopTick(env)], rest);
    CanAppend(w, [D.LoopTick(env)], rest);
  }

  /** After a restart the sync that begin() asks for is what both devices start with. */
  lemma DarkSame(t: Terminal, w: D.World, m: Moment) returns (v: D.World)
    requires Alike(t, w) && m.revision == w.revision
    ensures v == R.Run(w, Restarting(m)) && CanRun(w, Restarting(m))
    ensures Same(Dark(t, m), v) && v.revision == w.revision && v.disk == w.disk && v.sheet == w.sheet
    ensures v.client == t.client.(status := ApiClient.Idle)
  {
    var u := D.Step(w, D.Reboot);
    v := D.Step(u, D.CallSync(m.len, m.now));
    NotedSame(u, B.RequestSync(u.slot, u.revision, m.len, m.now).0);
    assert Restarting(m) == [D.Reboot] + [D.CallSync(m.len, m.now)];
    R.RunAppend(w, [D.Reboot], [D.CallSync(m.len, m.now)]);
    CanAppend(w, [D.Reboot], [D.CallSync(m.len, m.now)]);
    One(w, D.Reboot);
    One(u, D.CallSync(m.len, m.now));
  }

  /** What comes behind the restart: through the waking screen to the products. */
  lemma Wakes(d: Device, v: D.World, m: Moment) returns (x: Device, steps: seq<Step>)
    requires Same(d, v) && m.revision == v.revision
    ensures steps == EnterSteps(d, Waking, m) + EnterSteps(Enter(d, Waking, m), SelectingProduct, m)
    ensures x == Enter(Enter(d, Waking, m), SelectingProduct, m) && Follows(v, steps, x)
  {
    var woken := Enter(d, Waking, m);
    var first, second := EnterSteps(d, Waking, m), EnterSteps(woken, SelectingProduct, m);
    steps, x := first + second, Enter(woken, SelectingProduct, m);
    EnterFollows(d, v, Waking, m);
    EnterFollows(woken, R.Run(v, first), SelectingProduct, m);
    Chains(v, first, woken, second, x);
  }

  lemma RestartIs(t: Terminal, m: Moment, x: Device)
    requires x == Enter(Enter(Dark(t, m), Waking, m), SelectingProduct, m)
    ensures Acted(t, Restart(m)) == Terminal(x, t.client.(status := ApiClient.Idle), t.disk)
  {}

  lemma RestartStepsAre(t: Terminal, m: Moment, steps: seq<Step>)
    requires steps == EnterSteps(Dark(t, m), Waking, m) + EnterSteps(Enter(Dark(t, m), Waking, m), SelectingProduct, m)
    ensures StepsOf(t, Restart(m)) == Restarting(m) + steps
  {}

  lemma Joins(x: Terminal, w: D.World, first: seq<Step>, v: D.World, second: seq<Step>)
    requires v == R.Run(w, first) && CanRun(w, first)
    requires Follows(v, second, x.d) && x.client == v.client && x.disk == D.Entries(v.disk)
    ensures Alike(x, R.Run(w, first + second)) && CanRun(w, first + second) && R.Run(w, first + second).sheet == v.sheet
  {
    R.RunAppend(w, first, second);
    CanAppend(w, first, second);
  }

  lemma RestartFollows(t: Terminal, w: D.World, m: Moment)
    requires Alike(t, w) && m.revision == w.revision
    ensures Alike(Acted(t, Restart(m)), R.Run(w, StepsOf(t, Restart(m)))) && CanRun(w, StepsOf(t, Restart(m)))
    ensures R.Run(w, StepsOf(t, Restart(m))).sheet == w.sheet
  {
    var v := DarkSame(t, w, m);
    var x, steps := Wakes(Dark(t, m), v, m);
    var u := Terminal(x, t.client.(status := ApiClient.Idle), t.disk);
    assert Alike(u, R.Run(w, Restarting(m) + steps)) && CanRun(w, Restarting(m) + steps)
           && R.Run(w, Restarting(m) + steps).sheet == w.sheet by {
      Joins(u, w, Restarting(m), v, steps);
    }
    assert Acted(t, Restart(m)) == u by { RestartIs(t, m, x); }
    assert StepsOf(t, Restart(m)) == Restarting(m) + steps by { RestartStepsAre(t, m, steps); }
  }

  /** Every act is a run of the delivery system, and leaves the sheet alone. */
  lemma ActFollows(t: Terminal, w: D.World, a: Act)
    requires Alike(t, w) && Current(w, a)
    ensures Alike(Acted(t, a), R.Run(w, StepsOf(t, a))) && CanRun(w, StepsOf(t, a)) && R.Run(w, StepsOf(t, a)).sheet == w.sheet
  {
    match a
    case Turn(env, revision, m) => TurnFollows(t, w, env, m);
    case Happen(e, m) =>
      DispatchFollows(t.d, w, e, m);
      FollowsAlike(t, w, StepsOf(t, a), Dispatch(t.d, e, m));
    case QueueProduct(c, kind, m) =>
      ChangeFollows(t.d, w, c, kind, m);
      FollowsAlike(t, w, StepsOf(t, a), QueueChange(t.d, c, kind, m));
    case Store(lost) => StoreFollows(t, w, lost);
    case Restart(m) => RestartFollows(t, w, m);
    case Worker(_) => assert false;
    case _ => Nothing(w, t.d);
  }

  lemma StoreFollows(t: Terminal, w: D.World, lost: bool)
    requires Alike(t, w)
    ensures Alike(Acted(t, Store(lost)), R.Run(w, StepsOf(t, Store(lost)))) && CanRun(w, StepsOf(t, Store(lost)))
    ensures R.Run(w, StepsOf(t, Store(lost))).sheet == w.sheet
  {
    One(w, D.Flush(if lost then D.Gone else D.Written));
    assert D.Entries([]) == [];
  }

  // ---- Runs -------------------------------------------------------------------

  /** An act on the device, or what the server and the worker do meanwhile. */
  datatype Move = OnDevice(a: Act) | Meanwhile(rest: seq<Step>)

  predicate Outside(a: Step) {
    a.Serve? || a.ServeLate? || a.Reply? || a.Break?
  }

  ghost function StepsFor(t: Terminal, move: Move): seq<Step> {
    if move.OnDevice? then StepsOf(t, move.a) else move.rest
  }

  ghost function Moved(t: Terminal, w: D.World, move: Move): Terminal {
    if move.OnDevice? then Acted(t, move.a) else t.(client := R.Run(w, move.rest).client)
  }

  ghost predicate Allowed(w: D.World, move: Move) {
    if move.OnDevice? then Current(w, move.a)
    else CanRun(w, move.rest) && forall i :: 0 <= i < |move.rest| ==> Outside(move.rest[i])
  }

  ghost function Steps(t: Terminal, w: D.World, moves: seq<Move>): seq<Step>
    decreases |moves|
  {
    if |moves| == 0 then []
    else
      var steps := StepsFor(t, moves[0]);
      steps + Steps(Moved(t, w, moves[0]), R.Run(w, steps), moves[1..])
  }

  ghost function Played(t: Terminal, w: D.World, moves: seq<Move>): Terminal
    decreases |moves|
  {
    if |moves| == 0 then t
    else Played(Moved(t, w, moves[0]), R.Run(w, StepsFor(t, moves[0])), moves[1..])
  }

  ghost predicate AllAllowed(t: Terminal, w: D.World, moves: seq<Move>)
    decreases |moves|
  {
    |moves| > 0 ==>
      && Allowed(w, moves[0])
      && AllAllowed(Moved(t, w, moves[0]), R.Run(w, StepsFor(t, moves[0])), moves[1..])
  }

  lemma {:induction false} OutsideAside(w: D.World, steps: seq<Step>)
    requires forall i :: 0 <= i < |steps| ==> Outside(steps[i])
    ensures var v := R.Run(w, steps); v.slot == w.slot && v.queue == w.queue && v.disk == w.disk
    decreases |steps|
  {
    if |steps| > 0 {
      OutsideAside(D.Step(w, steps[0]), steps[1..]);
    }
  }

  lemma MoveFollows(t: Terminal, w: D.World, move: Move)
    requires Alike(t, w) && Allowed(w, move)
    ensures Alike(Moved(t, w, move), R.Run(w, StepsFor(t, move))) && CanRun(w, StepsFor(t, move))
  {
    if move.OnDevice? {
      ActFollows(t, w, move.a);
    } else {
      OutsideAside(w, move.rest);
    }
  }

  lemma {:induction false} MovesFollow(t: Terminal, w: D.World, moves: seq<Move>)
    requires Alike(t, w) && AllAllowed(t, w, moves)
    ensures Alike(Played(t, w, moves), R.Run(w, Steps(t, w, moves))) && CanRun(w, Steps(t, w, moves))
    decreases |moves|
  {
    if |moves| > 0 {
      var steps := StepsFor(t, moves[0]);
      var u, v := Moved(t, w, moves[0]), R.Run(w, steps);
      MoveFollows(t, w, moves[0]);
      MovesFollow(u, v, moves[1..]);
      R.RunAppend(w, steps, Steps(u, v, moves[1..]));
      CanAppend(w, steps, Steps(u, v, moves[1..]));
    }
  }

  ghost predicate AllSafe(w: D.World, steps: seq<Step>)
    decreases |steps|
  {
    |steps| > 0 ==> D.Safe(w, steps[0]) && AllSafe(D.Step(w, steps[0]), steps[1..])
  }

  lemma {:induction false} SafeIsLegal(w: D.World, steps: seq<Step>)
    requires CanRun(w, steps) && AllSafe(w, steps)
    ensures R.Legal(w, steps)
    decreases |steps|
  {
    if |steps| > 0 {
      SafeIsLegal(D.Step(w, steps[0]), steps[1..]);
    }
  }

  /** The acts see the device as it is, what happens meanwhile can happen, and every step
      is safe: no purchase is undone while it is being sent, and the power does not fail
      while the queue file is missing. */
  ghost predicate Permitted(t: Terminal, w: D.World, moves: seq<Move>) {
    AllAllowed(t, w, moves) && AllSafe(w, Steps(t, w, moves))
  }

  /** Exactly once, from the screens: after every run of events, timers, results, flushes
      and restarts, with the server and the worker acting at any time between them,
      whatever was once safely stored is settled. */
  lemma ScreensDeliver(t: Terminal, w: D.World, moves: seq<Move>)
    requires D.Init(w) && Alike(t, w) && Permitted(t, w, moves)
    ensures Alike(Played(t, w, moves), R.Run(w, Steps(t, w, moves)))
    ensures var v := R.Run(w, Steps(t, w, moves)); forall ticket :: ticket in v.history.durable ==> R.Settled(v, ticket)
  {
    var steps := Steps(t, w, moves);
    MovesFollow(t, w, moves);
    SafeIsLegal(w, steps);
    forall ticket | ticket in R.Run(w, steps).history.durable
      ensures R.Settled(R.Run(w, steps), ticket)
    {
      R.ExactlyOnce(w, steps, ticket);
    }
  }
}
