/** One purchase, one id: between the moment an id is minted and the next one, nothing
    but that id is handed over, however often it is retried, undone or timed out. */
module Identity {
  import opened Bits
  import opened Records
  import opened Clock
  import opened TransactionQueue
  import opened AppState
  import opened MainLoop
  import B = Backend

  predicate Mints(t: Terminal, a: Act) {
    a.Happen? && a.e == ResidentSelected && t.d.ui.screen == SelectingUser
  }

  /** No new purchase is begun. */
  ghost predicate NoneMinted(t: Terminal, acts: seq<Act>)
    decreases |acts|
  {
    |acts| > 0 ==> !Mints(t, acts[0]) && NoneMinted(Acted(t, acts[0]), acts[1..])
  }

  /** The purchase in hand has this id, or there is none. */
  predicate Under(d: Device, id: Text) {
    d.ui.ctx.transactionId == id || d.ui.ctx.transactionId == []
  }

  /** Everything queued was there before, changes a product, or has this id. */
  ghost predicate OneId(q: seq<Entry>, known: set<Entry>, id: Text) {
    forall e :: e in q ==> e in known || e.kind.IsProductChange() || e.transactionId == id
  }

  ghost predicate Single(d: Device, known: set<Entry>, id: Text) {
    Under(d, id) && OneId(d.queue, known, id)
  }

  lemma OneIdAppend(q: seq<Entry>, e: Entry, known: set<Entry>, id: Text)
    requires OneId(q, known, id) && (e.kind.IsProductChange() || e.transactionId == id)
    ensures OneId(q + [e], known, id)
  {}

  lemma {:induction false} RemoveSubset(q: seq<Entry>, p: Entry -> bool)
    ensures forall e :: e in RemoveFirst(q, p) ==> e in q
    decreases |q|
  {
    if |q| > 0 {
      RemoveSubset(q[1..], p);
    }
  }

  lemma EnterSingle(d: Device, next: Screen, m: Moment, known: set<Entry>, id: Text)
    requires Single(d, known, id) && (next.Waits() ==> d.ui.ctx.transactionId != [])
    ensures Single(Enter(d, next, m), known, id)
  {
    var ctx := d.ui.ctx;
    if next != d.ui.screen {
      EnterUi(d, next, m);
      if next.Waits() {
        EnterQueue(d, next, m);
        OneIdAppend(d.queue, PurchaseEntry(ctx, m), known, id);
        OneIdAppend(d.queue, VoidEntry(ctx), known, id);
        RemoveSubset(d.queue, PurchaseOf(ctx.transactionId));
      }
    }
  }

  lemma PreparedSingle(d: Device, e: Event, m: Moment, known: set<Entry>, id: Text)
    requires Single(d, known, id)
    ensures Single(Prepared(d, e, m), known, id) && Prepared(d, e, m).ui == d.ui
  {
    if m.product.Some? {
      OneIdAppend(d.queue, ChangeEntry(m.product.value, Archive), known, id);
    }
  }

  lemma DispatchSingle(d: Device, e: Event, m: Moment, known: set<Entry>, id: Text)
    requires Sound(d.ui) && m.minted != [] && Single(d, known, id)
    requires !(e == ResidentSelected && d.ui.screen == SelectingUser)
    ensures Single(Dispatch(d, e, m), known, id)
  {
    var p, b := Planned(d.ui, e, m), Prepared(d, e, m);
    PlanIds(d.ui, e, m);
    PlanSound(d.ui, e, m);
    PreparedSingle(d, e, m, known, id);
    var x := WithContext(b, p.ctx);
    var there := Enter(x, p.next, m);
    assert Single(there, known, id) by {
      assert Single(x, known, id);
      EnterSingle(x, p.next, m, known, id);
    }
    EnterSingle(there, SelectingProduct, m, known, id);
  }

  lemma UpdateSingle(d: Device, now: Time, m: Moment, known: set<Entry>, id: Text)
    requires Sound(d.ui) && m.minted != [] && Single(d, known, id)
    ensures Single(Update(d, now, m), known, id)
  {
    if d.ui.screen.Waits() {
      ResolveSingle(d, m, known, id);
      ExpireSingle(d, m, known, id);
    } else {
      DispatchSingle(d.(ui := d.ui.(deadline := 0)), Dwell, m, known, id);
    }
  }

  lemma ResolveSingle(d: Device, m: Moment, known: set<Entry>, id: Text)
    requires d.ui.screen.Waits() && Single(d, known, id)
    ensures Single(Resolve(d, m), known, id)
  {
    var noted := d.ui.ctx.(deferred := d.slot.result == B.Unreachable);
    Leaves(d, noted, d.slot.result == B.Success || d.slot.result == B.Unreachable, m);
    Leaves(d, noted.(undoInFlight := false, undone := true), true, m);
  }

  lemma ExpireSingle(d: Device, m: Moment, known: set<Entry>, id: Text)
    requires d.ui.screen.Waits() && Single(d, known, id)
    ensures Single(Expire(d, m), known, id)
  {
    var ctx, c := d.ui.ctx, d.(ui := d.ui.(deadline := 0));
    if d.ui.screen == Undoing {
      Leaves(c, ctx.(undoInFlight := false, undone := true), true, m);
    } else if c.ui.failNext {
      Leaves(c.(ui := c.ui.(failNext := false)), ctx, false, m);
    } else {
      Leaves(c, ctx, true, m);
    }
  }

  ghost predicate Kept(t: Terminal, known: set<Entry>, id: Text) {
    Single(t.d, known, id) && OneId(t.disk, known, id)
  }

  lemma TurnSingle(t: Terminal, env: B.Env, revision: Uint32, m: Moment, known: set<Entry>, id: Text)
    requires Sound(t.d.ui) && m.minted != [] && Single(t.d, known, id)
    ensures Single(Acted(t, Turn(env, revision, m)).d, known, id)
  {
    var u := Ticked(t, env, revision);
    assert u.d.ui == t.d.ui && (u.d.queue == t.d.queue || u.d.queue == B.Popped(t.d.queue));
    assert OneId(u.d.queue, known, id);
    UpdateSingle(u.d, env.now, m, known, id);
  }

  lemma ActKept(t: Terminal, a: Act, known: set<Entry>, id: Text)
    requires Good(t) && Can(t, a) && !Mints(t, a) && Kept(t, known, id)
    ensures Kept(Acted(t, a), known, id)
  {
    match a
    case Turn(env, revision, m) => TurnSingle(t, env, revision, m, known, id);
    case Happen(e, m) => DispatchSingle(t.d, e, m, known, id);
    case QueueProduct(c, kind, m) => OneIdAppend(t.d.queue, ChangeEntry(c, kind), known, id);
    case Restart(m) => StartGood(B.RequestSync(B.AtPowerOn(t.d.slot.configured), m.revision, m.len, m.now).0, t.disk, m);
    case _ =>
  }

  lemma {:induction false} RunKept(t: Terminal, acts: seq<Act>, known: set<Entry>, id: Text)
    requires Good(t) && Possible(t, acts) && NoneMinted(t, acts) && Kept(t, known, id)
    ensures Kept(After(t, acts), known, id)
    decreases |acts|
  {
    if |acts| > 0 {
      ActGood(t, acts[0]);
      ActKept(t, acts[0], known, id);
      RunKept(Acted(t, acts[0]), acts[1..], known, id);
    }
  }

  /** The purchase in hand has the id it had, or none, and so has what was queued since. */
  ghost predicate StillOne(u: Terminal, v: Terminal) {
    var id := u.d.ui.ctx.transactionId;
    && (v.d.ui.ctx.transactionId == id || v.d.ui.ctx.transactionId == [])
    && forall e :: e in v.d.queue ==> e in u.d.queue || e in u.disk || e.kind.IsProductChange() || e.transactionId == id
  }

  lemma KeptFrom(u: Terminal, more: seq<Act>)
    requires Good(u) && Possible(u, more) && NoneMinted(u, more)
    ensures StillOne(u, After(u, more))
  {
    RunKept(u, more, (set e | e in u.d.queue) + (set e | e in u.disk), u.d.ui.ctx.transactionId);
  }

  /** After every run of events, timers, results and restarts in which no resident is
      chosen, the purchase in hand has the id it had, or none; and every purchase and
      every reversal that was put into the queue since has that id. */
  lemma IdKeptOverRuns(t: Terminal, acts: seq<Act>, more: seq<Act>, slot: B.Slot, m: Moment)
    requires PoweredOn(t, slot, m) && Possible(t, acts)
    requires Possible(After(t, acts), more) && NoneMinted(After(t, acts), more)
    ensures StillOne(After(t, acts), After(After(t, acts), more))
  {
    StartGood(slot, t.disk, m);
    RunGood(t, acts);
    KeptFrom(After(t, acts), more);
  }
}
