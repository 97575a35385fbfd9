/** From power-on to an empty queue: the sync that begin() asks for, however it ends, and
    then what flash held. */
module Boot {
  import opened Wrappers
  import opened Bits
  import opened Clock
  import opened ApiClient
  import opened Backend
  import opened Replay
  import opened Delivery
  import opened Runs
  import opened Drain

  /** The request for the sync is not built, or never handed to the worker, or answered,
      or lost. */
  datatype Ending = Unbuilt | Unsent | Answered(body: Body) | Lost(error: Error)

  /** The sync of a boot: when it is asked for, the turns in which it is handed over and in
      which its end is noticed, and how it ends. */
  datatype Boot = Boot(len: nat, asked: Time, first: Env, second: Env, ending: Ending)

  predicate CanEnd(b: Boot) {
    match b.ending
    case Unbuilt => b.len == 0
    case Unsent =>
      && b.len > 0
      && (if b.first.online then !b.first.stillOnline || b.len >= MAX_REQUEST_BYTES
          else Due(b.first.now, Add(b.asked, OP_TIMEOUT_MS)))
    case _ => 0 < b.len < MAX_REQUEST_BYTES && b.first.online && b.first.stillOnline
  }

  function Starting(b: Boot): seq<Action> {
    [Reboot, CallSync(b.len, b.asked)]
  }

  function Ends(b: Boot): seq<Action> {
    match b.ending
    case Unbuilt => []
    case Unsent => [LoopTick(b.first)]
    case Answered(body) => [LoopTick(b.first), Reply(body), LoopTick(b.second)]
    case Lost(error) => [LoopTick(b.first), Break(error), LoopTick(b.second)]
  }

  function BootSteps(b: Boot): seq<Action> {
    Starting(b) + Ends(b)
  }

  /** A sync that fails holds the queue back as a failed attempt does. */
  function RetryAt(b: Boot): Time {
    match b.ending
    case Unsent => Add(b.first.now, 4000)
    case Lost(_) => Add(b.second.now, 4000)
    case _ => 0
  }

  /** v is the device of w on its feet again, with what flash held. */
  predicate Risen(w: World, v: World, retryAfter: Time) {
    && Rested(v) && v.slot.retryAfter == retryAfter && v.queue == w.disk && v.disk == w.disk
    && v.sheet == w.sheet && v.window == w.window && v.outbox == w.outbox
  }

  /** The sync has the slot. */
  predicate Asking(w: World, v: World, b: Boot) {
    && b.len > 0 && v.slot == AtPowerOn(true).(op := SyncOp, request := v.slot.request, requestLen := b.len,
                                  deadline := Add(b.asked, OP_TIMEOUT_MS))
    && v.slot.request.SyncRequest? && v.client.ready && v.client.status == Idle
    && v.queue == w.disk && v.disk == w.disk && v.sheet == w.sheet && v.window == w.window && v.outbox == w.outbox
  }

  lemma Asks(w: World, b: Boot) returns (v: World)
    requires w.slot.configured && w.client.ready && !w.window
    ensures v == Run(w, Starting(b)) && Legal(w, Starting(b))
    ensures if b.len == 0 then Risen(w, v, 0) else Asking(w, v, b)
  {
    var cut := Step(w, Reboot);
    v := Step(cut, CallSync(b.len, b.asked));
    assert Starting(b) == [Reboot] + [CallSync(b.len, b.asked)];
    RunFirst(w, Reboot, [CallSync(b.len, b.asked)]);
    RunOne(cut, CallSync(b.len, b.asked));
    NotedKeepsAll(cut, RequestSync(cut.slot, cut.revision, b.len, b.asked).0);
  }

  lemma NotedKeepsAll(w: World, slot: Slot)
    ensures var v := Noted(w, slot);
            && v.slot == slot && v.client == w.client && v.queue == w.queue && v.disk == w.disk
            && v.sheet == w.sheet && v.window == w.window && v.outbox == w.outbox
  {}

  /** What the end of the sync leaves of the world in which the worker had it. */
  predicate Over(v: World, x: World, retryAfter: Time) {
    && x == v.(slot := x.slot, client := x.client, revision := x.revision) && x.slot.op == NoOp && !x.slot.posted
    && x.slot.retryAfter == retryAfter && x.slot.configured && x.slot.myState == v.slot.myState
    && x.client.status == Idle && x.client.ready == v.client.ready
  }

  /** The slot and the client give the sync up. */
  lemma GivesUp(w: World, env: Env, c: ApiClient.State)
    requires w.slot.configured && w.slot.op == SyncOp && w.slot.sendFailures == 0 && c.ready == w.client.ready
    requires Turn(w, env) == GiveUp(w.slot, c, env.now)
    ensures Over(w, Ticked(w, env), Add(env.now, 4000))
  {
    BackoffBounds(1);
    assert Pow2(1) == 2;
    EndsAs(w, Turn(w, env));
  }

  lemma GivesUpUnsent(w: World, u: World, b: Boot)
    requires Asking(w, u, b) && b.ending.Unsent? && CanEnd(b)
    ensures Over(u, Ticked(u, b.first), RetryAt(b))
  {
    var c := if b.first.online then Post(u.client, true, b.first.stillOnline, u.slot.request, u.slot.requestLen).0 else u.client;
    GivesUp(u, b.first, c);
  }

  /** The worker has the sync. */
  lemma Travels(w: World, u: World, b: Boot) returns (v: World)
    requires Asking(w, u, b) && (b.ending.Answered? || b.ending.Lost?) && CanEnd(b)
    ensures v == Ticked(u, b.first)
    ensures v == u.(slot := u.slot.(posted := true), reply := None, client := v.client)
    ensures v.client.ready && v.client.status == Busy && v.client.request == u.slot.request
  {
    Posts(u, b.first);
    v := Ticked(u, b.first);
  }

  /** From v by a to u, and from there by b to x. */
  lemma Two(v: World, a: Action, u: World, b: Action, x: World)
    requires Enabled(v, a) && Safe(v, a) && Step(v, a) == u && Enabled(u, b) && Safe(u, b) && Step(u, b) == x
    ensures Legal(v, [a, b]) && Run(v, [a, b]) == x
  {
    assert [a, b] == [a] + [b];
    RunFirst(v, a, [b]);
    RunOne(u, b);
  }

  lemma TakesAnswer(u: World, env: Env) returns (x: World)
    requires u.slot.configured && u.slot.op == SyncOp && u.slot.posted && u.client.status == Done
    ensures x == Ticked(u, env) && Over(u, x, u.slot.retryAfter)
  {
    x := Ticked(u, env);
    EndsAs(u, Turn(u, env));
  }

  lemma TakesLoss(u: World, env: Env) returns (x: World)
    requires u.slot.configured && u.slot.op == SyncOp && u.slot.posted && u.client.status == Failed && u.slot.sendFailures == 0
    ensures x == Ticked(u, env) && Over(u, x, Add(env.now, 4000))
  {
    x := Ticked(u, env);
    GivesUp(u, env, u.client);
  }

  lemma NoticesAnswer(v: World, body: Body, env: Env) returns (x: World)
    requires v.slot.configured && v.slot.op == SyncOp && v.slot.posted
    requires v.client.status == Busy && v.client.request.SyncRequest?
    ensures Legal(v, [Reply(body), LoopTick(env)]) && x == Run(v, [Reply(body), LoopTick(env)])
    ensures Over(v, x, v.slot.retryAfter)
  {
    var u := v.(client := v.client.(status := Done, body := body));
    x := TakesAnswer(u, env);
    Two(v, Reply(body), u, LoopTick(env), x);
  }

  lemma NoticesLoss(v: World, error: Error, env: Env) returns (x: World)
    requires v.slot.configured && v.slot.op == SyncOp && v.slot.posted && v.client.status == Busy && v.slot.sendFailures == 0
    ensures Legal(v, [Break(error), LoopTick(env)]) && x == Run(v, [Break(error), LoopTick(env)])
    ensures Over(v, x, Add(env.now, 4000))
  {
    var u := v.(client := v.client.(status := Failed, error := error));
    x := TakesLoss(u, env);
    Two(v, Break(error), u, LoopTick(env), x);
  }

  lemma AnswerRises(w: World, u: World, b: Boot, body: Body)
    requires Asking(w, u, b) && CanEnd(b) && b.ending == Answered(body)
    ensures Legal(u, Ends(b)) && Risen(w, Run(u, Ends(b)), 0)
  {
    var v := Travels(w, u, b);
    var x := NoticesAnswer(v, body, b.second);
    assert Ends(b) == [LoopTick(b.first)] + [Reply(body), LoopTick(b.second)];
    RunFirst(u, LoopTick(b.first), [Reply(body), LoopTick(b.second)]);
  }

  lemma LossRises(w: World, u: World, b: Boot, error: Error)
    requires Asking(w, u, b) && CanEnd(b) && b.ending == Lost(error)
    ensures Legal(u, Ends(b)) && Risen(w, Run(u, Ends(b)), Add(b.second.now, 4000))
  {
    var v := Travels(w, u, b);
    var x := NoticesLoss(v, error, b.second);
    assert Ends(b) == [LoopTick(b.first)] + [Break(error), LoopTick(b.second)];
    RunFirst(u, LoopTick(b.first), [Break(error), LoopTick(b.second)]);
  }

  lemma EndsRisen(w: World, u: World, b: Boot)
    requires Asking(w, u, b) && CanEnd(b)
    ensures Legal(u, Ends(b)) && Risen(w, Run(u, Ends(b)), RetryAt(b))
  {
    match b.ending
    case Unsent =>
      GivesUpUnsent(w, u, b);
      RunOne(u, LoopTick(b.first));
    case Answered(body) => AnswerRises(w, u, b, body);
    case Lost(error) => LossRises(w, u, b, error);
    case Unbuilt => assert false;
  }

  /** However its sync ends, a device with a backend and a worker comes to rest with what
      flash held; only a sync that fails holds the queue back, for four seconds. */
  lemma Boots(w: World, b: Boot)
    requires w.slot.configured && w.client.ready && !w.window && CanEnd(b)
    ensures Legal(w, BootSteps(b)) && Risen(w, Run(w, BootSteps(b)), RetryAt(b))
  {
    var u := Asks(w, b);
    RunAppend(w, Starting(b), Ends(b));
    if b.len > 0 {
      EndsRisen(w, u, b);
    }
  }

  /** The power fails, and the device sends what flash held. */
  ghost function Recovery(w: World, b: Boot, envs: seq<Env>, admits: Validator): seq<Action> {
    BootSteps(b) + Trips(Run(w, BootSteps(b)), envs, admits)
  }

  /** The first entries that flash held, one for each turn, take effect in order. */
  lemma RebootSends(w: World, b: Boot, envs: seq<Env>, admits: Validator)
    requires w.slot.configured && w.client.ready && !w.window && CanEnd(b)
    requires AllReach(envs, RetryAt(b)) && |envs| <= |w.disk|
    ensures var v := Run(w, Recovery(w, b, envs, admits));
            && Legal(w, Recovery(w, b, envs, admits))
            && v.queue == w.disk[|envs|..] && v.sheet == Pass(w.sheet, Entries(w.disk)[..|envs|], admits)
  {
    var u := Run(w, BootSteps(b));
    Boots(w, b);
    TripsDone(u, envs, admits);
    RunAppend(w, BootSteps(b), Trips(u, envs, admits));
  }

  /** So with a turn for each of them the queue is empty and went out as one pass. */
  lemma RebootDrains(w: World, b: Boot, envs: seq<Env>, admits: Validator)
    requires w.slot.configured && w.client.ready && !w.window && CanEnd(b)
    requires AllReach(envs, RetryAt(b)) && |envs| == |w.disk|
    ensures var v := Run(w, Recovery(w, b, envs, admits));
            && Legal(w, Recovery(w, b, envs, admits))
            && v.queue == [] && v.sheet == Pass(w.sheet, Entries(w.disk), admits)
  {
    RebootSends(w, b, envs, admits);
    assert Entries(w.disk)[..|envs|] == Entries(w.disk);
  }
}
