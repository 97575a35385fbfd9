/** What a device that reaches its server makes of its queue. */
module Drain {
  import opened Records
  import opened Wrappers
  import opened Clock
  import opened ApiClient
  import opened Backend
  import opened Server
  import opened Replay
  import opened Delivery
  import opened Runs

  /** A configured device with nothing under way and nobody waiting for figures. */
  predicate Rested(w: World) {
    && w.slot.configured && w.slot.op == NoOp && !w.slot.posted && w.slot.myState != Loading
    && w.client.ready && w.client.status == Idle
  }

  /** The backoff is over, the radio is up, and the request fits its buffer. */
  predicate Reaches(env: Env, retryAfter: Time) {
    Due(env.now, retryAfter) && env.online && env.stillOnline && 0 < env.len < MAX_REQUEST_BYTES
  }

  /** What the server answers to the head of the queue. */
  function ReplyTo(s: Sheet, e: Entry, admits: Validator): Body {
    Body(Verdict(Answer(s, e, admits(e))), None, false)
  }

  /** One round trip: started, posted, served, answered, noticed. */
  function RoundTrip(w: World, env: Env, admits: Validator): seq<Action>
    requires w.queue != []
  {
    var e := w.queue[0].entry;
    [LoopTick(env), LoopTick(env), Serve(admits(e)), Reply(ReplyTo(w.sheet, e, admits)), LoopTick(env)]
  }

  function Sending(b: Slot, e: Entry, env: Env): Slot {
    b.(op := OpFor(e), posted := false, request := EntryRequest(e), requestLen := env.len,
       deadline := Add(env.millis, OP_TIMEOUT_MS), result := Pending, duplicate := false)
  }

  lemma Starts(w: World, env: Env)
    requires Rested(w) && w.queue != [] && Reaches(env, w.slot.retryAfter)
    ensures Ticked(w, env) == w.(slot := Sending(w.slot, w.queue[0].entry, env), sent := Some(w.queue[0]))
  {
    IdleAs(w, env);
    HeadIs(w.queue);
  }

  lemma Posts(w: World, env: Env)
    requires w.slot.configured && w.slot.op != NoOp && !w.slot.posted && w.client.ready && w.client.status == Idle
    requires env.online && env.stillOnline && 0 < w.slot.requestLen < MAX_REQUEST_BYTES
    ensures var c := w.client.(request := w.slot.request, error := NoError, status := Busy);
            Ticked(w, env) == Posted(w.(slot := w.slot.(posted := true), client := c), true)
  {
    WaitingAs(w, env);
    assert !Free(Turn(w, env));
  }

  lemma Notices(w: World, env: Env)
    requires AnswerIn(w) && w.queue != [] && w.slot.myState != Loading
    ensures var v, u := Ticked(w, env), PoppedBy(w, w.client.body.ack);
            && v == u.(slot := v.slot, client := v.client)
            && v.client == Reset(w.client) && v.slot.op == NoOp && !v.slot.posted
            && v.slot.configured && v.slot.retryAfter == w.slot.retryAfter && v.slot.myState == w.slot.myState
  {
    PoppedAs(w, env);
  }

  /** The world after c steps of a round trip, short of its last one. */
  function Midway(w: World, env: Env, admits: Validator, c: nat): World
    requires w.queue != [] && c < 5
  {
    var e := w.queue[0].entry;
    var started := w.(slot := Sending(w.slot, e, env), sent := Some(w.queue[0]));
    var client := w.client.(request := EntryRequest(e), error := NoError, status := Busy);
    var travelling := started.(slot := started.slot.(posted := true), reply := None, outbox := w.outbox + {e}, client := client);
    var body := ReplyTo(w.sheet, e, admits);
    var served := travelling.(sheet := Served(w.sheet, e, admits(e)), reply := Some(body.ack));
    if c == 0 then w
    else if c == 1 then started
    else if c == 2 then travelling
    else if c == 3 then served
    else served.(client := client.(status := Done, body := body))
  }

  lemma MidwayStep(w: World, env: Env, admits: Validator, c: nat)
    requires Rested(w) && w.queue != [] && Reaches(env, w.slot.retryAfter) && c < 4
    ensures var u, a := Midway(w, env, admits, c), RoundTrip(w, env, admits)[c];
            Enabled(u, a) && Safe(u, a) && Step(u, a) == Midway(w, env, admits, c + 1)
  {
    if c == 0 {
      Starts(w, env);
    } else if c == 1 {
      Posts(Midway(w, env, admits, 1), env);
    }
  }

  lemma {:induction false} MidwayIs(w: World, env: Env, admits: Validator, c: nat)
    requires Rested(w) && w.queue != [] && Reaches(env, w.slot.retryAfter) && c < 5
    ensures Legal(w, RoundTrip(w, env, admits)[..c])
    ensures Run(w, RoundTrip(w, env, admits)[..c]) == Midway(w, env, admits, c)
    decreases c
  {
    var trip := RoundTrip(w, env, admits);
    if c > 0 {
      MidwayIs(w, env, admits, c - 1);
      MidwayStep(w, env, admits, c - 1);
      assert trip[..c] == trip[..c - 1] + [trip[c - 1]];
      RunAppend(w, trip[..c - 1], [trip[c - 1]]);
      RunOne(Midway(w, env, admits, c - 1), trip[c - 1]);
    }
  }

  /** A round trip takes the head out of the queue and puts it into effect, once. */
  lemma RoundTripDone(w: World, env: Env, admits: Validator)
    requires Rested(w) && w.queue != [] && Reaches(env, w.slot.retryAfter)
    ensures Legal(w, RoundTrip(w, env, admits))
    ensures var v, e := Run(w, RoundTrip(w, env, admits)), w.queue[0].entry;
            && Rested(v) && v.slot.retryAfter == w.slot.retryAfter
            && v.queue == w.queue[1..] && v.disk == w.disk && v.window == w.window
            && v.sheet == Served(w.sheet, e, admits(e))
  {
    var trip := RoundTrip(w, env, admits);
    assert trip == trip[..4] + [LoopTick(env)];
    RunAppend(w, trip[..4], [LoopTick(env)]);
    MidwayIs(w, env, admits, 4);
    RunOne(Midway(w, env, admits, 4), LoopTick(env));
    Notices(Midway(w, env, admits, 4), env);
  }

  // ---- The whole queue --------------------------------------------------------

  /** One round trip per turn in `envs`, from the front of the queue. */
  ghost function Trips(w: World, envs: seq<Env>, admits: Validator): seq<Action>
    decreases |envs|
  {
    if |envs| == 0 || w.queue == [] then []
    else
      var trip := RoundTrip(w, envs[0], admits);
      trip + Trips(Run(w, trip), envs[1..], admits)
  }

  predicate AllReach(envs: seq<Env>, retryAfter: Time) {
    forall i :: 0 <= i < |envs| ==> Reaches(envs[i], retryAfter)
  }

  lemma FirstTrip(w: World, envs: seq<Env>, admits: Validator) returns (u: World)
    requires Rested(w) && w.queue != [] && |envs| > 0 && Reaches(envs[0], w.slot.retryAfter)
    ensures Rested(u) && u.slot.retryAfter == w.slot.retryAfter
    ensures u.queue == w.queue[1..] && u.disk == w.disk && u.window == w.window
    ensures u.sheet == Served(w.sheet, w.queue[0].entry, admits(w.queue[0].entry))
    ensures Run(w, Trips(w, envs, admits)) == Run(u, Trips(u, envs[1..], admits))
    ensures Legal(u, Trips(u, envs[1..], admits)) ==> Legal(w, Trips(w, envs, admits))
  {
    var trip := RoundTrip(w, envs[0], admits);
    u := Run(w, trip);
    RoundTripDone(w, envs[0], admits);
    RunAppend(w, trip, Trips(u, envs[1..], admits));
  }

  /** v is w with the first n entries of its queue sent, in order. */
  ghost predicate SentOff(w: World, v: World, n: nat, admits: Validator) {
    && Rested(v) && v.slot.retryAfter == w.slot.retryAfter && v.disk == w.disk && v.window == w.window
    && n <= |w.queue| && v.queue == w.queue[n..]
    && v.sheet == Pass(w.sheet, Entries(w.queue)[..n], admits)
  }

  lemma SentOffAfter(w: World, u: World, v: World, n: nat, admits: Validator)
    requires w.queue != [] && u.queue == w.queue[1..] && u.disk == w.disk && u.window == w.window
    requires u.slot.retryAfter == w.slot.retryAfter
    requires u.sheet == Served(w.sheet, w.queue[0].entry, admits(w.queue[0].entry))
    requires SentOff(u, v, n, admits)
    ensures SentOff(w, v, n + 1, admits)
  {
    var es := Entries(w.queue);
    assert Entries(u.queue) == es[1..];
    assert es[..n + 1][1..] == es[1..][..n];
    assert w.queue[n + 1..] == w.queue[1..][n..];
  }

  lemma {:induction false} TripsDone(w: World, envs: seq<Env>, admits: Validator)
    requires Rested(w) && AllReach(envs, w.slot.retryAfter) && |envs| <= |w.queue|
    ensures Legal(w, Trips(w, envs, admits))
    ensures SentOff(w, Run(w, Trips(w, envs, admits)), |envs|, admits)
    decreases |envs|
  {
    if |envs| == 0 {
      assert Entries(w.queue)[..0] == [];
    } else {
      var u := FirstTrip(w, envs, admits);
      TripsDone(u, envs[1..], admits);
      SentOffAfter(w, u, Run(u, Trips(u, envs[1..], admits)), |envs| - 1, admits);
    }
  }

  /** A queue that can be sent is sent to the end: every entry takes effect in order,
      as one pass over the queue would have it, and the queue is empty. */
  lemma QueueDrains(w: World, envs: seq<Env>, admits: Validator)
    requires Rested(w) && AllReach(envs, w.slot.retryAfter) && |envs| == |w.queue|
    ensures Legal(w, Trips(w, envs, admits))
    ensures var v := Run(w, Trips(w, envs, admits));
            v.queue == [] && v.sheet == Pass(w.sheet, Entries(w.queue), admits)
  {
    TripsDone(w, envs, admits);
    assert Entries(w.queue)[..|envs|] == Entries(w.queue);
  }
}
