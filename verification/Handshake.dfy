/** The main loop and the network worker as two tasks that interleave step by step: the
    status byte hands the buffers over, a task notification wakes the worker, and the
    loop may be overtaken anywhere inside post(). */
module Handshake {
  import opened Bits
  import opened Records
  import opened Wrappers
  import opened Clock
  import opened ApiClient
  import opened Backend

  /** Where the loop is: between two calls, or inside post() with the request copied, the
      status set, the worker notified. */
  datatype LoopAt = Between | Copied | Marked | Given

  datatype WorkerAt = Waiting | Performing

  datatype Machine = Machine(
    slot: Slot,
    client: ApiClient.State,
    loop: LoopAt,
    notified: bool,
    worker: WorkerAt)

  /** The calls of the backend that can start an operation, and the one that clears. */
  datatype Call =
    | Sync(revision: Uint32, len: nat, now: Time)
    | Send(head: Option<Entry>, len: nat, now: Time)
    | MySummary(residentId: Text, len: nat, now: Time)
    | Active(active: bool, revision: Uint32, len: nat, now: Time)
    | ClearResult

  datatype Move =
    /** The loop calls update(), or one of the other functions. */
    | Update(head: Option<Entry>, changes: bool, revision: Uint32, env: Env)
    | Ask(call: Call)
    /** The rest of post() after the copy: the status, the notification, the return. */
    | Mark
    | Notify
    | Return
    /** The worker wakes, works on the buffers, and reports. */
    | Take
    | Work
    | Finish(status: Status, error: Error, body: Body)
  {
    predicate ByWorker() {
      Take? || Work? || Finish?
    }
  }

  function Called(b: Slot, call: Call): Slot {
    match call
    case Sync(revision, len, now) => RequestSync(b, revision, len, now).0
    case Send(head, len, now) => SendQueued(b, head, len, now).0
    case MySummary(id, len, now) => RequestMySummary(b, id, len, now).0
    case Active(active, revision, len, now) => SetActive(b, active, revision, len, now)
    case ClearResult => Clear(b)
  }

  /** This call of update() gets as far as copying a request. */
  predicate Copies(m: Machine, env: Env) {
    && m.slot.configured && m.slot.op != NoOp && !m.slot.posted && env.online
    && Post(m.client, m.slot.configured, env.stillOnline, m.slot.request, m.slot.requestLen).1
  }

  function Moved(m: Machine, a: Move): Machine {
    match a
    case Update(head, changes, revision, env) =>
      if Copies(m, env) then m.(client := m.client.(request := m.slot.request, error := NoError), loop := Copied)
      else
        var o := Tick(m.slot, head, changes, revision, m.client, env);
        m.(slot := o.slot, client := o.client)
    case Ask(call) => m.(slot := Called(m.slot, call))
    case Mark => m.(client := m.client.(status := Busy), loop := Marked)
    case Notify => m.(notified := true, loop := Given)
    case Return => m.(slot := m.slot.(posted := true), loop := Between)
    case Take => m.(notified := false, worker := Performing)
    case Work => m
    case Finish(status, error, body) =>
      m.(client := m.client.(status := status, error := error, body := body), worker := Waiting)
  }

  predicate Possible(m: Machine, a: Move) {
    match a
    case Update(_, _, _, _) => m.loop == Between
    case Ask(_) => m.loop == Between
    case Mark => m.loop == Copied
    case Notify => m.loop == Marked
    case Return => m.loop == Given
    case Take => m.worker == Waiting && m.notified
    case Work => m.worker == Performing
    case Finish(status, _, _) => m.worker == Performing && (status == Done || status == Failed)
  }

  // ---- What every step keeps --------------------------------------------------

  predicate Coupled(m: Machine) {
    && (m.slot.posted ==> m.slot.op != NoOp && m.loop == Between)
    && (m.loop == Between ==> (m.client.status != Idle <==> m.slot.posted))
    && (m.loop != Between ==> m.slot.op != NoOp)
    && (m.loop == Copied ==> m.client.status == Idle)
    && (m.loop == Marked ==> m.client.status == Busy && !m.notified && m.worker == Waiting)
    && (m.loop == Given ==> m.client.status != Idle)
    && (m.client.status == Busy && m.loop != Marked <==> m.notified || m.worker == Performing)
    && !(m.notified && m.worker == Performing)
    && (m.client.status != Idle || m.loop == Copied ==> m.client.request == m.slot.request)
  }

  predicate PowerOn(m: Machine) {
    && (m.slot == AtPowerOn(true) || m.slot == AtPowerOn(false))
    && m.client.status == Idle && m.loop == Between && !m.notified && m.worker == Waiting
  }

  ghost function Go(m: Machine, moves: seq<Move>): Machine
    decreases |moves|
  {
    if |moves| == 0 then m else Go(Moved(m, moves[0]), moves[1..])
  }

  ghost predicate CanGo(m: Machine, moves: seq<Move>)
    decreases |moves|
  {
    |moves| > 0 ==> Possible(m, moves[0]) && CanGo(Moved(m, moves[0]), moves[1..])
  }

  lemma UpdateCoupled(m: Machine, a: Move)
    requires Coupled(m) && Possible(m, a) && a.Update?
    ensures Coupled(Moved(m, a))
  {
    if !Copies(m, a.env) {
      TickEnds(m.slot, a.head, a.changes, a.revision, m.client, a.env);
    }
  }

  /** Short of posting, a turn leaves a running operation as it is, ends it, or starts
      one; and it ends one only with the client idle. */
  lemma TickEnds(b: Slot, head: Option<Entry>, changes: bool, revision: Uint32, c: ApiClient.State, env: Env)
    requires (c.status != Idle <==> b.posted) && (b.posted ==> b.op != NoOp)
    requires !(b.configured && b.op != NoOp && !b.posted && env.online
               && Post(c, b.configured, env.stillOnline, b.request, b.requestLen).1)
    ensures var o := Tick(b, head, changes, revision, c, env);
            || (o.slot == b && o.client == c)
            || (b.op == NoOp && !o.slot.posted && o.client == c)
            || (o.slot.op == NoOp && !o.slot.posted && o.client.status == Idle)
  {
    if b.configured && b.op == NoOp {
      IdleUnposted(b, head, revision, env);
    } else if b.configured && !b.posted {
      WaitingEnds(b, c, env);
    }
  }

  lemma IdleUnposted(b: Slot, head: Option<Entry>, revision: Uint32, env: Env)
    requires !b.posted
    ensures !TickIdle(b, head, revision, env).posted
  {}

  lemma WaitingEnds(b: Slot, c: ApiClient.State, env: Env)
    requires c.status == Idle && !b.posted
    requires !env.online || !Post(c, b.configured, env.stillOnline, b.request, b.requestLen).1
    ensures var o := TickWaiting(b, c, env);
            (o.slot == b && o.client == c) || (o.slot.op == NoOp && !o.slot.posted && o.client.status == Idle)
  {}

  lemma AskCoupled(m: Machine, call: Call)
    requires Coupled(m) && m.loop == Between
    ensures Coupled(Moved(m, Ask(call)))
  {}

  lemma MoveCoupled(m: Machine, a: Move)
    requires Coupled(m) && Possible(m, a)
    ensures Coupled(Moved(m, a))
  {
    match a
    case Update(_, _, _, _) => UpdateCoupled(m, a);
    case Ask(call) => AskCoupled(m, call);
    case _ =>
  }

  lemma {:induction false} AlwaysCoupled(m: Machine, moves: seq<Move>)
    requires Coupled(m) && CanGo(m, moves)
    ensures Coupled(Go(m, moves))
    decreases |moves|
  {
    if |moves| > 0 {
      MoveCoupled(m, moves[0]);
      AlwaysCoupled(Moved(m, moves[0]), moves[1..]);
    }
  }

  // ---- Who may touch what -----------------------------------------------------

  datatype Buffer = RequestBuffer | ResponseBuffer | ErrorText

  /** What a step reads or writes besides the status byte and the notification. */
  function Touches(m: Machine, a: Move): set<Buffer> {
    match a
    case Update(_, _, _, env) =>
      if !m.slot.configured || m.slot.op == NoOp then {}
      else if !m.slot.posted then
        (if Copies(m, env) then {RequestBuffer, ErrorText} else if env.online then {ErrorText} else {})
      else if m.client.status == Done || m.client.status == Failed then {ResponseBuffer, ErrorText}
      else {}
    case Work => {RequestBuffer, ResponseBuffer}
    case Finish(_, _, _) => {ResponseBuffer, ErrorText}
    case _ => {}
  }

  /** While the status is Busy the buffers are the worker's, otherwise the loop's. */
  predicate Owns(m: Machine, worker: bool) {
    worker <==> m.client.status == Busy
  }

  /** After every interleaving, no step touches a buffer its task does not own: in
      particular the two tasks are never about to touch the same buffer. */
  lemma BuffersOwned(start: Machine, moves: seq<Move>, a: Move)
    requires PowerOn(start) && CanGo(start, moves) && Possible(Go(start, moves), a)
    ensures var m := Go(start, moves);
            Touches(m, a) != {} ==> Owns(m, a.ByWorker())
  {
    AlwaysCoupled(start, moves);
  }

  /** The client is never reset under a working task, and post() is never refused as
      busy: a status that leaves Done or Failed does so through finish(), and a status
      that leaves Busy does so through the worker. */
  lemma NeverResetBusy(start: Machine, moves: seq<Move>, a: Move)
    requires PowerOn(start) && CanGo(start, moves) && Possible(Go(start, moves), a)
    ensures var m := Go(start, moves);
            var v := Moved(m, a);
            && (m.client.status == Busy && v.client.status != Busy ==> a.Finish?)
            && (m.client.status != Idle && v.client.status == Idle ==> a.Update? && v.slot.op == NoOp)
            && (a.Update? && v.client.error == BusyError ==> m.client.error == BusyError)
  {
    AlwaysCoupled(start, moves);
    if a.Update? {
      StatusAfterTick(Go(start, moves), a);
    }
  }

  lemma StatusAfterTick(m: Machine, a: Move)
    requires Coupled(m) && Possible(m, a) && a.Update?
    ensures var v := Moved(m, a);
            && (m.client.status == Busy ==> v.client.status == Busy)
            && (m.client.status != Idle && v.client.status == Idle ==> v.slot.op == NoOp)
            && (v.client.error == BusyError ==> m.client.error == BusyError)
  {}

  /** Every report of the worker is noticed by the next update(): the operation ends and
      the client is idle again, ready for the next request. */
  lemma ReportsNoticed(start: Machine, moves: seq<Move>, a: Move)
    requires PowerOn(start) && CanGo(start, moves) && start.slot.configured
    requires var m := Go(start, moves);
             a.Update? && Possible(m, a) && (m.client.status == Done || m.client.status == Failed)
    ensures var v := Moved(Go(start, moves), a);
            v.slot.op == NoOp && !v.slot.posted && v.client.status == Idle
  {
    AlwaysCoupled(start, moves);
    StaysConfigured(start, moves);
    ReportEnds(Go(start, moves), a);
  }

  lemma ReportEnds(m: Machine, a: Move)
    requires Coupled(m) && Possible(m, a) && a.Update? && m.slot.configured
    requires m.client.status == Done || m.client.status == Failed
    ensures var v := Moved(m, a);
            v.slot.op == NoOp && !v.slot.posted && v.client.status == Idle
  {}

  lemma {:induction false} StaysConfigured(m: Machine, moves: seq<Move>)
    requires CanGo(m, moves)
    ensures Go(m, moves).slot.configured == m.slot.configured
    decreases |moves|
  {
    if |moves| > 0 {
      MoveConfigured(m, moves[0]);
      StaysConfigured(Moved(m, moves[0]), moves[1..]);
    }
  }

  lemma MoveConfigured(m: Machine, a: Move)
    ensures Moved(m, a).slot.configured == m.slot.configured
  {
    match a
    case Update(head, changes, revision, env) => TickKeepsDevice(m.slot, head, changes, revision, m.client, env);
    case _ =>
  }

  // ---- One step at a time or all at once --------------------------------------

  /** The machine as if post() took no time: it is over as soon as the request is
      copied. */
  function Seen(m: Machine): (Slot, ApiClient.State) {
    if m.loop == Between then (m.slot, m.client)
    else (m.slot.(posted := true), m.client.(status := if m.loop == Copied then Busy else m.client.status))
  }

  /** Seen that way, every step of the two tasks is one whole call of update(), one whole
      other call, one report of a busy worker, or nothing. */
  lemma StepsAreWhole(m: Machine, a: Move)
    requires Coupled(m) && Possible(m, a)
    ensures var (b, c) := Seen(m);
            Seen(Moved(m, a)) ==
            match a
            case Update(head, changes, revision, env) =>
              var o := Tick(b, head, changes, revision, c, env);
              (o.slot, o.client)
            case Ask(call) => (Called(b, call), c)
            case Finish(status, error, body) => (b, c.(status := status, error := error, body := body))
            case _ => (b, c)
    ensures a.Finish? ==> Seen(m).1.status == Busy
  {}
}
