/** The HTTPS client as the main loop sees it: one request at a time, posted and then
    polled. What the worker task does in between is in the handshake model. */
module ApiClient {
  import opened Bits
  import opened Records
  import opened Wrappers
  import opened Settings

  const MAX_REQUEST_BYTES: nat := 640

  datatype Status = Idle | Busy | Done | Failed
  datatype Error = NoError | NotConfigured | Offline | BusyError | Transport | HttpStatus | TooLarge

  datatype Request =
    | NoRequest
    | SyncRequest(since: Uint32)
    | MySummaryRequest(residentId: Text)
    | EntryRequest(entry: Entry)

  /** A sync response that parsed; longer lists than the device holds do not parse. */
  datatype SyncFields = SyncFields(
    hasSummary: bool,
    summary: seq<Tally>,
    changed: bool,
    revision: Uint32,
    products: seq<Product>,
    residents: seq<Resident>)

  type SyncBody = s: SyncFields | |s.summary| <= MAX_RESIDENTS && |s.products| <= MAX_PRODUCTS && |s.residents| <= MAX_RESIDENTS
    witness SyncFields(false, [], false, 0, [], [])

  datatype AckOutcome = AckOk(duplicate: bool) | AckRejected | AckMalformed

  /** A response body, as each of the three parsers would read it. */
  datatype Body = Body(ack: AckOutcome, sync: Option<SyncBody>, mySummary: bool)

  /** `ready`: the response buffer and the worker task exist. */
  datatype State = State(ready: bool, status: Status, error: Error, request: Request, body: Body)

  function Post(c: State, configured: bool, online: bool, request: Request, len: nat): (r: (State, bool))
    ensures r.1 <==> configured && c.ready && c.status == Idle && online && 0 < len < MAX_REQUEST_BYTES
    ensures r.1 ==> r.0 == c.(request := request, error := NoError, status := Busy)
    ensures !r.1 ==> r.0 == c.(error := r.0.error) && r.0.error != NoError
    ensures r.0.error == BusyError ==> c.error == BusyError || c.status != Idle
  {
    if !configured then (c.(error := NotConfigured), false)
    else if !c.ready then (c.(error := Transport), false)
    else if c.status != Idle then (c.(error := BusyError), false)
    else if !online then (c.(error := Offline), false)
    else if len == 0 || len >= MAX_REQUEST_BYTES then (c.(error := Transport), false)
    else (c.(request := request, error := NoError, status := Busy), true)
  }

  function Reset(c: State): State {
    c.(status := Idle)
  }

  class Client {
    var state: State

    constructor (state: State)
      ensures this.state == state
    {
      this.state := state;
    }

    method PostRequest(configured: bool, online: bool, request: Request, len: nat) returns (ok: bool)
      modifies this
      ensures (state, ok) == Post(old(state), configured, online, request, len)
    {
      if !configured {
        state := state.(error := NotConfigured);
        return false;
      }
      if !state.ready {
        state := state.(error := Transport);
        return false;
      }
      if state.status != Idle {
        state := state.(error := BusyError);
        return false;
      }
      if !online {
        state := state.(error := Offline);
        return false;
      }
      if len == 0 || len >= MAX_REQUEST_BYTES {
        state := state.(error := Transport);
        return false;
      }
      state := state.(request := request, error := NoError);
      state := state.(status := Busy);
      return true;
    }

    method ResetStatus()
      modifies this
      ensures state == Reset(old(state))
    {
      state := state.(status := Idle);
    }
  }
}
