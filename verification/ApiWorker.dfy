/** What the worker task does with one request: it follows redirects by hand and collects
    the answer in a bounded buffer. */
module ApiWorker {
  import opened Bits
  import opened Records
  import opened ApiClient

  const MAX_REDIRECTS: nat := 3
  const RESPONSE_TOO_LARGE: int := -1000

  /** What one request comes back with: the HTTP status or a negative error, and where a
      redirect points. */
  datatype Hop = Hop(code: int, location: Text)

  datatype Asked = Asked(url: Text, post: bool)

  predicate IsRedirect(code: int) {
    code == 301 || code == 302 || code == 303 || code == 307 || code == 308
  }

  /** Only a redirect carries a location. */
  predicate RealHop(h: Hop) {
    h.location != [] ==> IsRedirect(h.code)
  }

  /** Hop i does not end the exchange: it is followed, as three of them are at most. */
  predicate Followed(hops: seq<Hop>, i: nat, allowed: Text -> bool)
    requires i < |hops|
  {
    i < 3 && hops[i].location != [] && allowed(hops[i].location)
  }

  /** The answer is the first hop that is not followed. */
  ghost predicate AnswerAt(hops: seq<Hop>, n: nat, allowed: Text -> bool) {
    n < |hops| && !Followed(hops, n, allowed) && forall i :: 0 <= i < n ==> Followed(hops, i, allowed)
  }

  /** perform(): `hops` is what each request in turn would come back with. The request
      body goes out once, to the configured endpoint; every later request is a bare GET
      of an allowed redirect target, and there are at most four in all. */
  method Perform(endpoint: Text, hops: seq<Hop>, allowed: Text -> bool)
    returns (status: Status, error: Error, asked: seq<Asked>)
    requires |hops| == 4 && forall i :: 0 <= i < |hops| ==> RealHop(hops[i])
    ensures 1 <= |asked| <= 4 && AnswerAt(hops, |asked| - 1, allowed)
    ensures asked[0] == Asked(endpoint, true)
    ensures forall i :: 1 <= i < |asked| ==> asked[i] == Asked(hops[i - 1].location, false) && allowed(asked[i].url)
    ensures var last := hops[|asked| - 1];
            && (status == Done <==> 200 <= last.code < 300)
            && (status == Done || status == Failed)
            && error == (if status == Done then NoError
                         else if last.code == RESPONSE_TOO_LARGE then TooLarge
                         else if last.code <= 0 then Transport
                         else HttpStatus)
  {
    var url, post, code := endpoint, true, 0;
    asked := [];
    var hop := 0;
    while hop <= MAX_REDIRECTS
      invariant 0 <= hop <= MAX_REDIRECTS && |asked| == hop
      invariant url == (if hop == 0 then endpoint else hops[hop - 1].location) && post == (hop == 0)
      invariant hop > 0 ==> asked[0] == Asked(endpoint, true) && allowed(url)
      invariant forall i :: 1 <= i < hop ==> asked[i] == Asked(hops[i - 1].location, false) && allowed(asked[i].url)
      invariant forall i :: 0 <= i < hop ==> Followed(hops, i, allowed)
      decreases MAX_REDIRECTS + 1 - hop
    {
      var location;
      asked := asked + [Asked(url, post)];
      code, location := hops[hop].code, hops[hop].location;
      assert RealHop(hops[hop]);
      if code == RESPONSE_TOO_LARGE {
        return Failed, TooLarge, asked;
      }
      if code <= 0 {
        return Failed, Transport, asked;
      }
      if location == [] {
        break;
      }
      if hop == MAX_REDIRECTS {
        return Failed, HttpStatus, asked;
      }
      if !allowed(location) {
        return Failed, HttpStatus, asked;
      }
      url, post := location, false;
      hop := hop + 1;
    }
    if code < 200 || code >= 300 {
      return Failed, HttpStatus, asked;
    }
    return Done, NoError, asked;
  }

  /** The exchange ends somewhere: exactly one hop is the answer. */
  lemma {:induction false} OneAnswer(hops: seq<Hop>, allowed: Text -> bool, from: nat) returns (n: nat)
    requires |hops| == 4 && from <= MAX_REDIRECTS
    requires forall i :: 0 <= i < from ==> Followed(hops, i, allowed)
    ensures AnswerAt(hops, n, allowed) && forall m: nat :: AnswerAt(hops, m, allowed) ==> m == n
    decreases MAX_REDIRECTS - from
  {
    if Followed(hops, from, allowed) {
      n := OneAnswer(hops, allowed, from + 1);
    } else {
      n := from;
      forall m: nat | AnswerAt(hops, m, allowed)
        ensures m == n
      {
        assert !(m < n) && !(n < m);
      }
    }
  }

  /** A fixed buffer that takes what fits, leaves room for a terminator, and notes that
      something did not fit. */
  class BoundedSink {
    const buffer: array<Byte>
    var len: nat
    var overflow: bool
    /** Everything that was ever written to the sink. */
    ghost var arrived: seq<Byte>

    ghost predicate Valid()
      reads this, buffer
    {
      && len <= Room() && len <= |arrived| && buffer[..len] == arrived[..len]
      && (len < |arrived| <==> overflow) && (overflow ==> len == Room())
    }

    function Room(): nat {
      if buffer.Length == 0 then 0 else buffer.Length - 1
    }

    constructor (buffer: array<Byte>)
      ensures Valid() && this.buffer == buffer && arrived == []
    {
      this.buffer, len, overflow, arrived := buffer, 0, false, [];
    }

    /** The buffer holds the longest prefix of everything that arrived that fits beside
        the terminator, and overflow says that this was not all. */
    method Write(data: seq<Byte>) returns (claimed: nat)
      requires Valid()
      modifies this, buffer
      ensures Valid() && arrived == old(arrived) + data && claimed == |data|
      ensures len == if |arrived| <= Room() then |arrived| else Room()
      ensures buffer[len..] == old(buffer[..])[len..]
    {
      var room := if len + 1 < buffer.Length then buffer.Length - 1 - len else 0;
      var n := if |data| < room then |data| else room;
      forall i | 0 <= i < n {
        buffer[len + i] := data[i];
      }
      assert buffer[..len + n] == buffer[..len] + data[..n];
      assert n > 0 ==> len == |arrived|;
      assert (arrived + data)[..len + n] == arrived[..len] + data[..n];
      arrived := arrived + data;
      len := len + n;
      if n < |data| {
        overflow := true;
      }
      return |data|;
    }
  }
}
