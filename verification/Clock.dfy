/** Millisecond timestamps that wrap at 32 bits, and deadline tests by signed
    difference. */
module Clock {
  import opened Bits

  const CYCLE: int := 0x1_0000_0000
  const HALF: int := 0x8000_0000

  type Time = Uint32

  /** What the free-running counter shows at true time t. */
  function Shown(t: int): Time {
    t % CYCLE
  }

  function Add(a: Time, ms: nat): Time {
    var x: int := a;
    (x + ms) % CYCLE
  }

  /** static_cast<int32_t>(now - deadline) >= 0 */
  predicate Due(now: Time, deadline: Time) {
    var x: int, y: int := now, deadline;
    (x - y) % CYCLE < HALF
  }

  /** A deadline test tells past from future exactly while the two times are less than
      half a cycle apart on the right side; beyond that it flips every half cycle. */
  lemma DueIff(now: int, deadline: int)
    ensures Due(Shown(now), Shown(deadline)) <==> (now - deadline) / HALF % 2 == 0
  {
    var k, d := now / CYCLE - deadline / CYCLE, now - deadline;
    assert Shown(now) as int - Shown(deadline) as int == d - k * CYCLE;
    SameRemainder(Shown(now) as int - Shown(deadline) as int, d, k);
    WhichHalf(d);
  }

  lemma WhichHalf(d: int)
    ensures d % CYCLE < HALF <==> d / HALF % 2 == 0
  {
    var h, r := d / HALF, d % HALF;
    var g, p := h / 2, h % 2;
    Remainder(d, g, p * HALF + r);
  }

  lemma Remainder(x: int, q: int, r: int)
    requires x == q * CYCLE + r && 0 <= r < CYCLE
    ensures x % CYCLE == r
  {}

  lemma SameRemainder(x: int, y: int, k: int)
    requires x == y - k * CYCLE
    ensures x % CYCLE == y % CYCLE
  {
    Remainder(x, y / CYCLE - k, y % CYCLE);
  }

  /** So within half a cycle a deadline is due from its moment on, and not before. */
  lemma DueWithinHalf(now: int, deadline: int)
    requires -HALF <= now - deadline < HALF
    ensures Due(Shown(now), Shown(deadline)) <==> now >= deadline
  {
    DueIff(now, deadline);
  }

  lemma AddShown(t: int, ms: nat)
    ensures Add(Shown(t), ms) == Shown(t + ms)
  {
    SameRemainder(t % CYCLE + ms, t + ms, t / CYCLE);
  }
}
