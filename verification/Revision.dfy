/**
 * The revision of requested subscription parameters (OPC UA Part 4, section 5.13.2), in the setters of
 * opcua/server/subscription.go. Times are milliseconds over the reals; counts are 32-bit unsigned.
 */
module Revision {
  import opened Bytes

  const MIN_PUBLISHING_INTERVAL := 125.0
  const MAX_PUBLISHING_INTERVAL := 60000.0
  const MIN_LIFETIME := 10000.0
  const MAX_LIFETIME := 3600000.0
  const MAX_U32: u32 := 0xFFFF_FFFF

  /** A requested interval: a number, or NaN. */
  datatype Requested = NaN | Number(value: real)

  function RevisedInterval(r: Requested): (p: real)
    ensures MIN_PUBLISHING_INTERVAL <= p <= MAX_PUBLISHING_INTERVAL
    ensures r.Number? && MIN_PUBLISHING_INTERVAL <= r.value <= MAX_PUBLISHING_INTERVAL ==> p == r.value
  {
    if r.NaN? || r.value < MIN_PUBLISHING_INTERVAL then MIN_PUBLISHING_INTERVAL
    else if r.value > MAX_PUBLISHING_INTERVAL then MAX_PUBLISHING_INTERVAL
    else r.value
  }

  /** The time that `n` publishing intervals take. */
  function Span(n: int, p: real): (r: real)
  {
    Times(n as real, p)
  }

  lemma SpanAdd(m: int, n: int, p: real)
    ensures Span(m + n, p) == Span(m, p) + Span(n, p)
  {
  }

  lemma SpanOrder(m: int, n: int, p: real)
    requires p > 0.0
    ensures m <= n ==> Span(m, p) <= Span(n, p)
    ensures m < n ==> Span(m, p) + p <= Span(n, p)
  {
    hide Times;
    TimesOrder(m as real, n as real, p);
    TimesOrder((m + 1) as real, n as real, p);
    OneMore(m as real, (m + 1) as real, p);
  }

  /** A count is bounded by what it takes in intervals of the least length. */
  lemma SpanAtLeast(n: nat, p: real)
    requires p >= MIN_PUBLISHING_INTERVAL
    ensures Span(n, p) >= n as real * MIN_PUBLISHING_INTERVAL
  {
  }

  /** `uint32(total / p)`, plus one unless the division is exact. */
  function CountFor(total: real, p: real): (n: int)
    requires p > 0.0 && total > 0.0
  {
    var n := (total / p).Floor;
    if n < MAX_U32 && Span(n, p) != total then n + 1 else n
  }

  /** `CountFor` is the least count that covers `total`. */
  lemma CountForLeast(total: real, p: real)
    requires 0.0 < total <= MAX_LIFETIME && p >= MIN_PUBLISHING_INTERVAL
    ensures var n := CountFor(total, p); 1 <= n && total <= Span(n, p) < total + p
  {
    var n := (total / p).Floor;
    FloorOf(total, p, n);
    hide Span;
    SpanOrder(n, 0, p);
    SpanOrder(28800, n, p);
    SpanAtLeast(28800, p);
    SpanAdd(n, 1, p);
    SpanUnit(p);
  }

  lemma FloorOf(total: real, p: real, n: int)
    requires p > 0.0 && n == (total / p).Floor
    ensures Span(n, p) <= total < Span(n, p) + p
  {
    hide Times;
    var q := total / p;
    Quotient(total, p, q);
    Between(n as real, q, p);
  }

  lemma Quotient(total: real, p: real, q: real)
    requires p > 0.0 && q == total / p
    ensures Times(q, p) == total
  {
  }

  function Times(x: real, p: real): (r: real)
  {
    x * p
  }

  lemma Between(x: real, q: real, p: real)
    requires p > 0.0 && x <= q < x + 1.0
    ensures Times(x, p) <= Times(q, p) < Times(x, p) + p
  {
    hide Times;
    var y := x + 1.0;
    TimesOrder(x, q, p);
    TimesOrder(q, y, p);
    OneMore(x, y, p);
  }

  lemma OneMore(x: real, y: real, p: real)
    requires y == x + 1.0
    ensures Times(y, p) == Times(x, p) + p
  {
  }

  lemma TimesOrder(a: real, b: real, p: real)
    requires p > 0.0
    ensures a <= b ==> Times(a, p) <= Times(b, p)
    ensures a < b ==> Times(a, p) < Times(b, p)
  {
    assert Times(b, p) - Times(a, p) == (b - a) * p;
  }

  lemma SpanUnit(p: real)
    ensures Span(0, p) == 0.0 && Span(1, p) == p
  {
  }

  /** A count is the least one that covers `total` if it does and one fewer does not. */
  lemma CountForUnique(total: real, p: real, n: int)
    requires 0.0 < total <= MAX_LIFETIME && p >= MIN_PUBLISHING_INTERVAL
    requires total <= Span(n, p) < total + p
    ensures CountFor(total, p) == n
  {
    hide CountFor, Span;
    CountForLeast(total, p);
    SpanOrder(CountFor(total, p), n, p);
    SpanOrder(n, CountFor(total, p), p);
  }

  function RevisedKeepAlive(requested: u32, p: real): (k: int)
    requires p >= MIN_PUBLISHING_INTERVAL
  {
    var k0: int := if requested == 0 then 3 else requested;
    var k1 := if Span(k0, p) > MAX_LIFETIME then CountFor(MAX_LIFETIME, p) else k0;
    if Span(k1, p) > MAX_PUBLISHING_INTERVAL then CountFor(MAX_PUBLISHING_INTERVAL, p) else k1
  }

  function RevisedLifetime(requested: u32, k: int, p: real): (n: int)
    requires p >= MIN_PUBLISHING_INTERVAL
  {
    var n0 := if Span(requested, p) > MAX_LIFETIME then CountFor(MAX_LIFETIME, p) else requested;
    if k < MAX_U32 / 3 then
      var n1 := if k * 3 > n0 then k * 3 else n0;
      if MIN_LIFETIME > p && MIN_LIFETIME > Span(n1, p) then CountFor(MIN_LIFETIME, p) else n1
    else MAX_U32
  }

  /** The keep-alive count is between 1 and 480, and keep-alives are at most one interval over a minute apart. */
  lemma KeepAliveBounds(requested: u32, p: real)
    requires MIN_PUBLISHING_INTERVAL <= p <= MAX_PUBLISHING_INTERVAL
    ensures var k := RevisedKeepAlive(requested, p);
            && 1 <= k <= 480 && Span(k, p) < MAX_PUBLISHING_INTERVAL + p
  {
    hide CountFor, Span;
    CountForLeast(MAX_LIFETIME, p);
    CountForLeast(MAX_PUBLISHING_INTERVAL, p);
    SpanOrder(480, RevisedKeepAlive(requested, p), p);
    SpanAtLeast(480, p);
  }

  /**
   * The lifetime covers three keep-alive periods and ten seconds, and is at most one interval over an hour;
   * the branch for counts of 2^32 / 3 and more is never taken.
   */
  lemma LifetimeBounds(requested: u32, k: int, p: real)
    requires MIN_PUBLISHING_INTERVAL <= p <= MAX_PUBLISHING_INTERVAL
    requires 1 <= k <= 480 && Span(k, p) < MAX_PUBLISHING_INTERVAL + p
    ensures k < MAX_U32 / 3
    ensures var n := RevisedLifetime(requested, k, p);
            && 3 * k <= n <= 28800 && MIN_LIFETIME <= Span(n, p) < MAX_LIFETIME + p
  {
    hide CountFor, Span;
    CountForLeast(MAX_LIFETIME, p);
    CountForLeast(MIN_LIFETIME, p);
    var n := RevisedLifetime(requested, k, p);
    SpanAdd(k, k, p);
    SpanAdd(k + k, k, p);
    assert k + k + k == k * 3;
    SpanUnit(p);
    SpanAdd(1, 2, p);
    SpanAdd(1, 1, p);
    SpanOrder(3, n, p);
    SpanOrder(3, k * 3, p);
    var n0 := if Span(requested, p) > MAX_LIFETIME then CountFor(MAX_LIFETIME, p) else requested;
    SpanOrder(n, if k * 3 > n0 then k * 3 else n0, p);
    SpanOrder(28800, n, p);
    SpanAtLeast(28800, p);
  }

  /** The parameters of a subscription after revision, in the order in which `Modify` revises them. */
  datatype Parameters = Parameters(interval: real, keepAlive: u32, lifetime: u32)

  ghost predicate Revised(r: Parameters)
  {
    && MIN_PUBLISHING_INTERVAL <= r.interval <= MAX_PUBLISHING_INTERVAL
    && 1 <= r.keepAlive <= 480 && Span(r.keepAlive, r.interval) < MAX_PUBLISHING_INTERVAL + r.interval
    && 3 * r.keepAlive <= r.lifetime <= 28800
    && MIN_LIFETIME <= Span(r.lifetime, r.interval) < MAX_LIFETIME + r.interval
  }

  function Revise(interval: Requested, keepAlive: u32, lifetime: u32): (r: Parameters)
    ensures Revised(r)
  {
    hide RevisedKeepAlive, RevisedLifetime, Span;
    var p := RevisedInterval(interval);
    KeepAliveBounds(keepAlive, p);
    var k := RevisedKeepAlive(keepAlive, p);
    LifetimeBounds(lifetime, k, p);
    Parameters(p, k, RevisedLifetime(lifetime, k, p))
  }

  lemma KeepAliveStable(k: u32, p: real)
    requires MIN_PUBLISHING_INTERVAL <= p <= MAX_PUBLISHING_INTERVAL
    requires 1 <= k && Span(k, p) < MAX_PUBLISHING_INTERVAL + p
    ensures RevisedKeepAlive(k, p) == k
  {
    hide CountFor, Span;
    if Span(k, p) > MAX_PUBLISHING_INTERVAL {
      CountForUnique(MAX_PUBLISHING_INTERVAL, p, k);
    }
  }

  lemma LifetimeStable(n: u32, k: int, p: real)
    requires MIN_PUBLISHING_INTERVAL <= p <= MAX_PUBLISHING_INTERVAL
    requires 1 <= k <= 480 && 3 * k <= n && MIN_LIFETIME <= Span(n, p) < MAX_LIFETIME + p
    ensures RevisedLifetime(n, k, p) == n
  {
    hide CountFor, Span;
    if Span(n, p) > MAX_LIFETIME {
      CountForUnique(MAX_LIFETIME, p, n);
    }
  }

  /** Revising revised parameters changes nothing. */
  lemma ReviseIdempotent(interval: Requested, keepAlive: u32, lifetime: u32)
    ensures var r := Revise(interval, keepAlive, lifetime);
            Revise(Number(r.interval), r.keepAlive, r.lifetime) == r
  {
    hide RevisedKeepAlive, RevisedLifetime, Span;
    var r := Revise(interval, keepAlive, lifetime);
    KeepAliveStable(r.keepAlive, r.interval);
    LifetimeStable(r.lifetime, r.keepAlive, r.interval);
  }

  // ------------------------------------------------------------------ what a client gets

  function Apart(x: real, y: real): (d: real)
  {
    if x >= y then x - y else y - x
  }

  /** A client gets the interval nearest to the one it asked for, and the shortest if it asked for no number. */
  lemma IntervalIsNearest(r: Requested, q: real)
    requires MIN_PUBLISHING_INTERVAL <= q <= MAX_PUBLISHING_INTERVAL
    ensures r.Number? ==> Apart(RevisedInterval(r), r.value) <= Apart(q, r.value)
    ensures r.NaN? ==> RevisedInterval(r) <= q
  {
  }

  /** It is long enough for a keep-alive count: as asked for (three if nothing was), or a minute. */
  predicate KeepAliveEnough(k: nat, requested: u32, p: real)
  {
    k >= (if requested == 0 then 3 else requested) || Span(k, p) >= MAX_PUBLISHING_INTERVAL
  }

  /** A client gets the least keep-alive count that is enough. */
  lemma KeepAliveIsLeast(requested: u32, p: real, m: nat)
    requires MIN_PUBLISHING_INTERVAL <= p <= MAX_PUBLISHING_INTERVAL
    ensures var k := RevisedKeepAlive(requested, p);
            k >= 1 && KeepAliveEnough(k, requested, p) && (m < k ==> !KeepAliveEnough(m, requested, p))
  {
    hide CountFor, Span;
    KeepAliveBounds(requested, p);
    CountForLeast(MAX_LIFETIME, p);
    CountForLeast(MAX_PUBLISHING_INTERVAL, p);
    var k := RevisedKeepAlive(requested, p);
    var k0 := if requested == 0 then 3 else requested;
    SpanOrder(k, k0, p);
    SpanOrder(k0, k, p);
    SpanOrder(m, k, p);
    SpanOrder(k, CountFor(MAX_LIFETIME, p), p);
    SpanOrder(CountFor(MAX_LIFETIME, p), k, p);
  }

  /** Three keep-alive periods, ten seconds, and as asked for or an hour. */
  predicate LifetimeEnough(n: nat, requested: u32, k: nat, p: real)
  {
    n >= 3 * k && Span(n, p) >= MIN_LIFETIME && (n >= requested || Span(n, p) >= MAX_LIFETIME)
  }

  /** A client gets the least lifetime count that is enough. */
  lemma LifetimeIsLeast(requested: u32, k: int, p: real, m: nat)
    requires MIN_PUBLISHING_INTERVAL <= p <= MAX_PUBLISHING_INTERVAL
    requires 1 <= k <= 480 && Span(k, p) < MAX_PUBLISHING_INTERVAL + p
    ensures var n := RevisedLifetime(requested, k, p);
            n >= 1 && LifetimeEnough(n, requested, k, p) && (m < n ==> !LifetimeEnough(m, requested, k, p))
  {
    hide CountFor, Span;
    LifetimeBounds(requested, k, p);
    CountForLeast(MAX_LIFETIME, p);
    CountForLeast(MIN_LIFETIME, p);
    var n := RevisedLifetime(requested, k, p);
    var long, short := CountFor(MAX_LIFETIME, p), CountFor(MIN_LIFETIME, p);
    SpanOrder(m, n, p);
    SpanOrder(n, m, p);
    SpanOrder(n, requested, p);
    SpanOrder(requested, n, p);
    SpanOrder(long, n, p);
    SpanOrder(n, long, p);
    SpanOrder(m, long, p);
    SpanOrder(m, short, p);
    SpanOrder(k * 3, short, p);
    SpanOrder(short, k * 3, p);
    SpanOrder(requested, short, p);
    SpanOrder(short, requested, p);
    SpanOrder(short, long, p);
    SpanOrder(long, short, p);
  }
}
