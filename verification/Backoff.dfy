/** Retry backoff, publish lease and dedup TTL arithmetic, with the integer widths the source has. */
module Backoff {
  import opened Wrappers
  import opened Float64
  import opened Model

  const TWO_63: int := 0x8000_0000_0000_0000
  const MICROS_PER_SEC: int := 1_000_000
  const TWO_64: int := 0x1_0000_0000_0000_0000

  lemma {:induction false} Pow2Monotone(a: nat, b: nat)
    requires a <= b
    ensures Pow2(a) <= Pow2(b)
  {
    if a < b {
      Pow2Monotone(a, b - 1);
    }
  }

  // ---- durations -------------------------------------------------------

  /** Two's-complement reduction to int64. */
  function Wrap64(n: int): int {
    (n + TWO_63) % TWO_64 - TWO_63
  }

  /** time.Duration(sec) * time.Second, an int64 product. */
  function Seconds(sec: int): Time {
    Wrap64(sec * NANOS_PER_SEC)
  }

  /** The largest whole number of seconds a time.Duration holds. */
  const MAX_DURATION_SEC: int := 9223372036

  /** The duration is the configured number of seconds exactly when it fits; only then is it sure to be positive. */
  lemma SecondsExact(sec: int)
    requires 0 < sec < TWO_63
    ensures Seconds(sec) == sec * NANOS_PER_SEC <==> sec <= MAX_DURATION_SEC
    ensures sec <= MAX_DURATION_SEC ==> Seconds(sec) > 0
  {
    var n := sec * NANOS_PER_SEC;
    if sec <= MAX_DURATION_SEC {
      assert 0 < n < TWO_63;
    } else {
      assert n >= TWO_63;
    }
  }

  /** One second past the bound already gives a negative lease or TTL. */
  lemma SecondsOverflow()
    ensures Seconds(MAX_DURATION_SEC + 1) < 0
  {
    assert Seconds(9223372037) == -9223372036709551616;
  }

  function PublishLeaseSec(c: Config): int {
    if c.retryPublishLeaseSec <= 0 then 300 else c.retryPublishLeaseSec
  }

  function PublishLease(c: Config): Time {
    Seconds(PublishLeaseSec(c))
  }

  function DedupTTLSec(c: Config): int {
    if c.scheduledDedupTTLSec <= 0 then 86400 else c.scheduledDedupTTLSec
  }

  function DedupTTL(c: Config): Time {
    Seconds(DedupTTLSec(c))
  }

  /** A configured lease or TTL is that many seconds while it fits; one that is not set is 300 seconds or a day. */
  lemma DurationsConfigured(c: Config)
    ensures 0 < c.retryPublishLeaseSec <= MAX_DURATION_SEC ==> PublishLease(c) == c.retryPublishLeaseSec * NANOS_PER_SEC
    ensures c.retryPublishLeaseSec <= 0 ==> PublishLease(c) == 300 * NANOS_PER_SEC
    ensures 0 < c.scheduledDedupTTLSec <= MAX_DURATION_SEC ==> DedupTTL(c) == c.scheduledDedupTTLSec * NANOS_PER_SEC
    ensures c.scheduledDedupTTLSec <= 0 ==> DedupTTL(c) == 86400 * NANOS_PER_SEC
  {
    if 0 < PublishLeaseSec(c) <= MAX_DURATION_SEC {
      SecondsExact(PublishLeaseSec(c));
    }
    if 0 < DedupTTLSec(c) <= MAX_DURATION_SEC {
      SecondsExact(DedupTTLSec(c));
    }
  }

  // ---- backoff ---------------------------------------------------------

  /** The service's defaults and clamp: (initialSec, maxSec). */
  function BackoffParams(c: Config): (int, int) {
    var initial := if c.retryBackoffInitialSec <= 0 then 30 else c.retryBackoffInitialSec;
    var cap := if c.retryBackoffMaxSec <= 0 then 3600 else c.retryBackoffMaxSec;
    (initial, if cap < initial then initial else cap)
  }

  /** The repository's own clamp of the two parameters. */
  function RepoClamp(initial: int, cap: int): (int, int) {
    var i := if initial <= 0 then 1 else initial;
    var m := if cap <= 0 then i else cap;
    (i, if m < i then i else m)
  }

  /** For every configuration the second clamp is the identity on the first one's output. */
  lemma ClampsAgree(c: Config)
    ensures var (i, m) := BackoffParams(c); 1 <= i <= m && RepoClamp(i, m) == (i, m)
  {
  }

  /** min(initial * 2^a, cap), the documented delay in seconds. */
  function Capped(initial: int, cap: int, a: nat): int {
    Min(initial * Pow2(a), cap)
  }

  /** The product in double precision, cast to bigint; None when the cast is out of range. */
  function SqlCast(initial: int, a: nat): Option<int> {
    var product := RoundInt(initial) * Pow2(a);
    if product >= TWO_63 then None else Some(product)
  }

  /** LEAST(product, cap) * INTERVAL '1 second': None also when the interval's int64 microseconds overflow. */
  function SqlDelay(initial: int, cap: int, a: nat): Option<int> {
    match SqlCast(initial, a)
    case None => None
    case Some(product) =>
      var d := Min(product, cap);
      if Micros(d) >= TWO_63 then None else Some(d)
  }

  /** d * INTERVAL '1 second' in microseconds: the multiplication is one of double precision. */
  function Micros(d: int): int {
    RoundInt(d * MICROS_PER_SEC)
  }

  /** Up to 2^59 microseconds, over 18000 years, that is exact. */
  const EXACT_MICROS: int := 64 * EXACT

  lemma MicrosExact(d: int)
    requires 0 <= d * MICROS_PER_SEC < EXACT_MICROS
    ensures Micros(d) == d * MICROS_PER_SEC
  {
    var m := d * 15625;
    assert Pow2(6) == 64;
    Representable(m, 6);
  }

  lemma MicrosMonotone(a: int, b: int)
    requires 1 <= a <= b
    ensures 1 <= Micros(a) <= Micros(b)
  {
    RoundLarge(a * MICROS_PER_SEC);
    RoundMonotone(a * MICROS_PER_SEC, b * MICROS_PER_SEC);
    hide Round;
  }

  /** From 2^53 seconds on it is out of range. */
  lemma MicrosLarge(d: int)
    requires d >= EXACT
    ensures Micros(d) >= TWO_63
  {
    Representable(EXACT / 2, 11);
    assert EXACT / 2 * Pow2(11) == TWO_63;
    RoundMonotone(TWO_63, d * MICROS_PER_SEC);
    hide Round;
  }

  /** PostgreSQL's timestamps end with the year 294276. */
  const TIMESTAMP_END: Time := 9_286_453_612_800 * NANOS_PER_SEC

  /** The same interval in the model's unit of time. */
  function Nanos(d: int): Time {
    Micros(d) * 1000
  }

  /** NOW() + delay; None is any of the statement's range errors. */
  function SqlRetryAt(initial: int, cap: int, a: nat, at: Time): Option<Time> {
    match SqlDelay(initial, cap, a)
    case None => None
    case Some(d) => if at + Nanos(d) >= TIMESTAMP_END then None else Some(at + Nanos(d))
  }

  /** Doubling and capping step by step. */
  function Doubled(initial: int, cap: int, a: nat): int {
    if a == 0 then initial else Min(2 * Doubled(initial, cap, a - 1), cap)
  }

  /** The closed form is iterated doubling under the cap. */
  lemma {:induction false} CappedIsIterated(initial: int, cap: int, a: nat)
    requires 1 <= initial <= cap
    ensures Capped(initial, cap, a) == Doubled(initial, cap, a)
  {
    if a > 0 {
      CappedIsIterated(initial, cap, a - 1);
      Double(initial, a - 1);
    }
  }

  lemma Double(initial: int, a: nat)
    ensures initial * Pow2(a + 1) == 2 * (initial * Pow2(a))
  {
  }

  /** The delay lies in [initial, cap] and never shrinks as attempts grow. */
  lemma CappedMonotone(initial: int, cap: int, a: nat, b: nat)
    requires 1 <= initial <= cap && a <= b
    ensures initial <= Capped(initial, cap, a) <= Capped(initial, cap, b) <= cap
  {
    Pow2Monotone(a, b);
    ScaleMonotone(initial, 1, Pow2(a));
    ScaleMonotone(initial, Pow2(a), Pow2(b));
  }

  lemma ScaleMonotone(k: int, x: int, y: int)
    requires k >= 0 && x <= y
    ensures k * x <= k * y
  {
  }

  /** Sum of the first n delays. */
  function TotalBackoff(initial: int, cap: int, n: nat): int {
    if n == 0 then 0 else TotalBackoff(initial, cap, n - 1) + Capped(initial, cap, n - 1)
  }

  lemma {:induction false} GeometricBound(initial: int, cap: int, n: nat)
    requires 1 <= initial <= cap
    ensures TotalBackoff(initial, cap, n) <= initial * Pow2(n) - initial
  {
    if n > 0 {
      GeometricBound(initial, cap, n - 1);
      Double(initial, n - 1);
    }
  }

  /** As long as the cap is not reached the geometric bound is the sum itself. */
  lemma {:induction false} TotalBackoffExactly(initial: int, cap: int, n: nat)
    requires 1 <= initial <= cap && (n > 0 ==> initial * Pow2(n - 1) <= cap)
    ensures TotalBackoff(initial, cap, n) == initial * Pow2(n) - initial
  {
    if n > 0 {
      Double(initial, n - 1);
      if n > 1 {
        Pow2Monotone(n - 2, n - 1);
        ScaleMonotone(initial, Pow2(n - 2), Pow2(n - 1));
      }
      hide Pow2;
      TotalBackoffExactly(initial, cap, n - 1);
    } else {
      assert Pow2(0) == 1;
    }
  }

  lemma {:induction false} LinearBound(initial: int, cap: int, n: nat)
    requires 1 <= initial <= cap
    ensures TotalBackoff(initial, cap, n) <= n * cap
  {
    if n > 0 {
      LinearBound(initial, cap, n - 1);
      assert n * cap == (n - 1) * cap + cap;
    }
  }

  /** The geometric bound and the linear bound on n delays hold together. */
  lemma TotalBackoffBound(initial: int, cap: int, n: nat)
    requires 1 <= initial <= cap
    ensures TotalBackoff(initial, cap, n) <= Min(initial * (Pow2(n) - 1), n * cap)
  {
    GeometricBound(initial, cap, n);
    LinearBound(initial, cap, n);
    assert initial * (Pow2(n) - 1) == initial * Pow2(n) - initial;
  }

  /** Every failure that leaves a row pending has its product in bigint range. */
  predicate CastFits(initial: int, maxAttempts: int) {
    maxAttempts >= 2 ==> RoundInt(initial) * Pow2(maxAttempts - 2) < TWO_63
  }

  /**
   The one check that decides whether the cast can fail, on all the attempt counts that reach the growing
   branch; below 2^53 seconds the product it looks at is exact.
   */
  lemma CastInRangeExactly(initial: int, maxAttempts: int)
    requires initial >= 1
    ensures CastFits(initial, maxAttempts) <==>
            forall a: nat :: a + 1 < maxAttempts ==> SqlCast(initial, a).Some?
    ensures initial < EXACT ==>
              (CastFits(initial, maxAttempts) <==> (maxAttempts >= 2 ==> initial * Pow2(maxAttempts - 2) < TWO_63))
  {
    RoundLarge(initial);
    if CastFits(initial, maxAttempts) {
      forall a: nat | a + 1 < maxAttempts ensures SqlCast(initial, a).Some? {
        Pow2Monotone(a, maxAttempts - 2);
        ScaleMonotone(RoundInt(initial), Pow2(a), Pow2(maxAttempts - 2));
      }
    } else {
      assert SqlCast(initial, maxAttempts - 2).None?;
    }
  }

  /** The statement never computes a wrong delay: it is the documented one, or an error. */
  lemma DelayOrError(initial: int, cap: int, a: nat)
    requires 1 <= initial <= cap
    ensures SqlDelay(initial, cap, a) ==
            if initial * Pow2(a) < TWO_63 && Micros(Capped(initial, cap, a)) < TWO_63
            then Some(Capped(initial, cap, a)) else None
  {
    RoundLarge(initial);
    ScaleMonotone(initial, 1, Pow2(a));
    ScaleMonotone(RoundInt(initial), 1, Pow2(a));
    hide Round, Pow2, Micros;
    if initial >= EXACT {
      MicrosLarge(Capped(initial, cap, a));
      MicrosLarge(Min(RoundInt(initial) * Pow2(a), cap));
    }
  }

  /** Every failure that leaves a row pending has its product and its interval in range. */
  predicate BackoffFits(initial: int, cap: int, maxAttempts: int) {
    maxAttempts >= 2 ==>
      && initial * Pow2(maxAttempts - 2) < TWO_63
      && Micros(Capped(initial, cap, maxAttempts - 2)) < TWO_63
  }

  /**
   The one check on the configuration that decides whether the delay can fail: below it, on every attempt
   count that reaches the growing branch, the SQL delay is the documented formula.
   */
  lemma DelayInRangeExactly(initial: int, cap: int, maxAttempts: int)
    requires 1 <= initial <= cap
    ensures BackoffFits(initial, cap, maxAttempts) <==>
            forall a: nat :: a + 1 < maxAttempts ==> SqlDelay(initial, cap, a) == Some(Capped(initial, cap, a))
  {
    hide SqlDelay, Micros;
    if BackoffFits(initial, cap, maxAttempts) {
      forall a: nat | a + 1 < maxAttempts ensures SqlDelay(initial, cap, a) == Some(Capped(initial, cap, a)) {
        Pow2Monotone(a, maxAttempts - 2);
        ScaleMonotone(initial, Pow2(a), Pow2(maxAttempts - 2));
        CappedMonotone(initial, cap, a, maxAttempts - 2);
        MicrosMonotone(Capped(initial, cap, a), Capped(initial, cap, maxAttempts - 2));
        DelayOrError(initial, cap, a);
      }
    } else {
      DelayOrError(initial, cap, maxAttempts - 2);
      assert SqlDelay(initial, cap, maxAttempts - 2).None?;
    }
  }

  /** Backoff after a failure that read attempt count a, as a time span. */
  function Delay(c: Config, a: nat): Time {
    var (initial, cap) := BackoffParams(c);
    Nanos(Capped(initial, cap, a))
  }

  /** Up to 2^59 microseconds it is min(initial * 2^a, cap) seconds exactly. */
  lemma DelayExact(c: Config, a: nat)
    requires var (initial, cap) := BackoffParams(c); Capped(initial, cap, a) * MICROS_PER_SEC < EXACT_MICROS
    ensures var (initial, cap) := BackoffParams(c); Delay(c, a) == Capped(initial, cap, a) * NANOS_PER_SEC
  {
    var (initial, cap) := BackoffParams(c);
    CappedMonotone(initial, cap, a, a);
    hide Micros, Capped;
    MicrosExact(Capped(initial, cap, a));
  }

  /** Beyond, rounding moves it by no more than one part in 2^53. */
  lemma DelayBound(c: Config, a: nat)
    ensures var (initial, cap) := BackoffParams(c);
            && Capped(initial, cap, a) * NANOS_PER_SEC * (EXACT - 1) <= Delay(c, a) * EXACT
            && Delay(c, a) * EXACT <= Capped(initial, cap, a) * NANOS_PER_SEC * (EXACT + 1)
            && (cap * MICROS_PER_SEC < EXACT_MICROS ==> Delay(c, a) == Capped(initial, cap, a) * NANOS_PER_SEC)
  {
    var (initial, cap) := BackoffParams(c);
    CappedMonotone(initial, cap, a, a);
    RoundError(Capped(initial, cap, a) * MICROS_PER_SEC);
    hide Round, Capped;
    if cap * MICROS_PER_SEC < EXACT_MICROS {
      DelayExact(c, a);
    }
  }

  function CapNanos(c: Config): Time {
    Nanos(BackoffParams(c).1)
  }

  lemma DelayMonotone(c: Config, a: nat, b: nat)
    requires a <= b
    ensures 0 < Delay(c, a) <= Delay(c, b) <= CapNanos(c)
  {
    var (initial, cap) := BackoffParams(c);
    CappedMonotone(initial, cap, a, b);
    CappedMonotone(initial, cap, b, b);
    hide Micros, Capped;
    MicrosMonotone(Capped(initial, cap, a), Capped(initial, cap, b));
    MicrosMonotone(Capped(initial, cap, b), cap);
  }
}
