/**
 One row's life. A history is the sequence of events that happened to a row; every fact here follows
 from each event having been allowed when it happened, whatever else the system was doing.
 */
module Histories {
  import opened Wrappers
  import opened Float64
  import opened Model
  import opened Backoff
  import opened Rows

  function One(b: bool): nat {
    if b then 1 else 0
  }

  function Count(h: seq<Event>, k: Kind): nat {
    if h == [] then 0 else Count(h[..|h| - 1], k) + (if h[|h| - 1].kind == k then 1 else 0)
  }

  lemma CountAppend(h: seq<Event>, e: Event, k: Kind)
    ensures Count(h + [e], k) == Count(h, k) + (if e.kind == k then 1 else 0)
  {
    assert (h + [e])[..|h|] == h;
  }

  lemma {:induction false} CountPrefix(h: seq<Event>, i: nat, j: nat, k: Kind)
    requires i <= j <= |h|
    ensures Count(h[..i], k) <= Count(h[..j], k)
  {
    if i < j {
      CountPrefix(h, i, j - 1, k);
      assert h[..j][..j - 1] == h[..j - 1];
    }
  }

  lemma CountNext(h: seq<Event>, i: nat, k: Kind)
    requires i < |h|
    ensures Count(h[..i + 1], k) == Count(h[..i], k) + (if h[i].kind == k then 1 else 0)
  {
    assert h[..i + 1][..i] == h[..i];
  }

  /** next_retry_at as the last claim or failure left it. */
  function NextDue(c: Config, h: seq<Event>): Option<Time> {
    if h == [] then None
    else
      var before := h[..|h| - 1];
      var e := h[|h| - 1];
      match e.kind
      case Claimed => Some(e.now + PublishLease(c))
      case FailureRecorded => Some(e.at + Delay(c, Count(before, FailureRecorded)))
      case _ => NextDue(c, before)
  }

  lemma NextDueNext(c: Config, h: seq<Event>, i: nat)
    requires i < |h|
    ensures NextDue(c, h[..i + 1]) ==
            match h[i].kind
            case Claimed => Some(h[i].now + PublishLease(c))
            case FailureRecorded => Some(h[i].at + Delay(c, Count(h[..i], FailureRecorded)))
            case _ => NextDue(c, h[..i])
  {
    assert h[..i + 1][..i] == h[..i];
  }

  // ---- legal histories -------------------------------------------------

  ghost predicate Ordered(h: seq<Event>) {
    && (forall i, j :: 0 <= i <= j < |h| ==> h[i].at <= h[j].at)
    && (forall i :: 0 <= i < |h| ==> h[i].now <= h[i].at)
  }

  /** What the claim query guaranteed when claim i happened. */
  ghost predicate ClaimLegal(c: Config, max: int, h: seq<Event>, i: nat)
    requires i < |h|
  {
    h[i].kind == Claimed ==>
      && NextDue(c, h[..i]).Some?
      && NextDue(c, h[..i]).value <= h[i].now
      && 1 <= Count(h[..i], FailureRecorded) < max
  }

  ghost predicate Legal(c: Config, max: int, h: seq<Event>) {
    Ordered(h) && forall i :: 0 <= i < |h| ==> ClaimLegal(c, max, h, i)
  }

  /** The row invariant: what each status says about the counters and the history behind the row. */
  predicate StatusOk(c: Config, r: Rec) {
    var row := r.row;
    match row.status
    case Pending =>
      && row.attemptCount == Count(r.hist, FailureRecorded)
      && (row.attemptCount == 0 || row.attemptCount < row.maxAttempts)
      && row.nextRetryAt == NextDue(c, r.hist)
      && (row.nextRetryAt.None? <==> row.attemptCount == 0)
      && Count(r.hist, CompletedFirst) == Count(r.hist, CompletedRetry) == 0
    case Failed => row.attemptCount >= row.maxAttempts && row.attemptCount >= 1
    case Completed => row.attemptCount >= 1 && row.sentAt > ZERO_TIME
  }

  ghost predicate RecOk(c: Config, clock: Time, r: Rec) {
    && StatusOk(c, r)
    && Legal(c, r.row.maxAttempts, r.hist)
    && (forall i :: 0 <= i < |r.hist| ==> r.hist[i].at <= clock)
  }

  lemma LegalAppend(c: Config, max: int, h: seq<Event>, e: Event)
    requires Legal(c, max, h) && e.now <= e.at && forall i :: 0 <= i < |h| ==> h[i].at <= e.at
    requires e.kind == Claimed ==>
               NextDue(c, h).Some? && NextDue(c, h).value <= e.now && 1 <= Count(h, FailureRecorded) < max
    ensures Legal(c, max, h + [e])
  {
    var g := h + [e];
    forall i | 0 <= i < |g| ensures ClaimLegal(c, max, g, i) {
      if i < |h| {
        assert g[..i] == h[..i];
        assert ClaimLegal(c, max, h, i);
      } else {
        assert g[..i] == h;
      }
    }
  }

  /** On a pending row the statement's delay is the documented one. */
  lemma FailureDelay(c: Config, row: Notification, at: Time)
    requires FailureResult(c, row, at).Some?
    ensures row.attemptCount + 1 < row.maxAttempts ==>
              FailureResult(c, row, at) == Some(row.(attemptCount := row.attemptCount + 1,
                                                     nextRetryAt := Some(at + Delay(c, row.attemptCount))))
  {
    var (initial, cap) := BackoffParams(c);
    ClampsAgree(c);
    DelayOrError(initial, cap, row.attemptCount);
    hide SqlDelay, Capped;
  }

  /**
   With both backoff fields configured and the cap below 2^59 microseconds, a failure that leaves the row pending
   sets next_retry_at min(initial * 2^attempt_count, max) seconds ahead: after the first one, initial seconds.
   */
  lemma ConfiguredDelay(c: Config, row: Notification, at: Time)
    requires 0 < c.retryBackoffInitialSec <= c.retryBackoffMaxSec && c.retryBackoffMaxSec * MICROS_PER_SEC < EXACT_MICROS
    requires FailureResult(c, row, at).Some? && row.attemptCount + 1 < row.maxAttempts
    ensures var next := FailureResult(c, row, at).value.nextRetryAt;
            var sec := Min(c.retryBackoffInitialSec * Pow2(row.attemptCount), c.retryBackoffMaxSec);
            && next == Some(at + sec * NANOS_PER_SEC)
            && (row.attemptCount == 0 ==> next == Some(at + c.retryBackoffInitialSec * NANOS_PER_SEC))
  {
    FailureDelay(c, row, at);
    DelayBound(c, row.attemptCount);
    assert Pow2(0) == 1;
    hide FailureResult, Delay, Pow2;
  }

  /** Every allowed event keeps the row invariant. */
  lemma RecStep(c: Config, clock: Time, r: Rec, e: Event)
    requires RecOk(c, clock, r) && EventOk(c, r.row, clock, e)
    ensures RecOk(c, clock, Append(c, r, e))
    ensures SameBody(r.row, Append(c, r, e).row)
    ensures r.row.attemptCount >= 1 ==> Append(c, r, e).row.attemptCount >= 1
    ensures r.row.status != Pending ==> Append(c, r, e).row.status != Pending
  {
    hide SqlRetryAt, Delay, PublishLease, BackoffParams, RepoClamp;
    LegalAppend(c, r.row.maxAttempts, r.hist, e);
    assert (r.hist + [e])[..|r.hist|] == r.hist;
    if e.kind == FailureRecorded {
      FailureDelay(c, r.row, e.at);
    }
  }

  /** A pending row fails exactly on its max_attempts-th recorded failure. */
  lemma FailsOnLastAttempt(c: Config, clock: Time, r: Rec, e: Event)
    requires RecOk(c, clock, r) && r.row.status == Pending && r.row.maxAttempts >= 1
    requires EventOk(c, r.row, clock, e) && e.kind == FailureRecorded
    ensures var r' := Append(c, r, e);
            && Count(r'.hist, FailureRecorded) <= r.row.maxAttempts
            && (r'.row.status == Failed <==> Count(r'.hist, FailureRecorded) == r.row.maxAttempts)
            && (r'.row.status == Pending <==> Count(r'.hist, FailureRecorded) < r.row.maxAttempts)
  {
    CountAppend(r.hist, e, FailureRecorded);
    FailureDelay(c, r.row, e.at);
  }

  // ---- claims are sparse -----------------------------------------------

  ghost predicate NoFailureIn(h: seq<Event>, i: int, j: int) {
    forall k :: 0 <= k < |h| && i <= k < j ==> h[k].kind != FailureRecorded
  }

  /** Until the next failure, later claims only push next_retry_at further out. */
  lemma {:induction false} DueHolds(c: Config, max: int, h: seq<Event>, i: nat, j: nat, t: Time)
    requires Legal(c, max, h) && i < j <= |h| && NoFailureIn(h, i + 1, j)
    requires PublishLease(c) >= 0
    requires NextDue(c, h[..i + 1]).Some? && NextDue(c, h[..i + 1]).value >= t
    ensures NextDue(c, h[..j]).Some? && NextDue(c, h[..j]).value >= t
  {
    if j > i + 1 {
      DueHolds(c, max, h, i, j - 1, t);
      NextDueNext(c, h, j - 1);
      assert ClaimLegal(c, max, h, j - 1);
    }
  }

  /** Two claims with no recorded failure between them are at least one lease apart in captured time. */
  lemma ClaimsSpaced(c: Config, max: int, h: seq<Event>, i: nat, j: nat)
    requires Legal(c, max, h) && i < j < |h| && PublishLease(c) >= 0
    requires h[i].kind == Claimed && h[j].kind == Claimed && NoFailureIn(h, i, j)
    ensures h[j].now >= h[i].now + PublishLease(c)
  {
    NextDueNext(c, h, i);
    DueHolds(c, max, h, i, j, h[i].now + PublishLease(c));
    assert ClaimLegal(c, max, h, j);
  }

  /** A claim after a failure that read attempt count a waits out that failure's backoff. */
  lemma ClaimAfterFailure(c: Config, max: int, h: seq<Event>, i: nat, j: nat)
    requires Legal(c, max, h) && i < j < |h| && PublishLease(c) >= 0
    requires h[i].kind == FailureRecorded && h[j].kind == Claimed && NoFailureIn(h, i + 1, j)
    ensures h[j].now >= h[i].at + Delay(c, Count(h[..i], FailureRecorded))
  {
    NextDueNext(c, h, i);
    DueHolds(c, max, h, i, j, h[i].at + Delay(c, Count(h[..i], FailureRecorded)));
    assert ClaimLegal(c, max, h, j);
  }

  function ClaimsBetween(h: seq<Event>, i: nat, j: nat): int
    requires i <= j <= |h|
  {
    Count(h[..j], Claimed) - Count(h[..i], Claimed)
  }

  function FailuresBetween(h: seq<Event>, i: nat, j: nat): int
    requires i <= j <= |h|
  {
    Count(h[..j], FailureRecorded) - Count(h[..i], FailureRecorded)
  }

  /** A failure cannot bring next_retry_at forward past the lease or backoff it replaces. */
  lemma {:induction false} FailureAfterDue(c: Config, max: int, h: seq<Event>, j: nat)
    requires Legal(c, max, h) && j < |h| && PublishLease(c) >= 0
    requires NextDue(c, h[..j]).Some?
    ensures NextDue(c, h[..j]).value <= h[j].at + PublishLease(c)
         || NextDue(c, h[..j]).value <= h[j].at + Delay(c, Count(h[..j], FailureRecorded))
    decreases j
  {
    if j > 0 {
      NextDueNext(c, h, j - 1);
      CountNext(h, j - 1, FailureRecorded);
      DelayMonotone(c, Count(h[..j - 1], FailureRecorded), Count(h[..j], FailureRecorded));
      if h[j - 1].kind != Claimed && h[j - 1].kind != FailureRecorded {
        FailureAfterDue(c, max, h, j - 1);
      }
    }
  }

  /** Counting from claim i: each claim not paid for by a failure pushes next_retry_at one lease further. */
  lemma {:induction false} DueOutrunsClaims(c: Config, max: int, h: seq<Event>, i: nat, j: nat)
    requires Legal(c, max, h) && i <= j < |h| && h[i].kind == Claimed && PublishLease(c) >= 0
    ensures NextDue(c, h[..j + 1]).Some?
    ensures (ClaimsBetween(h, i, j + 1) - FailuresBetween(h, i, j + 1)) * PublishLease(c)
            <= NextDue(c, h[..j + 1]).value - h[i].now
    decreases j
  {
    var lease := PublishLease(c);
    NextDueNext(c, h, j);
    CountNext(h, j, Claimed);
    CountNext(h, j, FailureRecorded);
    if i < j {
      DueOutrunsClaims(c, max, h, i, j - 1);
      assert ClaimLegal(c, max, h, j);
      var n := ClaimsBetween(h, i, j) - FailuresBetween(h, i, j);
      if h[j].kind == Claimed {
        assert (n + 1) * lease == n * lease + lease;
      } else if h[j].kind == FailureRecorded {
        assert (n - 1) * lease == n * lease - lease;
        FailureAfterDue(c, max, h, j);
        DelayMonotone(c, Count(h[..j], FailureRecorded), Count(h[..j], FailureRecorded));
      }
    }
  }

  /**
   Sparse claims: over any stretch of a row's life from claim i to claim j that spans captured time
   horizon, at most (max_attempts - 1) + horizon / lease claims were made.
   */
  lemma SparseClaims(c: Config, max: int, h: seq<Event>, i: nat, j: nat, horizon: Time)
    requires Legal(c, max, h) && i <= j < |h| && PublishLease(c) > 0
    requires h[i].kind == Claimed && h[j].kind == Claimed && h[j].now - h[i].now <= horizon
    ensures ClaimsBetween(h, i, j + 1) <= (max - 1) + horizon / PublishLease(c)
  {
    var lease := PublishLease(c);
    DueOutrunsClaims(c, max, h, i, j);
    NextDueNext(c, h, j);
    CountNext(h, j, FailureRecorded);
    assert ClaimLegal(c, max, h, i) && ClaimLegal(c, max, h, j);
    var n := ClaimsBetween(h, i, j + 1);
    var f := FailuresBetween(h, i, j + 1);
    assert f <= max - 2;
    assert (n - f) * lease <= horizon + lease;
    assert (n - f - 1) * lease <= horizon by {
      assert (n - f - 1) * lease == (n - f) * lease - lease;
    }
    QuotientBound(n - f - 1, lease, horizon);
  }

  lemma QuotientBound(k: int, d: int, t: int)
    requires d > 0 && k * d <= t
    ensures k <= t / d
  {
    var q := t / d + 1;
    assert q * d > t;
    ProductMonotone(k, q, d);
  }

  lemma ProductMonotone(k: int, q: int, d: int)
    requires d > 0
    ensures k >= q ==> k * d >= q * d
  {
  }

  // ---- next_retry_at is never far away ---------------------------------

  /** A pending row's next_retry_at is at most the longer of lease and backoff cap past the clock. */
  lemma {:induction false} DueWithin(c: Config, max: int, h: seq<Event>, clock: Time)
    requires Legal(c, max, h) && forall i :: 0 <= i < |h| ==> h[i].at <= clock
    ensures NextDue(c, h).Some? ==>
              NextDue(c, h).value <= clock + PublishLease(c) || NextDue(c, h).value <= clock + CapNanos(c)
  {
    if h != [] {
      var n := |h| - 1;
      var before := h[..n];
      DelayMonotone(c, Count(before, FailureRecorded), Count(before, FailureRecorded));
      if h[n].kind != Claimed && h[n].kind != FailureRecorded {
        forall i | 0 <= i < n ensures ClaimLegal(c, max, before, i) {
          assert before[..i] == h[..i];
          assert ClaimLegal(c, max, h, i);
        }
        DueWithin(c, max, before, clock);
      }
    }
  }

  // ---- total backoff ---------------------------------------------------

  /** The backoff granted by all failures in a history. */
  function BackoffGranted(c: Config, h: seq<Event>): Time {
    if h == [] then 0
    else
      var before := h[..|h| - 1];
      BackoffGranted(c, before)
      + (if h[|h| - 1].kind == FailureRecorded then Delay(c, Count(before, FailureRecorded)) else 0)
  }

  /** Up to 2^59 microseconds that is the sum of the documented delays; rounding adds at most one part in 2^53. */
  lemma {:induction false} GrantedIsTotal(c: Config, h: seq<Event>)
    ensures var (initial, cap) := BackoffParams(c);
            var total := TotalBackoff(initial, cap, Count(h, FailureRecorded)) * NANOS_PER_SEC;
            && BackoffGranted(c, h) * EXACT <= total * (EXACT + 1)
            && (cap * MICROS_PER_SEC < EXACT_MICROS ==> BackoffGranted(c, h) == total)
  {
    hide Delay, BackoffParams;
    if h != [] {
      GrantedIsTotal(c, h[..|h| - 1]);
      DelayBound(c, Count(h[..|h| - 1], FailureRecorded));
    }
  }

  /** Before a row leaves PENDING its failures have granted no more backoff than the geometric and linear bounds. */
  lemma LifetimeBackoff(c: Config, clock: Time, r: Rec)
    requires RecOk(c, clock, r) && r.row.status == Pending && r.row.maxAttempts >= 1
    ensures var (initial, cap) := BackoffParams(c);
            var n := r.row.maxAttempts - 1;
            var bound := Min(initial * (Pow2(n) - 1), n * cap) * NANOS_PER_SEC;
            && BackoffGranted(c, r.hist) * EXACT <= bound * (EXACT + 1)
            && (cap * MICROS_PER_SEC < EXACT_MICROS ==> BackoffGranted(c, r.hist) <= bound)
  {
    var (initial, cap) := BackoffParams(c);
    var a := r.row.attemptCount;
    var n := r.row.maxAttempts - 1;
    GrantedIsTotal(c, r.hist);
    TotalBackoffBound(initial, cap, a);
    Pow2Monotone(a, n);
    ScaleMonotone(initial, Pow2(a) - 1, Pow2(n) - 1);
    ScaleMonotone(cap, a, n);
    hide BackoffGranted, TotalBackoff, RecOk;
  }
}
