/** What every run says about a single row: its status, its retries, and how soon it is due again. */
module RowTheorems {
  import opened Wrappers
  import opened Float64
  import opened Model
  import opened Backoff
  import opened Rows
  import opened Histories
  import opened Protocol
  import opened Invariants

  lemma RecAlways(c: Config, ss: seq<State>, ls: seq<Label>, i: nat, id: Id)
    requires IsRun(c, ss, ls) && i <= |ls| && id in ss[i].recs
    ensures RecOk(c, ss[i].clock, ss[i].recs[id])
  {
    hide RecOk, FromRequest, ProcOk, Enabled, Apply;
    InvAlways(c, ss, ls, i);
  }

  /** The row invariant, in every reachable state. */
  lemma StatusAlways(c: Config, ss: seq<State>, ls: seq<Label>, i: nat, id: Id)
    requires IsRun(c, ss, ls) && i <= |ls| && id in ss[i].recs
    ensures var Rec(row, h) := ss[i].recs[id];
            && (row.status == Pending ==>
                  && row.attemptCount == Count(h, FailureRecorded)
                  && (row.maxAttempts >= 1 ==> row.attemptCount < row.maxAttempts)
                  && (row.nextRetryAt.None? <==> row.attemptCount == 0))
            && (row.status == Failed ==> row.attemptCount >= row.maxAttempts && row.attemptCount >= 1)
            && (row.status == Completed ==> row.attemptCount >= 1 && row.sentAt > ZERO_TIME)
  {
    hide Enabled, Apply, Legal;
    RecAlways(c, ss, ls, i, id);
  }

  /** A step takes a row from PENDING to FAILED exactly when it records the max_attempts-th failure. */
  lemma FailedExactlyAtMax(c: Config, ss: seq<State>, ls: seq<Label>, i: nat, id: Id)
    requires IsRun(c, ss, ls) && i < |ls| && id in ss[i].recs
    requires ss[i].recs[id].row.status == Pending && ss[i].recs[id].row.maxAttempts >= 1
    ensures id in ss[i + 1].recs
    ensures ss[i + 1].recs[id].row.status == Failed <==>
            Count(ss[i + 1].recs[id].hist, FailureRecorded) == ss[i].recs[id].row.maxAttempts
  {
    hide RecOk, FromRequest, ProcOk, MoveEvent, CanMove, KeysAfter, ProcsAfter, MailAfter, FailureResult, EventOk;
    InvAlways(c, ss, ls, i);
    var s, l, r := ss[i], ls[i], ss[i].recs[id];
    OneRowStep(c, s, l, id);
    PendingCounts(c, s.clock, r);
    if l.Move? {
      EventAllowed(c, s, s.procs[l.p], l.a, id);
      var e := EventOf(c, s, l, id);
      if e.Some? {
        CountAppend(r.hist, e.value, FailureRecorded);
        if e.value.kind == FailureRecorded {
          FailsOnLastAttempt(c, s.clock, r, e.value);
        }
      }
    }
  }

  /** What the step that records an outcome, or commits a claim, makes of a row, column by column. */
  lemma OutcomeInRuns(c: Config, ss: seq<State>, ls: seq<Label>, i: nat, id: Id)
    requires IsRun(c, ss, ls) && i < |ls| && id in ss[i].recs && ls[i].Move? && ls[i].a.Write?
    requires ss[i].procs[ls[i].p].id == id
    ensures id in ss[i + 1].recs
    ensures var x, row, row' := ss[i].procs[ls[i].p], ss[i].recs[id].row, ss[i + 1].recs[id].row;
            x.ok ==>
              row' == row.(status := Completed, sentAt := x.at, attemptCount := if x.first then 1 else row.attemptCount)
    ensures var x, row, row' := ss[i].procs[ls[i].p], ss[i].recs[id].row, ss[i + 1].recs[id].row;
            !x.ok && row' != row ==>
              && row'.attemptCount == row.attemptCount + 1
              && row'.status == (if row.attemptCount + 1 >= row.maxAttempts then Failed else row.status)
              && (row.attemptCount + 1 >= row.maxAttempts ==> row'.nextRetryAt == row.nextRetryAt)
              && row' == row.(attemptCount := row'.attemptCount, status := row'.status, nextRetryAt := row'.nextRetryAt)
  {
    hide RecOk, FromRequest, ProcOk, Exclusive, KeysAfter, ProcsAfter, MailAfter, SqlRetryAt, BackoffParams, RepoClamp;
    InvAlways(c, ss, ls, i);
    OneRowStep(c, ss[i], ls[i], id);
  }

  /**
   In every run the first failure of a notification sets next_retry_at the configured initial backoff ahead, as
   long as a second attempt is left.
   */
  lemma FirstBackoffInRuns(c: Config, ss: seq<State>, ls: seq<Label>, i: nat, id: Id)
    requires IsRun(c, ss, ls) && i < |ls| && id in ss[i].recs && id in ss[i + 1].recs
    requires 0 < c.retryBackoffInitialSec <= c.retryBackoffMaxSec && c.retryBackoffMaxSec * MICROS_PER_SEC < EXACT_MICROS
    requires ss[i].recs[id].row.status == Pending && ss[i].recs[id].row.attemptCount == 0
    requires ss[i + 1].recs[id].row.status == Pending && ss[i + 1].recs[id].row.attemptCount >= 1
    ensures ss[i + 1].recs[id].row.nextRetryAt == Some(ss[i].clock + c.retryBackoffInitialSec * NANOS_PER_SEC)
  {
    hide RecOk, FromRequest, ProcOk, Exclusive, CanMove, MoveEvent, KeysAfter, ProcsAfter, MailAfter, FailureResult;
    InvAlways(c, ss, ls, i);
    var s, l := ss[i], ls[i];
    OneRowStep(c, s, l, id);
    if l.Move? {
      EventAllowed(c, s, s.procs[l.p], l.a, id);
      FirstFailureIs(c, s.recs[id].row, s.clock);
    }
  }

  lemma FirstFailureIs(c: Config, row: Notification, at: Time)
    requires 0 < c.retryBackoffInitialSec <= c.retryBackoffMaxSec && c.retryBackoffMaxSec * MICROS_PER_SEC < EXACT_MICROS
    requires row.status == Pending && row.attemptCount == 0
    ensures FailureResult(c, row, at).Some? && FailureResult(c, row, at).value.status == Pending ==>
              FailureResult(c, row, at).value.nextRetryAt == Some(at + c.retryBackoffInitialSec * NANOS_PER_SEC)
  {
    if FailureResult(c, row, at).Some? && row.attemptCount + 1 < row.maxAttempts {
      ConfiguredDelay(c, row, at);
    }
    hide SqlRetryAt, BackoffParams, RepoClamp;
  }

  /** In every run a committed claim leases its rows for the configured time from the clock its pass captured. */
  lemma LeaseInRuns(c: Config, ss: seq<State>, ls: seq<Label>, i: nat, id: Id)
    requires IsRun(c, ss, ls) && i < |ls| && ls[i].Move? && ls[i].a.Commit? && id in ss[i].procs[ls[i].p].ids
    requires 0 < c.retryPublishLeaseSec <= MAX_DURATION_SEC
    ensures id in ss[i].recs && id in ss[i + 1].recs
    ensures var now := ss[i].procs[ls[i].p].now;
            ss[i + 1].recs[id].row ==
            ss[i].recs[id].row.(nextRetryAt := Some(now + c.retryPublishLeaseSec * NANOS_PER_SEC))
  {
    hide RecOk, FromRequest, Exclusive, KeysAfter, ProcsAfter, MailAfter, PublishLease;
    InvAlways(c, ss, ls, i);
    assert ProcOk(c, ss[i], ss[i].procs[ls[i].p]);
    OneRowStep(c, ss[i], ls[i], id);
    DurationsConfigured(c);
  }

  lemma PendingCounts(c: Config, clock: Time, r: Rec)
    requires RecOk(c, clock, r) && r.row.status == Pending && r.row.maxAttempts >= 1
    ensures Count(r.hist, FailureRecorded) == r.row.attemptCount < r.row.maxAttempts
  {
  }

  /** PENDING is never re-entered, so a row that left it is never selected again; attempt_count >= 1 is stable. */
  lemma PendingNeverReentered(c: Config, ss: seq<State>, ls: seq<Label>, i: nat, j: nat, id: Id, notAfter: Time)
    requires IsRun(c, ss, ls) && i <= j <= |ls| && id in ss[i].recs
    ensures id in ss[j].recs && SameBody(ss[i].recs[id].row, ss[j].recs[id].row)
    ensures ss[i].recs[id].row.attemptCount >= 1 ==> ss[j].recs[id].row.attemptCount >= 1
    ensures ss[i].recs[id].row.status != Pending ==>
              && ss[j].recs[id].row.status != Pending
              && !DueForRetry(ss[j].recs[id].row, notAfter)
              && !DueScheduled(ss[j].recs[id].row, notAfter)
  {
    hide Enabled, Apply;
    GrowsBetween(c, ss, ls, i, j);
    assert RowGrows(ss[i].recs[id].row, ss[j].recs[id].row);
  }

  /** The retry consumer drops a message the scheduler published only because the row has left PENDING. */
  lemma RetryDroppedOnlyWhenSettled(c: Config, ss: seq<State>, ls: seq<Label>, i: nat, p: nat)
    requires IsRun(c, ss, ls) && i <= |ls| && p in ss[i].procs && ss[i].procs[p].RetryQueued?
    ensures ss[i].procs[p].id in ss[i].recs
    ensures var row := ss[i].recs[ss[i].procs[p].id].row; RetryGuard(row) <==> row.status == Pending
  {
    hide Enabled, Apply, RecOk, FromRequest;
    InvAlways(c, ss, ls, i);
    assert ProcOk(c, ss[i], ss[i].procs[p]);
    if ss[i].recs[ss[i].procs[p].id].row.status == Pending {
      PendingBelowMax(c, ss, ls, i, ss[i].procs[p].id);
    }
  }

  lemma PendingBelowMax(c: Config, ss: seq<State>, ls: seq<Label>, i: nat, id: Id)
    requires IsRun(c, ss, ls) && i <= |ls| && id in ss[i].recs
    requires ss[i].recs[id].row.status == Pending && ss[i].recs[id].row.attemptCount >= 1
    ensures ss[i].recs[id].row.attemptCount < ss[i].recs[id].row.maxAttempts
    ensures ss[i].recs[id].row.nextRetryAt.Some?
  {
    hide Enabled, Apply, Legal;
    RecAlways(c, ss, ls, i, id);
  }

  // ---- claims ----------------------------------------------------------

  /** Open claims hold disjoint rows, no more than the batch, and every one of them is still claimable. */
  lemma ClaimsExclusive(c: Config, ss: seq<State>, ls: seq<Label>, i: nat, p: nat, q: nat)
    requires IsRun(c, ss, ls) && i <= |ls|
    requires p in ss[i].procs && ss[i].procs[p].ClaimOpen? && q in ss[i].procs && ss[i].procs[q].ClaimOpen?
    ensures p != q ==> forall id :: !(id in ss[i].procs[p].ids && id in ss[i].procs[q].ids)
    ensures |ss[i].procs[p].ids| <= ss[i].procs[p].batch && DistinctIds(ss[i].procs[p].ids)
    ensures forall id | id in ss[i].procs[p].ids ::
              id in ss[i].recs && DueForRetry(ss[i].recs[id].row, ss[i].procs[p].now)
  {
    hide RecOk, FromRequest, Enabled, Apply;
    InvAlways(c, ss, ls, i);
    assert ProcOk(c, ss[i], ss[i].procs[p]);
  }

  /** Claims of one row with no failure recorded between them are a lease apart in captured time. */
  lemma ClaimsSpacedInRuns(c: Config, ss: seq<State>, ls: seq<Label>, i: nat, id: Id, a: nat, b: nat)
    requires IsRun(c, ss, ls) && i <= |ls| && id in ss[i].recs && PublishLease(c) >= 0
    requires a < b < |ss[i].recs[id].hist| && NoFailureIn(ss[i].recs[id].hist, a, b)
    requires ss[i].recs[id].hist[a].kind == Claimed && ss[i].recs[id].hist[b].kind == Claimed
    ensures ss[i].recs[id].hist[b].now >= ss[i].recs[id].hist[a].now + PublishLease(c)
  {
    hide Enabled, Apply;
    RecAlways(c, ss, ls, i, id);
    ClaimsSpaced(c, ss[i].recs[id].row.maxAttempts, ss[i].recs[id].hist, a, b);
  }

  /** A claim after a failure that read attempt count k waits at least min(initial * 2^k, cap). */
  lemma ClaimsWaitOutBackoff(c: Config, ss: seq<State>, ls: seq<Label>, i: nat, id: Id, a: nat, b: nat)
    requires IsRun(c, ss, ls) && i <= |ls| && id in ss[i].recs && PublishLease(c) >= 0
    requires a < b < |ss[i].recs[id].hist| && NoFailureIn(ss[i].recs[id].hist, a + 1, b)
    requires ss[i].recs[id].hist[a].kind == FailureRecorded && ss[i].recs[id].hist[b].kind == Claimed
    ensures var h := ss[i].recs[id].hist;
            h[b].now >= h[a].at + Delay(c, Count(h[..a], FailureRecorded))
  {
    hide Enabled, Apply;
    RecAlways(c, ss, ls, i, id);
    ClaimAfterFailure(c, ss[i].recs[id].row.maxAttempts, ss[i].recs[id].hist, a, b);
  }

  /** In every run a row is claimed at most (max_attempts - 1) + horizon / lease times over any horizon. */
  lemma SparseClaimsInRuns(c: Config, ss: seq<State>, ls: seq<Label>, i: nat, id: Id, a: nat, b: nat, horizon: Time)
    requires IsRun(c, ss, ls) && i <= |ls| && id in ss[i].recs && PublishLease(c) > 0
    requires a <= b < |ss[i].recs[id].hist|
    requires ss[i].recs[id].hist[a].kind == Claimed && ss[i].recs[id].hist[b].kind == Claimed
    requires ss[i].recs[id].hist[b].now - ss[i].recs[id].hist[a].now <= horizon
    ensures ClaimsBetween(ss[i].recs[id].hist, a, b + 1)
            <= (ss[i].recs[id].row.maxAttempts - 1) + horizon / PublishLease(c)
  {
    hide Enabled, Apply;
    RecAlways(c, ss, ls, i, id);
    SparseClaims(c, ss[i].recs[id].row.maxAttempts, ss[i].recs[id].hist, a, b, horizon);
  }

  /** The whole run grants a row no more backoff before it leaves PENDING than the two bounds allow. */
  lemma BackoffBoundedInRuns(c: Config, ss: seq<State>, ls: seq<Label>, i: nat, id: Id)
    requires IsRun(c, ss, ls) && i <= |ls| && id in ss[i].recs
    requires ss[i].recs[id].row.status == Pending && ss[i].recs[id].row.maxAttempts >= 1
    ensures var (initial, cap) := BackoffParams(c);
            var n := ss[i].recs[id].row.maxAttempts - 1;
            var bound := Min(initial * (Pow2(n) - 1), n * cap) * NANOS_PER_SEC;
            && BackoffGranted(c, ss[i].recs[id].hist) * EXACT <= bound * (EXACT + 1)
            && (cap * MICROS_PER_SEC < EXACT_MICROS ==> BackoffGranted(c, ss[i].recs[id].hist) <= bound)
  {
    hide Enabled, Apply;
    RecAlways(c, ss, ls, i, id);
    LifetimeBackoff(c, ss[i].clock, ss[i].recs[id]);
  }

  // ---- recovery --------------------------------------------------------

  function Horizon(c: Config): Time {
    if PublishLease(c) > CapNanos(c) then PublishLease(c) else CapNanos(c)
  }

  /**
   No stranding: a pending row with a recorded failure has a next_retry_at within max(lease, cap) of the
   clock, so from then on the claim query selects it for as long as it stays as it is.
   */
  lemma NeverStranded(c: Config, ss: seq<State>, ls: seq<Label>, i: nat, id: Id, notAfter: Time)
    requires IsRun(c, ss, ls) && i <= |ls| && id in ss[i].recs
    requires ss[i].recs[id].row.status == Pending && ss[i].recs[id].row.attemptCount >= 1
    requires notAfter >= ss[i].clock + Horizon(c)
    ensures var row := ss[i].recs[id].row;
            row.nextRetryAt.Some? && row.nextRetryAt.value <= ss[i].clock + Horizon(c) && DueForRetry(row, notAfter)
  {
    hide Enabled, Apply;
    RecAlways(c, ss, ls, i, id);
    DueWithin(c, ss[i].recs[id].row.maxAttempts, ss[i].recs[id].hist, ss[i].clock);
  }
}
