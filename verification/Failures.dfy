/** When RecordSendFailure can err on a pending row: the condition on configuration and clock, exactly. */
module Failures {
  import opened Wrappers
  import opened Model
  import opened Backoff
  import opened Rows

  /**
   The configurations under which every failure of a pending row is recorded up to the given time: the
   counter and the delay stay in range, and so does the timestamp they lead to.
   */
  predicate RecordsFailures(c: Config, until: Time) {
    var (initial, cap) := BackoffParams(c);
    var max := RowMaxAttempts(c);
    && 1 <= max <= INT4_MAX
    && BackoffFits(initial, cap, max)
    && (max >= 2 ==> until + Nanos(Capped(initial, cap, max - 2)) < TIMESTAMP_END)
  }

  lemma RecordsEarlier(c: Config, until: Time, earlier: Time)
    requires RecordsFailures(c, until) && earlier <= until
    ensures RecordsFailures(c, earlier)
  {
  }

  /** The database records the first failure of a new row at this time. */
  predicate FirstRecorded(c: Config, at: Time) {
    var (initial, cap) := BackoffParams(c);
    RowMaxAttempts(c) <= 1 || SqlRetryAt(initial, cap, 0, at).Some?
  }

  lemma FirstRecordedIs(c: Config, row: Notification, at: Time)
    requires row.attemptCount == 0 && row.maxAttempts == RowMaxAttempts(c)
    ensures FirstRecorded(c, at) <==> FailureResult(c, row, at).Some?
  {
    ClampsAgree(c);
    hide SqlRetryAt, BackoffParams;
  }

  /** One failing send of a pending row: recorded exactly when it is the last attempt or its delay is in range. */
  lemma RecordedIf(c: Config, row: Notification, a: nat, at: Time)
    requires a < row.maxAttempts <= INT4_MAX
    ensures var (initial, cap) := BackoffParams(c);
            FailureResult(c, row.(attemptCount := a), at).Some? <==>
            || a + 1 == row.maxAttempts
            || (SqlDelay(initial, cap, a) == Some(Capped(initial, cap, a))
                && at + Nanos(Capped(initial, cap, a)) < TIMESTAMP_END)
  {
    var (initial, cap) := BackoffParams(c);
    ClampsAgree(c);
    DelayOrError(initial, cap, a);
    hide SqlDelay, Capped;
  }

  /**
   The condition is exact: it holds if and only if every failing send of a pending row is recorded, whatever
   its attempt count and whatever the time up to then. Where it fails, some row keeps its attempt count.
   */
  lemma FailuresRecordedExactly(c: Config, row: Notification, until: Time)
    requires row.maxAttempts == RowMaxAttempts(c) && 1 <= row.maxAttempts <= INT4_MAX
    ensures RecordsFailures(c, until) <==>
            forall a: nat, at :: a < row.maxAttempts && at <= until ==>
              FailureResult(c, row.(attemptCount := a), at).Some?
  {
    hide FailureResult, SqlDelay, BackoffFits, Capped, Micros;
    var (initial, cap) := BackoffParams(c);
    var max := row.maxAttempts;
    ClampsAgree(c);
    DelayInRangeExactly(initial, cap, max);
    if RecordsFailures(c, until) {
      forall a: nat, at | a < max && at <= until ensures FailureResult(c, row.(attemptCount := a), at).Some? {
        RecordedIf(c, row, a, at);
        if a + 1 < max {
          CappedMonotone(initial, cap, a, max - 2);
          MicrosMonotone(Capped(initial, cap, a), Capped(initial, cap, max - 2));
        }
      }
    } else if !BackoffFits(initial, cap, max) {
      var a: nat :| a + 1 < max && SqlDelay(initial, cap, a) != Some(Capped(initial, cap, a));
      RecordedIf(c, row, a, until);
    } else {
      RecordedIf(c, row, max - 2, until);
    }
  }

  /** A pending row's own failure. */
  lemma Recorded(c: Config, row: Notification, at: Time)
    requires RecordsFailures(c, at) && row.attemptCount < row.maxAttempts && row.maxAttempts == RowMaxAttempts(c)
    ensures FailureResult(c, row, at).Some?
  {
    hide FailureResult, BackoffParams;
    FailuresRecordedExactly(c, row, at);
    assert row == row.(attemptCount := row.attemptCount);
  }

  /** Where failures are not always recorded, the one before last is one that never is again. */
  lemma UnrecordedBeforeLast(c: Config, row: Notification, from: Time, at: Time)
    requires !RecordsFailures(c, from) && from <= at && 2 <= RowMaxAttempts(c) <= INT4_MAX
    requires row.maxAttempts == RowMaxAttempts(c) && row.attemptCount == row.maxAttempts - 2
    ensures FailureResult(c, row, at).None?
  {
    hide FailureResult, SqlDelay, Capped;
    var (initial, cap) := BackoffParams(c);
    ClampsAgree(c);
    DelayOrError(initial, cap, row.attemptCount);
    RecordedIf(c, row, row.attemptCount, at);
    assert row == row.(attemptCount := row.attemptCount);
  }
}
