/** The SQL of the notification repository on one row or one table, and the events that rewrite a row. */
module Rows {
  import opened Wrappers
  import opened Model
  import opened Backoff

  type Table = map<Id, Notification>

  // ---- WHERE clauses ---------------------------------------------------

  /** The predicate LockPendingRetriesDueForUpdate selects on. */
  predicate DueForRetry(row: Notification, notAfter: Time) {
    && row.status == Pending
    && 1 <= row.attemptCount < row.maxAttempts
    && (row.nextRetryAt.None? || row.nextRetryAt.value <= notAfter)
  }

  /** The predicate FindDueScheduledNotifications selects on. */
  predicate DueScheduled(row: Notification, notAfter: Time) {
    row.status == Pending && row.attemptCount == 0 && ZERO_TIME < row.scheduledAt <= notAfter
  }

  ghost predicate DistinctIds(ids: seq<Id>) {
    forall i, j :: 0 <= i < j < |ids| ==> ids[i] != ids[j]
  }

  function IdsOf(rows: seq<Notification>): (ids: seq<Id>)
    ensures |ids| == |rows| && forall i :: 0 <= i < |rows| ==> ids[i] == rows[i].id
  {
    seq(|rows|, i requires 0 <= i < |rows| => rows[i].id)
  }

  /** SELECT ... FOR UPDATE SKIP LOCKED LIMIT: unlocked matching rows in no order, all there are up to the limit. */
  ghost predicate IsLockResult(table: Table, locked: set<Id>, found: seq<Id>, limit: int, notAfter: Time) {
    && DistinctIds(found)
    && |found| <= limit
    && (forall id | id in found :: id in table && id !in locked && DueForRetry(table[id], notAfter))
    && (forall id | id in table && id !in locked && DueForRetry(table[id], notAfter) && id !in found :: |found| == limit)
  }

  /** SELECT ... ORDER BY scheduled_at ASC LIMIT: the earliest matching rows, as many as there are up to the limit. */
  ghost predicate IsFirstDue(table: Table, found: seq<Notification>, limit: int, notAfter: Time) {
    && DistinctIds(IdsOf(found))
    && |found| <= limit
    && (forall r | r in found :: r.id in table && table[r.id] == r && DueScheduled(r, notAfter))
    && (forall i, j :: 0 <= i < j < |found| ==> found[i].scheduledAt <= found[j].scheduledAt)
    && (forall id | id in table && DueScheduled(table[id], notAfter) && table[id] !in found ::
          |found| == limit && forall r | r in found :: r.scheduledAt <= table[id].scheduledAt)
  }

  // ---- updates ---------------------------------------------------------

  /**
   The RecordSendFailure statement on a matching row. Every right-hand side reads the old
   attempt_count. None is a database error (integer, bigint, interval or timestamp out of range), which
   changes nothing.
   */
  function SqlFailure(row: Notification, at: Time, initial: int, cap: int): Option<Notification> {
    if row.attemptCount + 1 > INT4_MAX then None
    else if row.attemptCount + 1 >= row.maxAttempts then
      Some(row.(attemptCount := row.attemptCount + 1, status := Failed))
    else
      match SqlRetryAt(initial, cap, row.attemptCount, at)
      case None => None
      case Some(t) => Some(row.(attemptCount := row.attemptCount + 1, nextRetryAt := Some(t)))
  }

  /** RecordSendFailure on a matching row: the clamp, then the statement. */
  function FailureUpdate(row: Notification, at: Time, initial: int, cap: int): Option<Notification> {
    var (i, m) := RepoClamp(initial, cap);
    SqlFailure(row, at, i, m)
  }

  /** The lease end of a claim that captured now is a timestamp the column can hold. */
  predicate LeaseFits(c: Config, now: Time) {
    now + PublishLease(c) < TIMESTAMP_END
  }

  /** The update after a successful first delivery. */
  function FirstSuccess(row: Notification, sentAt: Time): Notification {
    row.(status := Completed, sentAt := sentAt, attemptCount := 1)
  }

  /** The update after a successful retry, which leaves attempt_count alone. */
  function RetrySuccess(row: Notification, sentAt: Time): Notification {
    row.(status := Completed, sentAt := sentAt)
  }

  // ---- events ----------------------------------------------------------

  /** What can happen to a notification once its row exists. */
  datatype Kind =
    | Deferred        // EnqueueNotification found scheduled_at in the future
    | SendNow         // EnqueueNotification did not
    | Published       // EnqueueNotification published to notifications.send
    | Won             // SetNX won for the scheduled enqueue
    | SchedPublished  // the scheduler published to notifications.send
    | Claimed         // a claim transaction committed with this row
    | RetryPublished  // the claim pass published to notifications.retry
    | Accepted        // SendNotification returned nil
    | FailureRecorded // RecordSendFailure committed
    | CompletedFirst  // the send-queue consumer wrote its success
    | CompletedRetry  // the retry consumer wrote its success

  /** at is when the event happened; now is the time.Now() its code had captured. */
  datatype Event = Event(kind: Kind, at: Time, now: Time)

  /** A row together with everything that has happened to it. */
  datatype Rec = Rec(row: Notification, hist: seq<Event>)

  function FailureResult(c: Config, row: Notification, at: Time): Option<Notification> {
    var (initial, cap) := BackoffParams(c);
    FailureUpdate(row, at, initial, cap)
  }

  function RowAfter(c: Config, row: Notification, e: Event): Notification {
    match e.kind
    case Claimed => row.(nextRetryAt := Some(e.now + PublishLease(c)))
    case FailureRecorded => (match FailureResult(c, row, e.at) case Some(r) => r case None => row)
    case CompletedFirst => FirstSuccess(row, e.now)
    case CompletedRetry => RetrySuccess(row, e.now)
    case _ => row
  }

  function Append(c: Config, r: Rec, e: Event): Rec {
    Rec(RowAfter(c, r.row, e), r.hist + [e])
  }

  /** When an event may happen to a row, given the clock. */
  predicate EventOk(c: Config, row: Notification, clock: Time, e: Event) {
    && e.at == clock
    && e.now <= clock
    && match e.kind
       case Claimed => DueForRetry(row, e.now)
       case FailureRecorded => FailureResult(c, row, e.at).Some?
       case CompletedFirst => e.now > ZERO_TIME
       case CompletedRetry => e.now > ZERO_TIME && row.attemptCount >= 1
       case _ => true
  }
}
