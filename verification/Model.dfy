/** The stored entities: the notification row, the mailbox row and the configuration. */
module Model {
  import opened Wrappers
  import opened Json

  type Id = string

  /** Nanoseconds since Go's zero time, so 0 is time.Time{}. */
  type Time = int

  const ZERO_TIME: Time := 0
  const NANOS_PER_SEC: int := 1_000_000_000
  const INT4_MAX: int := 2147483647
  const DEFAULT_MAX_ATTEMPTS: int := 3

  const CHANNEL_EMAIL := "EMAIL"
  const CHANNEL_SMS := "SMS"
  const CHANNEL_PUSH := "PUSH"
  const CHANNEL_IN_APP := "IN_APP"

  const TYPE_MESSAGING_GROUP := "MESSAGING_GROUP"

  datatype Status = Pending | Completed | Failed

  /** A row of the notifications table. */
  datatype Notification = Notification(
    id: Id,
    idempotencyKey: string,
    source: string,
    channel: string,
    kind: string,
    title: string,
    message: string,
    recipients: seq<string>,
    params: Option<Json>,
    provider: string,
    expiredAt: Time,
    scheduledAt: Time,
    maxAttempts: int,
    status: Status,
    sentAt: Time,
    attemptCount: nat,
    nextRetryAt: Option<Time>)

  /** Two versions of a row agree on every column that delivery never writes. */
  predicate SameBody(a: Notification, b: Notification) {
    a == b.(status := a.status, sentAt := a.sentAt, attemptCount := a.attemptCount, nextRetryAt := a.nextRetryAt)
  }

  /** A row of the mailboxes table; createdBy is the owning user. */
  datatype Mailbox = Mailbox(title: string, message: string, notificationID: Id, createdBy: string)

  /** The row fits its columns: created_by is a varchar(36) and title a varchar(255). */
  predicate MailboxFits(m: Mailbox) {
    |m.createdBy| <= 36 && |m.title| <= 255
  }

  /** The configuration fields delivery reads, as raw integers. */
  datatype Config = Config(
    serviceName: string,
    maxAttempts: int,
    retryBackoffInitialSec: int,
    retryBackoffMaxSec: int,
    retryPublishLeaseSec: int,
    scheduledDedupTTLSec: int)

  /** The range of an int column. */
  predicate InInt4(n: int) {
    -INT4_MAX - 1 <= n <= INT4_MAX
  }

  /** max_attempts of a created row: gorm writes the column default when the field is zero. */
  function RowMaxAttempts(c: Config): int {
    if c.maxAttempts == 0 then DEFAULT_MAX_ATTEMPTS else c.maxAttempts
  }
}
