/** The notification and mailbox repositories as objects: each method is one statement on the table it holds. */
module Repository {
  import opened Wrappers
  import opened Model
  import opened Backoff
  import opened Rows

  /** The table after the bump of next_retry_at on the given rows. */
  function ClaimedTable(rows: Table, ids: seq<Id>, until: Time): Table {
    map id | id in rows :: if id in ids then rows[id].(nextRetryAt := Some(until)) else rows[id]
  }

  /** The table after RecordSendFailure; None is a database error. An unknown id matches no row. */
  function FailureTable(rows: Table, id: Id, at: Time, initial: int, cap: int): Option<Table> {
    if id !in rows then Some(rows)
    else
      match FailureUpdate(rows[id], at, initial, cap)
      case None => None
      case Some(row) => Some(rows[id := row])
  }

  /** The table behind the repository. reachable tells whether the database carries a statement out at all. */
  class NotificationRepository {
    var rows: Table

    constructor ()
      ensures rows == map[]
    {
      rows := map[];
    }

    /**
     Inserts n under the fresh id the database gives it; max_attempts 0 falls to the column default. The
     insert fails on a used idempotency key or a max_attempts beyond the column's range.
     */
    method Create(n: Notification, id: Id, reachable: bool) returns (created: Option<Notification>)
      requires id !in rows
      modifies this
      ensures created.Some? <==>
              && reachable && InInt4(n.maxAttempts)
              && forall k | k in old(rows) :: old(rows)[k].idempotencyKey != n.idempotencyKey
      ensures created.Some? ==>
                && created.value == n.(id := id,
                                       maxAttempts := if n.maxAttempts == 0 then DEFAULT_MAX_ATTEMPTS else n.maxAttempts)
                && rows == old(rows)[id := created.value]
      ensures created.None? ==> rows == old(rows)
    {
      if !reachable || !InInt4(n.maxAttempts) || exists k | k in rows :: rows[k].idempotencyKey == n.idempotencyKey {
        return None;
      }
      var row := n.(id := id);
      if row.maxAttempts == 0 {
        row := row.(maxAttempts := DEFAULT_MAX_ATTEMPTS);
      }
      rows := rows[id := row];
      return Some(row);
    }

    method UpdateNextRetryAt(id: Id, at: Time, reachable: bool) returns (err: bool)
      modifies this
      ensures err <==> !reachable || at >= TIMESTAMP_END
      ensures rows == if err then old(rows) else ClaimedTable(old(rows), [id], at)
    {
      if !reachable || at >= TIMESTAMP_END {
        return true;
      }
      if id in rows {
        rows := rows[id := rows[id].(nextRetryAt := Some(at))];
      }
      return false;
    }

    method RecordSendFailure(id: Id, backoffInitialSec: int, backoffMaxSec: int, now: Time, reachable: bool)
      returns (err: bool)
      modifies this
      ensures err <==> !reachable || FailureTable(old(rows), id, now, backoffInitialSec, backoffMaxSec).None?
      ensures rows == if err then old(rows) else FailureTable(old(rows), id, now, backoffInitialSec, backoffMaxSec).value
    {
      var initial, cap := backoffInitialSec, backoffMaxSec;
      if initial <= 0 {
        initial := 1;
      }
      if cap <= 0 {
        cap := initial;
      }
      if cap < initial {
        cap := initial;
      }
      if !reachable {
        return true;
      }
      if id !in rows {
        return false;
      }
      var updated := SqlFailure(rows[id], now, initial, cap);
      if updated.None? {
        return true;
      }
      rows := rows[id := updated.value];
      return false;
    }

    /** The update both consumers make on success; attempt is written only by the send-queue consumer. */
    method MarkCompleted(id: Id, sentAt: Time, attempt: Option<nat>, reachable: bool) returns (err: bool)
      modifies this
      ensures err <==> !reachable
      ensures rows == if err || id !in old(rows) then old(rows)
                      else old(rows)[id := old(rows)[id].(
                        status := Completed, sentAt := sentAt,
                        attemptCount := if attempt.Some? then attempt.value else old(rows)[id].attemptCount)]
    {
      if !reachable {
        return true;
      }
      if id in rows {
        var row := rows[id].(status := Completed, sentAt := sentAt);
        if attempt.Some? {
          row := row.(attemptCount := attempt.value);
        }
        rows := rows[id := row];
      }
      return false;
    }
  }

  class MailboxRepository {
    var rows: seq<Mailbox>

    constructor ()
      ensures rows == []
    {
      rows := [];
    }

    /** One INSERT of all the rows; on error, one value too long for its column included, none is kept. */
    method BulkCreate(inputs: seq<Mailbox>, ok: bool) returns (err: bool)
      modifies this
      ensures err <==> !ok || exists m | m in inputs :: !MailboxFits(m)
      ensures rows == if err then old(rows) else old(rows) + inputs
    {
      err := !ok || exists m | m in inputs :: !MailboxFits(m);
      if !err {
        rows := rows + inputs;
      }
    }
  }
}
