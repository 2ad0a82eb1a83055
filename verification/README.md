# Notification delivery, modelled and proved

Several pods share one `notifications` table, two queues and a Redis key store, and between them they
create, schedule, send and retry notifications. Every queue message is acked whatever happens, so what is
delivered, how often and when depends only on the rows, their lease and backoff columns, and the dedup
keys. This project models that machinery and proves what can be relied on, for every configuration and
every interleaving.

`dafny verify dfyconfig.toml` checks the whole project.

## How it is modelled

**The transition system** (`Protocol`). A state is the clock, the rows with the history of what happened
to each (`Rec`), the key store, the mailbox rows, and any number of processes: an enqueue between its
steps, a scheduled pass, a claim pass with its open transaction, a queued message, a consumer before and
after its send. A label names one step together with what the outside world decided in it: which rows a
query returned, whether a provider accepted, whether a write or a message was lost, a crash, a redelivery,
a deleted key. A run is a list of labels that starts from an empty system. Rows, pods and messages are
unbounded, and any two processes interleave between any two statements.

**The rows** (`Rows`, `Backoff`). The three SQL statements are functions on one row. Every right-hand
side of the failure update reads the old `attempt_count`, and its WHERE clause is the id alone. The product
is a double precision, its cast to bigint happens before `LEAST`, and cast, interval and timestamp each have
a range the statement can leave. The locking query answers unlocked due rows in no particular order, all
there are up to its LIMIT. `Duration(sec) * Second` wraps at 64 bits, and a configured `max_attempts` of 0
becomes the column default 3.

**The code** (`Service`, `Repository`, `Cache`, `Fcm`, `Aggregate`). The service, the repositories, the
cache and the request are classes whose methods follow the loops and branches of the Go code and are
proved against functions of the old state. `Refinement` then shows that each of these contracts is what a
path of the transition system produces: the same table, keys, mailboxes and published messages.

**Assumptions.** A provider is an oracle: it may accept or refuse whatever SendNotification does not refuse
by itself. There is one clock. `FOR UPDATE SKIP LOCKED` skips rows that open transactions hold and blocks
writers of those rows until commit or rollback; a single UPDATE is atomic. `SetNX` is atomic and a key
lives until its TTL.

## What holds, and what does not

The row invariant, never-early, claim exclusivity, claim spacing and mailbox conservation hold in every run,
with redelivery, crashes and losses included. Recovery and draining start from any state of any run, losses
before it included, for configurations that record failures (`RecordsFailures`) and leases that the timestamp
column can hold (`LeaseFits`); draining counts the rounds in which nothing the round claimed is lost.
At-most-once does not hold in every run. It is stated for one notification at a time, and for the runs that keep
these assumptions for that notification, whatever happens to the others:

- its message is not redelivered, its dedup key is not deleted and no successful send of it loses its status write;
- each outstanding delivery of it is processed before the lock or lease behind it ends (`Timely`);
- its `scheduled_at` is unset or is seen as future by EnqueueNotification;
- the find of a scheduled pass and its SetNX see the row due (the two count as one step).

`Witnesses` shows that the assumptions can be met: well-delivered runs for every valid request at once, through
the scheduler exactly when the TTL has not wrapped below 0, and by a retry exactly when the first failure is
recorded, is not the last attempt, and there is a lease that a claim right after the backoff can store.
`Necessity` shows that none can be dropped: for each, a run from the empty system that breaks only that one, at
a named step or for a named message, and has two accepted sends.

These points of the code differ from what its documentation suggests:

- COMPLETED and FAILED are not absorbing by themselves: the send-queue consumer never reads the row's status.
  A failed send that reaches a COMPLETED row turns it FAILED exactly when attempt_count + 1 reaches
  max_attempts (`Settled.CompletedMayFail`); an accepted send whose success is written turns a FAILED row
  COMPLETED, and nothing else does (`Settled.FailedMayComplete`). Runs in which a row goes COMPLETED to FAILED,
  and runs in which it goes FAILED to COMPLETED, exist exactly when max_attempts is at most 2 or failures are
  recorded (`Settled.TurnsExactly`); otherwise no row is ever FAILED (`Settled.NeverFailed`). Under the
  assumptions both are absorbing (`AtMostOnce.SettledForever`).
- A `scheduled_at` that is set but already past is published by EnqueueNotification and again by the
  scheduler (`Necessity.PastScheduleSendsTwice`).
- A lease or TTL of more than 9223372036 seconds is not that many seconds (`Backoff.SecondsExact`,
  `Backoff.SecondsOverflow`). Theorems that need a lease say so as `PublishLease(c) >= 0` or `> 0`.
- RecordSendFailure can err on a PENDING row: when `initial * 2^(max_attempts-2)` reaches 2^63, when the longest
  delay reaches 2^63 microseconds, or when it leads past the last timestamp. The condition is exact
  (`Failures.FailuresRecordedExactly`), and reachable exactly where it fails (`Stuck.FailureLostExactly`). The
  row then keeps its attempt count (`Stuck.CountStays`). What follows depends on the first failure:
  - if it is recorded and a later one is not, sends are not bounded by max_attempts, although nothing is lost and
    every outcome is written or refused: with a recorded failures the row is claimed and sent once more at the
    end of each lease and stays PENDING with a attempts (`Unbounded.SentWithoutBound`). The bigint cast alone does
    this, however small the cap (`Unbounded.CastRefuses`);
  - if it is not, an unscheduled notification is stranded: neither query ever selects its row and no run sends it
    again (`Stranded.ForgottenExactly`, `Stranded.ForgottenForever`). A scheduled one is published again once
    its dedup key has expired (`Rescheduling.RescheduledAfterTTL`).
- The limit of the scheduled query can starve a due notification. As many earlier due rows as the limit, whose keys
  are held and whose publications were lost, fill every pass until those keys expire (`HeadOfLine.StarvedUntil`,
  `HeadOfLine.StarvationPossible`); with fewer rows in front every pass finds it
  (`Rescheduling.AlwaysFoundExactly`).
- A claim whose lease would end past the last timestamp of the column errs and rolls back, so a row cannot be
  retried from then on.

## Files

| file | content |
|---|---|
| `Protocol`, `Invariants` | the transition system and its inductive invariant |
| `Rows`, `Histories`, `RowTheorems` | SQL on rows, facts about one row's history, and the same over whole runs |
| `NeverEarly`, `Publications`, `AtMostOnce`, `MailConservation` | schedule, dedup and claim accounting, at-most-once, mailbox accounting |
| `Attempts` | how often a notification is handed to SendNotification |
| `Rescheduling`, `HeadOfLine` | a lost scheduled publication is made up for after the TTL, unless rows in front fill the limit |
| `Failures`, `Drain`, `Recovery` | when failures are recorded; rounds of the retry path drain; every run can be continued until drained |
| `Solo`, `Phases`, `Witnesses`, `Necessity` | runs with one notification that show the assumptions can be met and are needed |
| `Settled`, `Stuck`, `Unbounded`, `Stranded` | what can happen to settled rows, and to rows whose failures the database refuses |
| `Service`, `Repository`, `Refinement` | the methods, and the paths they stand for |
| `Float64`, `Backoff`, `Cache`, `Fcm`, `Text`, `Delivery`, `Json`, `Aggregate`, `Escape` | the parts below |

## Model

| member | source | states |
|---|---|---|
| `Invariants.InvAlways` | internal/service/notification.go:105-312 | in every state of every run: rows satisfy the row invariant with legal histories, every process is consistent with the rows it concerns, open claims are disjoint |
| `Invariants.InvStep` | internal/service/notification.go:105-312 | each step of enqueue, scheduled pass, claim pass and both consumers keeps that invariant |
| `RowTheorems.StatusAlways` | internal/repository/notification.go:93-106 | PENDING: attempt_count is the number of recorded failures, below max_attempts, and next_retry_at is NULL exactly at 0; FAILED: attempt_count >= max_attempts; COMPLETED: attempt_count >= 1 and sent_at set |
| `RowTheorems.FailedExactlyAtMax` | internal/repository/notification.go:94-96 | a step takes a row from PENDING to FAILED if and only if it makes the recorded failures max_attempts |
| `RowTheorems.PendingNeverReentered` | internal/repository/notification.go:41-60 | a row that left PENDING stays out and matches neither scheduler query; attempt_count >= 1 is stable; no other column changes |
| `RowTheorems.RetryDroppedOnlyWhenSettled` | internal/service/notification.go:280-290 | the retry consumer finds the row of a scheduler's message, and its guards drop it if and only if the row has left PENDING |
| `RowTheorems.ClaimsExclusive` | internal/repository/notification.go:52-67 | open claim transactions hold disjoint sets of at most batch distinct rows, each still matching the claim predicate |
| `RowTheorems.ClaimsSpacedInRuns` | internal/service/notification.go:232-246 | claims of a row with no recorded failure between them have captured times a lease apart |
| `RowTheorems.ClaimsWaitOutBackoff` | internal/repository/notification.go:97-105 | a claim after a failure that read attempt_count a has a captured time at least the delay of a later: min(initial*2^a, cap), rounded as `Backoff.DelayBound` says |
| `RowTheorems.SparseClaimsInRuns` | internal/service/notification.go:232-246 | at most (max_attempts-1) + T/lease claims of a row over any horizon T, in any run |
| `RowTheorems.BackoffBoundedInRuns` | internal/repository/notification.go:97-105 | while PENDING a row has been granted at most min(initial*(2^(max_attempts-1)-1), (max_attempts-1)*cap) of backoff, plus one part in 2^53 when the cap reaches 2^59 microseconds |
| `RowTheorems.NeverStranded` | internal/repository/notification.go:58-60 | a PENDING row with a recorded failure has next_retry_at within max(lease, cap) of the clock, and the claim query matches it from then on |
| `RowTheorems.OutcomeInRuns` | internal/repository/notification.go:93-106 | in every run a written outcome: a success sets COMPLETED, sent_at to when the send returned and, for the send queue, attempt_count to 1; a recorded failure adds one to attempt_count, sets FAILED exactly from max_attempts on, and touches nothing but these and next_retry_at |
| `RowTheorems.FirstBackoffInRuns` | internal/service/notification.go:329-342 | in every run, with 0 < initial <= max configured, the first failure with an attempt left sets next_retry_at to the clock plus the configured initial seconds |
| `RowTheorems.LeaseInRuns` | internal/service/notification.go:344-350 | in every run a committed claim sets next_retry_at of each of its rows, and nothing else, to the captured time plus the configured lease seconds, as long as they fit a Duration |
| `Histories.RecStep` | internal/repository/notification.go:52-106 | every write the SQL can make keeps the row invariant and the legality of the row's history |
| `Histories.FailsOnLastAttempt` | internal/repository/notification.go:93-106 | a failure recorded on a PENDING row leaves it FAILED exactly when it is the max_attempts-th and PENDING exactly below |
| `Histories.SparseClaims` | internal/service/notification.go:232-246 | the claim bound from the legality of one history: claims not paid for by a failure push next_retry_at a lease out |
| `Histories.DueWithin` | internal/repository/notification.go:97-105 | next_retry_at never lies further than the lease or the cap past the clock |
| `Histories.LifetimeBackoff` | internal/repository/notification.go:97-105 | the backoff summed over a history is within the geometric and the linear bound, up to the same rounding |
| `Histories.ConfiguredDelay` | internal/repository/notification.go:97-105 | a recorded failure of attempt a sets next_retry_at min(initial*2^a, max) seconds ahead, in the configured values |
| `NeverEarly.NeverBeforeSchedule` | internal/service/notification.go:121-123 | in every run no publication of a notification to either queue and no send of it happens before its scheduled_at, whichever pod got there first and whatever was redelivered |
| `Publications.ScheduledNeedWins` | internal/service/notification.go:193-221 | scheduler publications of a notification never outnumber its SetNX wins |
| `Publications.RetriesNeedClaims` | internal/service/notification.go:235-265 | retry messages of a row never outnumber its committed claims |
| `Publications.RollbackLeavesNoTrace` | internal/service/notification.go:235-250 | from the lock to the rollback of a claim its rows keep every column, lease included, and no claim of them is recorded, whatever other steps run in between; the rolled-back pass starts no message |
| `Publications.WinsSpaced` | internal/service/notification.go:188-200 | with no key deleted, two SetNX wins for one notification are a TTL apart across all pods |
| `Publications.WinnableExactly` | internal/service/notification.go:193-200 | in every run without deleted keys SetNX can be won for a notification if and only if it never was or a positive TTL has passed since the last win |
| `Rescheduling.PublishedAgain` | internal/service/notification.go:183-221 | from every reachable state, with fewer due rows than the limit no later than it and its dedup key not live: for every answer of the query, the pass that meets no error publishes a due notification once more, whatever was published before |
| `Rescheduling.AlwaysFoundExactly` | internal/repository/notification.go:40-50 | every answer of the scheduled query has a due row if and only if fewer other due rows than the limit are no later |
| `Rescheduling.NeverFoundExactly` | internal/repository/notification.go:40-50 | no answer has it if and only if at least as many due rows as the limit are earlier |
| `HeadOfLine.StarvedUntil` | internal/service/notification.go:183-203 | in every run: while as many earlier due rows as the limit have their keys held and nothing of theirs under way, no scheduled pass of any pod publishes the row behind them |
| `HeadOfLine.StarvationPossible` | internal/service/notification.go:183-221 | such a state is reached from the empty system: two notifications, limit 1, one lost publication |
| `Rescheduling.RescheduledAfterTTL` | internal/service/notification.go:173-223 | in every run without deleted keys that holds once the last win is a TTL ago, however many of its publications were lost |
| `AtMostOnce.AtMostOneSend` | internal/service/notification.go:105-312 | under the delivery assumptions for that notification alone: one outstanding delivery at most, one accepted send at most, exactly one if COMPLETED, none if FAILED |
| `AtMostOnce.SettledForever` | internal/service/notification.go:143-171 | under the same assumptions a row that left PENDING is never written again and has nothing outstanding |
| `Attempts.SendsBounded` | internal/service/notification.go:143-171 | in a well-delivered run that records failures and loses no outcome a notification is handed to SendNotification at most max_attempts times; while PENDING exactly attempt_count times, plus the send whose outcome is still to be written |
| `MailConservation.MailboxesConserved` | internal/service/notification.go:446-490 | in every run the mailbox rows of a notification and user equal its accepted in-app sends if the user is among the trimmed non-blank recipients, and 0 otherwise |
| `MailConservation.MailboxContents` | internal/service/notification.go:463-485 | in every run each mailbox row belongs to a stored in-app notification, has its title and message, and goes to one of its trimmed non-blank recipients |
| `MailConservation.AtMostOneMailbox` | internal/service/notification.go:446-490 | in a well-delivered run no user has more than one mailbox row of a notification, and each reached user has one once it is COMPLETED |
| `MailConservation.SameRequestEverywhere` | internal/service/notification.go:143-150 | in every run each queued or loaded request has the channel, type, title, message, recipients and id of its row, and the params its row rebuilds |
| `Drain.TotalLeftStep` | internal/service/notification.go:269-312 | recording an outcome on a PENDING row strictly lowers the attempts left over all PENDING rows; only creating a row raises them |
| `Drain.OutcomesBounded` | internal/service/notification.go:225-312 | outcomes recorded over any stretch plus attempts left at its end are at most attempts left at its start plus max_attempts per created row |
| `Drain.AnswerNotEmpty` | internal/repository/notification.go:57-62 | with no claim open, a locking query that looks max(lease, cap) past the clock answers some row as long as a PENDING row has a recorded failure, whatever rows the LIMIT chooses |
| `Drain.CarriedStep` | internal/service/notification.go:225-312 | a claimed row stays with its claim, message or consumer until an attempt of it is used up, unless that process is lost, whatever else runs |
| `Drain.RoundProgress` | internal/service/notification.go:225-312 | a round uses up an attempt of each row the query answered, and answers some row unless none needs a retry; creations meanwhile add at most max_attempts each |
| `Drain.DrainTerminates` | internal/service/notification.go:225-312 | within as many rounds (a pass started max(lease, cap) later with no claim open, none of whose rows are lost) as there are attempts left, or added by creations, no PENDING row has a recorded failure at some start or end of a round; every answer of the query and every interleaving, creations included |
| `Failures.FailuresRecordedExactly` | internal/repository/notification.go:73-113 | the condition `RecordsFailures` on configuration and clock that holds if and only if RecordSendFailure never errs on a PENDING row up to that time: counter, bigint cast, interval and timestamp in range |
| `Stuck.NoFailureLost` | internal/repository/notification.go:73-113 | while that condition holds no write of a failed send of a PENDING row leaves it unchanged, in any run |
| `Stuck.FailureLostExactly` | internal/repository/notification.go:73-113 | some run from the empty system reaches, by a given time, a PENDING row whose failure write changes nothing if and only if the condition fails for that time |
| `Stuck.CountStays` | internal/repository/notification.go:73-113 | in every run such a row keeps its attempt_count as long as it is PENDING, and is FAILED only after some consumer has completed it |
| `Unbounded.SomeRefused` | internal/repository/notification.go:73-113 | where `RecordsFailures` fails there is a first attempt, each made when its backoff ends, whose failure is refused |
| `Unbounded.CastRefuses` | internal/repository/notification.go:99-103 | the first a with initial*2^a >= 2^63 is that attempt, whatever the cap, as long as interval and timestamps stay in range |
| `Unbounded.SentWithoutBound` | internal/service/notification.go:225-312 | where the a-th attempt is refused first, a >= 1: for every n whose leases end before the last timestamp, a run in which nothing is lost and every delivery is in time has exactly a + n sends, the last one n - 1 leases after the a-th backoff, and leaves the row PENDING with a attempts |
| `Stranded.ForgottenExactly` | internal/service/notification.go:143-171 | an unscheduled notification that is enqueued, published, sent without success and written ends PENDING at attempt 0 with nothing under way if and only if the first failure cannot be recorded |
| `Stranded.ForgottenForever` | internal/repository/notification.go:40-67 | in every continuation of that its record never changes, nothing publishes or sends it, and neither query selects its row at any time |
| `Recovery.RoundPossible` | internal/service/notification.go:225-312 | whatever rows the locking query answers, they can be claimed, published, sent and each outcome recorded, for every batch size and all provider answers; the attempts left fall by at least their number |
| `Recovery.RetryPossible` | internal/service/notification.go:225-312 | from every reachable state without an open claim a PENDING row with a recorded failure can be claimed, published, sent and recorded, for every batch size and either answer, through an answer the locking query may give |
| `Recovery.DrainPossible` | internal/service/notification.go:225-312 | at most eight steps per attempt left lead to a state with no PENDING row that has a recorded failure |
| `Recovery.EveryRunCanDrain` | internal/service/notification.go:225-312 | every run can be continued until no such row is PENDING, while failures are recorded and leases fit |
| `Witnesses.DeliveryRun` | internal/service/notification.go:105-171 | every valid unscheduled request that is not refused has a run that keeps all delivery assumptions and completes it with one accepted send |
| `Witnesses.ScheduledRun` | internal/service/notification.go:173-223 | so has every such request with a future scheduled_at, published by the scheduler, unless the TTL has wrapped below 0 |
| `Witnesses.ScheduledExactly` | internal/service/notification.go:344-350 | and exactly then: some well-delivered run completes it through the scheduler if and only if the TTL is not negative |
| `Witnesses.RetryRun` | internal/service/notification.go:225-312 | and every unscheduled request whose first send fails, if that failure is recorded, is not the last attempt, and there is a lease the column can hold: a claim at any time from the end of the backoff on completes it, and one max(lease, cap) later is a round of the retry path that drains the table |
| `Witnesses.RetryExactly` | internal/service/notification.go:225-312 | and exactly then: some well-delivered run claims its row and completes it if and only if the first failure is recorded, max_attempts is at least 2, the lease is positive, and a claim right after the first backoff can store it |
| `Necessity.RedeliverySendsTwice` | internal/service/notification.go:143-150 | a run from the empty system that keeps every assumption but for one redelivery and has two accepted sends |
| `Necessity.LateMessageSendsTwice` | internal/service/notification.go:232-264 | such a run in which only one retry message outlives its lease, if failures and two leases can be stored |
| `Necessity.LostWriteSendsTwice` | internal/service/notification.go:294-311 | such a run in which only one status write after an accepted send is lost, under the same condition |
| `Necessity.DeletedKeySendsTwice` | internal/service/notification.go:193-221 | such a run in which only the dedup key of a queued message is deleted |
| `Necessity.StaleFindSendsTwice` | internal/service/notification.go:183-221 | such a run in which only SetNX comes long after the find: it is won for a row already COMPLETED |
| `Necessity.PastScheduleSendsTwice` | internal/service/notification.go:121-139 | such a run in which only scheduled_at is past at the check: published at once and by the scheduler |
| `Settled.CompletedMayFail` | internal/repository/notification.go:93-106 | in every run a COMPLETED row turns FAILED at a step if and only if that step writes a failed send of it with attempt_count + 1 >= max_attempts; it never turns PENDING |
| `Settled.FailedMayComplete` | internal/service/notification.go:143-171 | in every run a FAILED row turns COMPLETED at a step if and only if that step writes an accepted send of it; it never turns PENDING |
| `Settled.TurnsExactly` | internal/service/notification.go:143-171 | a run from the empty system with the row COMPLETED and later FAILED, and one with it FAILED and later COMPLETED, exist if and only if max_attempts <= 2 or failures are recorded |
| `Settled.NeverFailed` | internal/repository/notification.go:93-106 | otherwise every row of every run, redelivery included, stays at attempt_count <= max_attempts - 2 and is never FAILED |
| `Backoff.ClampsAgree` | internal/service/notification.go:329-342 | for every configuration the repository's clamp is the identity on backoffParams' output |
| `Backoff.CappedIsIterated` | internal/repository/notification.go:97-104 | min(initial*2^a, cap) is a-fold doubling under the cap |
| `Backoff.CappedMonotone` | internal/repository/notification.go:97-104 | the delay lies within [initial, cap] and never shrinks as attempts grow |
| `Backoff.TotalBackoffBound` | internal/repository/notification.go:97-104 | n delays sum to at most min(initial*(2^n-1), n*cap) |
| `Backoff.TotalBackoffExactly` | internal/repository/notification.go:97-104 | until the cap is reached they sum to exactly initial*(2^n-1) |
| `Backoff.CastInRangeExactly` | internal/repository/notification.go:99-104 | the bigint cast of the double-precision product never fails on the growing branch if and only if it fits at max_attempts-2; below 2^53 seconds that is initial*2^(max_attempts-2) < 2^63 |
| `Backoff.DelayOrError` | internal/repository/notification.go:99-103 | the delay in seconds is min(initial*2^a, cap) or the statement errs, and errs exactly when the product leaves bigint or the rounded interval int64 microseconds |
| `Backoff.DelayExact` | internal/repository/notification.go:99-103 | the float8 product of seconds and interval is exact for delays below 2^59 microseconds |
| `Backoff.DelayBound` | internal/repository/notification.go:99-103 | and beyond differs from the documented delay by at most one part in 2^53 |
| `Backoff.DelayInRangeExactly` | internal/repository/notification.go:96-104 | the condition on initial, cap and max_attempts that holds if and only if every delay of the growing branch is the documented number of seconds |
| `Backoff.SecondsExact` | internal/service/notification.go:344-350 | a configured number of seconds becomes that duration if and only if it is at most 9223372036 |
| `Backoff.SecondsOverflow` | internal/service/notification.go:344-350 | one second more gives a negative lease or TTL |
| `Backoff.DurationsConfigured` | internal/service/notification.go:187-192 | lease and TTL are the configured seconds while these fit a Duration, and 300 s and one day when they are not set |
| `Cache.DedupKeyInjective` | pkg/cache/cache.go:271-273 | distinct notifications never share a dedup key, which is the service name, the prefix scheduled_enqueue and the id |
| `Cache.AppCache.SetNX` | pkg/cache/cache.go:55-58 | wins exactly when the key is absent or expired, and then stores it with its TTL; nothing else changes |
| `Repository.NotificationRepository.Create` | internal/repository/base.go:49-54 | inserts the row under its new id with max_attempts 0 replaced by the column default; errs, changing nothing, on a used idempotency key, a max_attempts out of range or a database failure |
| `Repository.NotificationRepository.UpdateNextRetryAt` | internal/repository/notification.go:69-71 | moves next_retry_at of that row only, or errs, a time past the last timestamp included, and changes nothing |
| `Repository.NotificationRepository.RecordSendFailure` | internal/repository/notification.go:73-113 | the clamp and the statement on the matching row; any range or database error changes nothing; an unknown id matches no row |
| `Repository.NotificationRepository.MarkCompleted` | internal/repository/base.go:63-68 | the success update of either consumer writes status, sent_at and, for the send queue, attempt_count, or errs and changes nothing |
| `Repository.MailboxRepository.BulkCreate` | internal/repository/base.go:56-61 | all rows in order, or none, and none when a created_by or title is too long for its column |
| `Service.NotificationSvc.EnqueueNotification` | internal/service/notification.go:105-141 | for a request that passes its validate tags, the row created with the columns of the request, the message published, and the id returned exactly when deferred or published |
| `Service.NotificationSvc.ProcessNotificationFromQueue` | internal/service/notification.go:143-171 | sends whatever the row says; a success leaves the row COMPLETED with attempt_count 1 and the time of the send, a failure adds an attempt or is refused by the database; the mailboxes get the rows of a successful in-app send |
| `Service.NotificationSvc.ProcessNotificationRetryFromQueue` | internal/service/notification.go:269-312 | sends exactly a loaded PENDING row with 1 <= attempt_count < max_attempts; a success leaves it COMPLETED with its attempt_count, a failure adds an attempt or is refused |
| `Service.NotificationSvc.EnqueueDueScheduledNotifications` | internal/service/notification.go:173-223 | a found row's own request is published if and only if Redis answers and takes the TTL, its key was free before the pass, its params marshal and the broker takes it; its key is set, to that expiry, if and only if the first three hold; an error leaves keys and topic as they were |
| `Service.NotificationSvc.EnqueueScheduled` | internal/service/notification.go:193-221 | one row: its request appended exactly under these conditions, its key taken exactly when its lock is won |
| `Service.NotificationSvc.EnqueuePendingRetries` | internal/service/notification.go:225-267 | on success every row found has the new lease and no other row changed, and a found id is on the topic if and only if its publication succeeded; on any error, a lease past the last timestamp included, neither table nor topic changed |
| `Service.KeptAt` | internal/service/notification.go:250-265 | published ids keep the order of the answer, each right after those published before it |
| `Service.NotificationSvc.BackoffParams` | internal/service/notification.go:329-342 | 0 < initial <= max are returned as configured; an unset initial is 30, an unset max 3600, and a max below the initial becomes the initial |
| `Service.NotificationSvc.SendNotification` | internal/service/notification.go:314-327 | succeeds exactly when the request is not refused and the provider of its channel accepts; mailboxes grow only then |
| `Service.DeliveredExactly` | internal/service/notification.go:314-490 | channel by channel, which request and which answers of templates, providers and tables make a send succeed: e-mail types with a template, a non-empty SMS body, one topic or token taken with no multicast refused, mailboxes that fit |
| `Service.NotificationSvc.SendSMS` | internal/service/notification.go:381-413 | succeeds exactly with a non-empty body, rendered or taken from the message, that the client takes |
| `Service.NotificationSvc.SendPush` | internal/service/notification.go:415-444 | a group push succeeds exactly when Firebase is set up, the message is not empty and some topic was taken; a token push only when no multicast failed and one reported a success |
| `Service.NotificationSvc.CollectMailboxes` | internal/service/notification.go:463-482 | the loop over the seen map yields one mailbox per trimmed non-blank recipient, in order of first occurrence, each with the request's title, message and notification id |
| `Service.NotificationSvc.SendInApp` | internal/service/notification.go:446-490 | creates those rows, with title, message and id as requested, all or none, and succeeds exactly when it does |
| `Service.PublishedInOrder` | internal/repository/notification.go:40-45 | a pass publishes a subsequence of the due rows in scheduled_at order |
| `Service.PublishedEarliestFirst` | internal/repository/notification.go:40-45 | on the query's answer each publication is a due row's own request, no row is published twice in a pass, and earlier scheduled_at comes first |
| `Refinement.EnqueueIsPath` | internal/service/notification.go:105-141 | the table and topic EnqueueNotification leaves are those of a path of steps, whether the request is refused, its create fails, it is deferred or it is published |
| `Refinement.ScheduledPassIsPath` | internal/service/notification.go:183-221 | keys, topic and table after each row of a scheduled pass are those of a path |
| `Refinement.ClaimPassIsPath` | internal/service/notification.go:232-265 | table and topic after a claim pass, committed or rolled back, are those of a path, for every answer of the locking query; a lease that does not fit rolls it back |
| `Refinement.SendConsumerIsPath` | internal/service/notification.go:143-171 | table and mailboxes after the send-queue consumer are those of a path, whatever the providers answer |
| `Refinement.RetryConsumerIsPath` | internal/service/notification.go:269-312 | the same for the retry consumer, guards included |
| `Text.FirstOccurrencesSpec` | internal/service/notification.go:463-482 | the dedup keeps every entry and orders them by first occurrence |
| `Text.FirstOccurrencesDistinct` | internal/service/notification.go:463-482 | and keeps none twice |
| `Text.TrimSpaceExactly` | internal/service/notification.go:466-469 | trimming takes off all white space at both ends and nothing else: the only such middle part |
| `Text.NonBlankExactly` | pkg/fcm/client.go:162-182 | an entry is kept, trimmed, if and only if it is not blank, right after those kept before it |
| `Text.NonBlankIn` | internal/service/notification.go:464-469 | somebody is reached if and only if an entry trims to them and is not blank |
| `Delivery.OneRowPerUser` | internal/service/notification.go:463-485 | one in-app send gives each trimmed non-blank recipient exactly one mailbox row for that notification, and nobody else any |
| `Delivery.MailboxesCarry` | internal/service/notification.go:474-479 | the rows a send adds carry its request's title, message and id, only for in-app requests and non-blank recipients |
| `Aggregate.SendNotificationReq.FromModel` | internal/aggregate/notification.go:46-73 | the receiver's new value: a nil model leaves it, a broken params column gives an empty map, zero times leave the receiver's |
| `Aggregate.ColumnsByName` | internal/aggregate/notification.go:25-44 | each column of a created row holds what the request has under its name; provider by channel; PENDING, no attempt, no retry time |
| `Aggregate.ValidRowFits` | internal/model/notification.go:42-70 | the row of a request that passes its tags fits its varchar columns and names a provider |
| `Aggregate.RowRoundTrip` | internal/aggregate/notification.go:25-73 | ToModel, storing and FromModel return the request up to nil for zero times, the row id, and params of which every value survives; a further JSON trip changes nothing |
| `Aggregate.PathsAgree` | internal/service/notification.go:204-209 | the immediate, scheduled and retry paths give SendNotification one and the same request, field by field the one enqueued, with surviving params |
| `Json.RoundTripParams` | internal/service/notification.go:109-111 | params written and read back are their normal form, every number the nearest float64, and a second trip changes nothing more |
| `Json.ReadBack` | internal/service/notification.go:109-111 | a value written and read back survives: nil, booleans and strings equal, slices and maps elementwise, every number a float within one part in 2^53, and exact below 2^53 |
| `Json.MarshalableExactly` | internal/service/notification.go:109-111 | a value is refused if and only if nothing could survive of it, that is if it holds a value JSON has no form for |
| `Fcm.FilterNonEmpty` | pkg/fcm/client.go:162-182 | both filters keep the trimmed non-blank entries in order |
| `Fcm.BatchesSpec` | pkg/fcm/client.go:56-60 | the batches concatenate to the list, number ceil(n/500), and are all full but perhaps the last |
| `Fcm.BatchesAt` | pkg/fcm/client.go:56-60 | batch i is the tokens from position 500 i up to the next 500 or the end |
| `Fcm.SendBatches` | pkg/fcm/client.go:56-86 | batches go out in order; after k answers the counters are the sums over exactly those k, also when the next call fails |
| `Fcm.SendToTokens` | pkg/fcm/client.go:48-87 | the same from the raw token list, with both refusals before any call |
| `Fcm.TotalsAccount` | pkg/fcm/client.go:68-69 | if every answer accounts for its batch, successes plus failures are all tokens sent |
| `Fcm.SomeSuccess` | internal/service/notification.go:430-437 | a success total that is not zero comes from a multicast that reported one |
| `Fcm.NoSuccess` | pkg/fcm/client.go:68-69 | with no negative count the total is zero if and only if every multicast reports zero |
| `Fcm.SendToTopics` | pkg/fcm/client.go:89-121 | the counters are the numbers of topics taken and refused, and there is an error exactly when none was taken |
| `Escape.RoundTrip` | pkg/email/renderer.go:18-26 | decoding the five entities of section 4.6 of XML 1.0 after xmlEscape returns the string; no raw bracket or quote is left |
| `Escape.Injective` | pkg/email/renderer.go:18-26 | different strings escape differently |
| `Escape.OnlyEscape` | pkg/email/renderer.go:18-26 | a text without raw brackets or quotes that decodes to s is the escape of s, so every ampersand starts one of the five entities |
| `Escape.SinglePassIsFive` | pkg/email/renderer.go:18-26 | the single pass equals five sequential replacements with the ampersand first |
| `Escape.EscapesInPlace` | pkg/email/renderer.go:18-26 | wherever a character stands, the five become the predefined entities by name and every other one stays |

## Left out

- Failures.FailuresRecordedExactly: the end of PostgreSQL's timestamp range is taken in UTC; a session time zone moves it by hours.
- Protocol.Enabled: of the timestamps only next_retry_at has its range checked; scheduled_at, sent_at and created_at are taken to be storable, and text to be free of NUL, which PostgreSQL refuses.
- Repository.NotificationRepository.RecordSendFailure: a failure is stamped with the clock at its write; a statement that waited on the row lock of a claim uses NOW() from before the wait, so its next_retry_at may lie earlier by that wait.
- Backoff.SecondsOverflow: states the first overflow only; larger values wrap to a duration of either sign.
- Json.RoundTripParams: strings are sequences of Unicode scalar values, so the replacement of invalid UTF-8 is not modelled, and fractions are float64 values already.
- AtMostOnce.AtMostOneSend: one direction; the assumptions are sufficient and none of them can be dropped (Necessity), but a single run can break one and still send once.
- Drain.DrainTerminates: covers rows with attempt_count >= 1; an unscheduled row whose first publication or first failure record is lost is in no retry query (Stranded), as the code has it.
- Settled.TurnsExactly: one notification in an otherwise empty system, as are the runs of Witnesses, Necessity, Stuck, Unbounded and Stranded.
- Refinement.ClaimPassIsPath: one pass without other steps in between; the transition system itself interleaves passes and consumers freely, and its theorems cover that.
- Service.NotificationSvc.SendNotification: e-mail rendering and sending is one oracle, and so are the SMS client and Firebase.
- Provider clients, MJML and Go templates, loggers and error wrapping.
- GORM, Postgres, RabbitMQ and Redis internals: timestamp precision, time zones, soft deletes, created_at and updated_at, isolation beyond row locks, connection loss in the middle of a statement.
- Several clocks: pods and database read one clock.
- HTTP and gRPC handlers, the ticker goroutines, wiring and server lifecycle: a tick starts a pass, and passes may start at any time.
- Configuration loading: the five integers and the service name delivery reads are arbitrary.
- Push topic, FCM token and mailbox services, pagination, and the other cache methods: single queries with nothing to prove beside the protocol.
- SendNotification called directly, and what CreateNotification returns: no consumer state depends on them.
