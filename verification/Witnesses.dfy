/**
 The delivery assumptions can be met: well-delivered runs that end in COMPLETED with one accepted send,
 at once, through the scheduler, and by a retry.
 */
module Witnesses {
  import opened Wrappers
  import opened Json
  import opened Model
  import opened Backoff
  import opened Aggregate
  import opened Delivery
  import opened Cache
  import opened Rows
  import opened Histories
  import opened Protocol
  import opened Invariants
  import opened NeverEarly
  import opened RowTheorems
  import opened Failures
  import opened Drain
  import opened AtMostOnce
  import opened Solo
  import opened Phases

  /** A run that keeps the assumptions throughout and completes notification id with one accepted send. */
  ghost predicate DeliversOnce(c: Config, s: State, t: Trace, id: Id) {
    && IsRun(c, t.ss, t.ls) && t.ss[0] == s && WellDelivered(c, t.ss, t.ls, |t.ls|, id)
    && id in t.Last().recs && t.Last().recs[id].row.status == Completed && Sends(t.Last().recs[id]) == 1
  }

  lemma Concluded(c: Config, s: State, t: Trace, id: Id, v: View)
    requires Initial(s) && So(c, s, t, id, v, {}, {}) && v.rec.row.status == Completed && Sends(v.rec) == 1
    ensures DeliversOnce(c, s, t, id)
  {
    hide Enabled, Apply, Benign, Timely;
    AllKept(c, t, id);
  }

  /** Every valid unscheduled request that SendNotification does not refuse has a well-delivered run. */
  lemma DeliveryRun(c: Config, s: State, id: Id, req: Request) returns (t: Trace)
    requires Initial(s) && Deliverable(c, id, req) && req.scheduledAt.None?
    ensures DeliversOnce(c, s, t, id)
  {
    hide Shows, KeptBut, Refused, Validated, NewRow, Transit;
    var t1, v1 := Enqueued(c, s, id, req);
    var t2, v2 := SendAccepted(c, s, t1, id, v1, {}, {}, 0);
    var t3, v3 := Completes(c, s, t2, id, v2, {}, {}, 0);
    Concluded(c, s, t3, id, v3);
    t := t3;
  }

  lemma DueAtOnce(c: Config, id: Id, req: Request)
    requires req.scheduledAt.Some? && req.scheduledAt.value > ZERO_TIME
    ensures DueScheduled(NewRow(c, req, id), req.scheduledAt.value) && NewRow(c, req, id).scheduledAt == req.scheduledAt.value
    ensures NewRow(c, req, id).id == id && SameBody(NewRow(c, req, id), NewRow(c, req, id))
  {
  }

  // ---- by the scheduler ------------------------------------------------

  /** A scheduled pass publishes id on the way. */
  ghost predicate ByScheduler(t: Trace, id: Id) {
    exists k, p :: 0 <= k < |t.ls| && k < |t.ss| && t.ls[k] == Move(p, PublishScheduled)
                   && p in t.ss[k].procs && Delivers(t.ss[k].procs[p], PublishScheduled, id)
  }

  lemma ScheduledSent(c: Config, s: State, id: Id, req: Request) returns (t: Trace, v: View)
    requires Initial(s) && Deliverable(c, id, req) && InFuture(req, s.clock) && DedupTTL(c) >= 0
    ensures So(c, s, t, id, v, {}, {}) && v.rec.row.status == Completed && Sends(v.rec) == 1
    ensures var row := NewRow(c, req, id);
            t.ls == [Create(id, req), Move(0, Check), Tick(req.scheduledAt.value)]
                    + [StartScheduled(1), Move(3, Find([row]))] + [Move(3, SetNX), Move(3, PublishScheduled)]
                    + [Move(6, Send(true))] + [Move(6, Write)]
  {
    hide Shows, KeptBut, Refused, Validated, NewRow, Transit, Rebuilt, DueScheduled, DedupTTL, DedupKey, SameBody;
    var row := NewRow(c, req, id);
    DueAtOnce(c, id, req);
    StillDeliverable(c, id, req, row);
    var t1, v1 := Waited(c, s, id, req);
    var t2, v2 := Finds(c, s, t1, id, v1, {}, {});
    var t3, v3 := WinsAndPublishes(c, s, t2, id, v2, {}, {}, 3, row);
    var t4, v4 := SendAccepted(c, s, t3, id, v3, {}, {}, 6);
    t, v := Completes(c, s, t4, id, v4, {}, {}, 6);
  }

  /** A valid request with a scheduled_at still to come is published by the scheduler. */
  lemma ScheduledRun(c: Config, s: State, id: Id, req: Request) returns (t: Trace)
    requires Initial(s) && Deliverable(c, id, req) && InFuture(req, s.clock) && DedupTTL(c) >= 0
    ensures DeliversOnce(c, s, t, id) && ByScheduler(t, id)
  {
    hide Shows, KeptBut, Refused, Validated, NewRow, DedupTTL, ByScheduler;
    DueAtOnce(c, id, req);
    var t1, v := ScheduledSent(c, s, id, req);
    t := t1;
    Concluded(c, s, t, id, v);
    ScheduledLabels(id, req, NewRow(c, req, id), t.ls);
    FoundIsPublished(c, t, 4, 3, NewRow(c, req, id));
  }

  lemma ScheduledLabels(id: Id, req: Request, row: Notification, ls: seq<Label>)
    requires req.scheduledAt.Some?
    requires ls == [Create(id, req), Move(0, Check), Tick(req.scheduledAt.value)]
                   + [StartScheduled(1), Move(3, Find([row]))] + [Move(3, SetNX), Move(3, PublishScheduled)]
                   + [Move(6, Send(true))] + [Move(6, Write)]
    ensures |ls| == 9 && ls[4] == Move(3, Find([row])) && ls[5] == Move(3, SetNX) && ls[6] == Move(3, PublishScheduled)
  {
  }

  /** What a pass found as its only row is what it publishes. */
  lemma FoundIsPublished(c: Config, t: Trace, k: nat, p: nat, row: Notification)
    requires IsPath(c, t.ss, t.ls) && k + 2 < |t.ls| && t.ls[k] == Move(p, Find([row]))
    requires t.ls[k + 1] == Move(p, SetNX) && t.ls[k + 2] == Move(p, PublishScheduled)
    ensures ByScheduler(t, row.id)
  {
    hide RecsAfter, KeysAfter, MailAfter, IsFirstDue, MarshalableParams, DedupTTL, NXWins;
    assert Enabled(c, t.ss[k], t.ls[k]) && t.ss[k + 1] == Apply(c, t.ss[k], t.ls[k]);
    assert Enabled(c, t.ss[k + 1], t.ls[k + 1]) && t.ss[k + 2] == Apply(c, t.ss[k + 1], t.ls[k + 1]);
    assert Enabled(c, t.ss[k + 2], t.ls[k + 2]);
    assert t.ss[k + 1].procs[p] == SchedLooping([row], false, None);
    assert Delivers(t.ss[k + 2].procs[p], PublishScheduled, row.id);
  }

  /** A lock in hand was taken with a TTL that Redis accepts. */
  ghost predicate LocksValid(c: Config, s: State) {
    && (forall p | p in s.procs :: p < s.next)
    && forall p | p in s.procs && s.procs[p].SchedLooping? && s.procs[p].won :: DedupTTL(c) >= 0
  }

  lemma LocksValidStep(c: Config, s: State, l: Label)
    requires LocksValid(c, s) && Enabled(c, s, l)
    ensures LocksValid(c, Apply(c, s, l))
  {
    hide DedupTTL, RecsAfter, KeysAfter, MailAfter, NXWins, IsFirstDue, IsLockResult, MarshalableParams;
    forall q | q in Apply(c, s, l).procs && Apply(c, s, l).procs[q].SchedLooping? && Apply(c, s, l).procs[q].won
      ensures DedupTTL(c) >= 0
    {
      ProcOrigin(c, s, l, q);
    }
  }

  lemma {:induction false} LocksValidAlways(c: Config, ss: seq<State>, ls: seq<Label>, i: nat)
    requires IsRun(c, ss, ls) && i <= |ls|
    ensures LocksValid(c, ss[i])
  {
    hide Enabled, Apply, LocksValid;
    if i > 0 {
      LocksValidAlways(c, ss, ls, i - 1);
      LocksValidStep(c, ss[i - 1], ls[i - 1]);
    } else {
      NoLocks(c, ss[0]);
    }
  }

  lemma NoLocks(c: Config, s: State)
    requires Initial(s)
    ensures LocksValid(c, s)
  {
  }

  /** Some well-delivered run completes the request through the scheduler if and only if the TTL has not wrapped below 0. */
  lemma ScheduledExactly(c: Config, s: State, id: Id, req: Request)
    requires Initial(s) && Deliverable(c, id, req) && InFuture(req, s.clock)
    ensures (exists t :: DeliversOnce(c, s, t, id) && ByScheduler(t, id)) <==> DedupTTL(c) >= 0
  {
    hide Enabled, Apply, Deliverable, InFuture, WellDelivered;
    if DedupTTL(c) >= 0 {
      var t := ScheduledRun(c, s, id, req);
    }
    forall t | DeliversOnce(c, s, t, id) && ByScheduler(t, id) ensures DedupTTL(c) >= 0 {
      var k, p :| 0 <= k < |t.ls| && k < |t.ss| && t.ls[k] == Move(p, PublishScheduled)
                  && p in t.ss[k].procs && Delivers(t.ss[k].procs[p], PublishScheduled, id);
      LocksValidAlways(c, t.ss, t.ls, k);
      PublishesWon(c, t.ss[k], p);
    }
  }

  lemma PublishesWon(c: Config, s: State, p: nat)
    requires LocksValid(c, s) && Enabled(c, s, Move(p, PublishScheduled))
    ensures DedupTTL(c) >= 0
  {
  }

  // ---- by a retry ------------------------------------------------------

  /**
   A first failure at time at is recorded and leaves the row pending, and there is a lease, which a claim at
   the end of the backoff can store.
   */
  predicate Retries(c: Config, at: Time) {
    FirstRecorded(c, at) && RowMaxAttempts(c) >= 2 && PublishLease(c) > 0 && LeaseFits(c, at + Delay(c, 0))
  }

  function FailedRow(c: Config, req: Request, id: Id, at: Time): Notification {
    NewRow(c, req, id).(attemptCount := 1, nextRetryAt := Some(at + Delay(c, 0)))
  }

  lemma FailedRowIsRetryable(c: Config, req: Request, id: Id, at: Time, lease: Option<Time>, now: Time)
    requires RowMaxAttempts(c) >= 2
    ensures var row := FailedRow(c, req, id, at);
            && SameBody(row, NewRow(c, req, id)) && SameBody(row.(nextRetryAt := lease), NewRow(c, req, id))
            && RetryGuard(row) && RetryGuard(row.(nextRetryAt := lease))
            && (now >= at + Delay(c, 0) ==> DueForRetry(row, now))
            && (lease.Some? && now >= lease.value ==> DueForRetry(row.(nextRetryAt := lease), now))
    ensures Horizon(c) >= Delay(c, 0) > 0
  {
    DelayMonotone(c, 0, 0);
  }

  /** Enqueued, sent without success, and the failure recorded. */
  lemma FailedOnce(c: Config, s: State, id: Id, req: Request) returns (t: Trace, v: View)
    requires Initial(s) && Deliverable(c, id, req) && req.scheduledAt.None? && Retries(c, s.clock)
    ensures So(c, s, t, id, v, {}, {}) && |t.ls| == 5
    ensures v.clock == s.clock && v.keys == map[] && v.procs == map[] && v.next == 5
    ensures v.rec.row == FailedRow(c, req, id, s.clock) && Sends(v.rec) == 0
  {
    hide Shows, KeptBut, Refused, Validated, Transit, FirstRecorded, Delay, PublishLease;
    var t1, v1 := Enqueued(c, s, id, req);
    t, v := FirstFailure(c, s, t1, id, v1, 0);
  }

  /** A claim on time, a retry that is accepted, and its write. */
  lemma ClaimedAndSent(c: Config, s: State, t1: Trace, id: Id, v1: View, req: Request, at: Time)
    returns (t: Trace, v: View)
    requires Deliverable(c, id, req) && Retries(c, s.clock) && So(c, s, t1, id, v1, {}, {}) && |t1.ls| == 5
    requires v1.clock == s.clock && at >= s.clock + Delay(c, 0) && LeaseFits(c, at) && v1.procs == map[] && v1.next == 5
    requires v1.rec.row == FailedRow(c, req, id, s.clock) && Sends(v1.rec) == 0
    ensures So(c, s, t, id, v, {}, {}) && t1.ss <= t.ss && v.rec.row.status == Completed && Sends(v.rec) == 1
    ensures t.ls == t1.ls + SoloClaim(id, at, 5) + [Move(9, ReadRow), Move(9, Send(true))] + [Move(9, Write)]
    ensures v.procs == map[6 := ClaimPublishing(Some(at + PublishLease(c)), [])]
  {
    hide Shows, KeptBut, Refused, Validated, NewRow, Rebuilt, FirstRecorded, Delay, PublishLease, FailedRow, DueForRetry;
    hide RetryGuard, SameBody;
    var until := Some(at + PublishLease(c));
    FailedRowIsRetryable(c, req, id, s.clock, until, at);
    StillDeliverable(c, id, req, v1.rec.row.(nextRetryAt := until));
    var t2, v2 := Claims(c, s, t1, id, v1, {}, {}, at);
    var t3, v3 := RetryAccepted(c, s, t2, id, v2, {}, {}, 9);
    t, v := Completes(c, s, t3, id, v3, {}, {}, 9);
    RetryCompleted(c, req, id, s.clock, v3.rec.row, v.rec.row);
  }

  /**
   A valid unscheduled request whose first send fails: a claim at any time from the end of the backoff on
   completes it, and one max(lease, cap) later is a round of the retry path that drains the table.
   */
  lemma RetryRun(c: Config, s: State, id: Id, req: Request, at: Time) returns (t: Trace)
    requires Initial(s) && Deliverable(c, id, req) && req.scheduledAt.None? && Retries(c, s.clock)
    requires at >= s.clock + Delay(c, 0) && LeaseFits(c, at)
    ensures DeliversOnce(c, s, t, id) && ByRetry(t, id) && |t.ls| == 13
    ensures at >= s.clock + Horizon(c) ==>
              Round(c, t.ss, t.ls, 5, 13) && !Drained(t.ss[5]) && Drained(t.ss[13])
  {
    hide Shows, KeptBut, Refused, Validated, NewRow, FirstRecorded, Delay, PublishLease, FailedRow, ByRetry, Round;
    var t1, v1 := FailedOnce(c, s, id, req);
    FailedRowIsRetryable(c, req, id, s.clock, None, at);
    RetryCompleted(c, req, id, s.clock, v1.rec.row, v1.rec.row);
    var t2, v2 := ClaimedAndSent(c, s, t1, id, v1, req, at);
    t := t2;
    Concluded(c, s, t, id, v2);
    if at >= s.clock + Horizon(c) {
      IsRound(c, s, t1, id, v1, t, v2, at);
    }
    RetryLabels(c, t, t1.ls, id, at);
  }

  lemma RetryLabels(c: Config, t: Trace, ls: seq<Label>, id: Id, at: Time)
    requires IsPath(c, t.ss, t.ls) && |ls| == 5
    requires t.ls == ls + SoloClaim(id, at, 5) + [Move(9, ReadRow), Move(9, Send(true))] + [Move(9, Write)]
    ensures |t.ls| == 13 && ByRetry(t, id)
  {
    hide Enabled, Apply;
    LockedIsClaimed(c, t, 7, 6, id);
  }

  /** A claim of id commits on the way. */
  ghost predicate ByRetry(t: Trace, id: Id) {
    exists k, p :: 0 <= k < |t.ls| && k < |t.ss| && t.ls[k] == Move(p, Commit)
                   && p in t.ss[k].procs && t.ss[k].procs[p].ClaimOpen? && id in t.ss[k].procs[p].ids
  }

  lemma LockedIsClaimed(c: Config, t: Trace, k: nat, p: nat, id: Id)
    requires IsPath(c, t.ss, t.ls) && k + 1 < |t.ls|
    requires t.ls[k] == Move(p, Lock([id])) && t.ls[k + 1] == Move(p, Commit)
    ensures ByRetry(t, id)
  {
    hide RecsAfter, KeysAfter, MailAfter, IsLockResult;
    assert Enabled(c, t.ss[k], t.ls[k]) && t.ss[k + 1] == Apply(c, t.ss[k], t.ls[k]);
    assert t.ss[k + 1].procs[p].ids == [id];
  }

  /** A pending row with a recorded failure tells that first failures are recorded, and waits out the first backoff. */
  predicate RowTells(c: Config, row: Notification, from: Time) {
    row.status == Pending && row.attemptCount >= 1 ==>
      && FirstRecorded(c, from) && RowMaxAttempts(c) >= 2
      && (PublishLease(c) > 0 ==> row.nextRetryAt.Some? && row.nextRetryAt.value >= from + Delay(c, 0))
  }

  ghost predicate TellsFirst(c: Config, s: State, from: Time, id: Id) {
    id in s.recs ==> RowTells(c, s.recs[id].row, from)
  }

  lemma FirstRecordedEarlier(c: Config, early: Time, late: Time)
    requires FirstRecorded(c, late) && early <= late
    ensures FirstRecorded(c, early)
  {
    hide SqlDelay;
  }

  lemma FailureTells(c: Config, row: Notification, at: Time, from: Time)
    requires FailureResult(c, row, at).Some? && from <= at && row.maxAttempts == RowMaxAttempts(c)
    requires RowTells(c, row, from)
    ensures RowTells(c, FailureResult(c, row, at).value, from)
  {
    if row.status == Pending && FailureResult(c, row, at).value.status == Pending {
      FailureDelay(c, row, at);
      DelayMonotone(c, 0, row.attemptCount);
      if row.attemptCount == 0 {
        FirstRecordedIs(c, row, at);
        FirstRecordedEarlier(c, from, at);
      }
    }
    hide FirstRecorded, FailureResult, Delay;
  }

  lemma EventTells(c: Config, row: Notification, clock: Time, e: Event, from: Time)
    requires EventOk(c, row, clock, e) && from <= clock && row.maxAttempts == RowMaxAttempts(c) && RowTells(c, row, from)
    ensures RowTells(c, RowAfter(c, row, e), from)
  {
    hide FirstRecorded, FailureResult, Delay, PublishLease;
    if e.kind == FailureRecorded {
      FailureTells(c, row, e.at, from);
    }
  }

  lemma TellsFirstStep(c: Config, s: State, l: Label, from: Time, id: Id)
    requires Inv(c, s) && Enabled(c, s, l) && TellsFirst(c, s, from, id) && from <= s.clock
    ensures TellsFirst(c, Apply(c, s, l), from, id)
  {
    hide RecOk, FromRequest, ProcOk, Exclusive, CanMove, MoveEvent, RowAfter, EventOk, RowTells;
    hide KeysAfter, ProcsAfter, MailAfter, NewRow;
    if id in s.recs {
      OneRowStep(c, s, l, id);
      MaxOf(c, s, id);
      if l.Move? {
        EventAllowed(c, s, s.procs[l.p], l.a, id);
        var e := EventOf(c, s, l, id);
        if e.Some? {
          EventTells(c, s.recs[id].row, s.clock, e.value, from);
        }
      }
    } else if l.Create? && l.id == id {
      NewTells(c, l.req, id, from);
    }
  }

  lemma NewTells(c: Config, req: Request, id: Id, from: Time)
    ensures RowTells(c, NewRow(c, req, id), from)
  {
  }

  lemma {:induction false} TellsFirstAlways(c: Config, ss: seq<State>, ls: seq<Label>, i: nat, id: Id)
    requires IsRun(c, ss, ls) && i <= |ls|
    ensures TellsFirst(c, ss[i], ss[0].clock, id)
  {
    hide Inv, Enabled, Apply, TellsFirst;
    if i > 0 {
      TellsFirstAlways(c, ss, ls, i - 1, id);
      InvAlways(c, ss, ls, i - 1);
      GrowsBetween(c, ss, ls, 0, i - 1);
      TellsFirstStep(c, ss[i - 1], ls[i - 1], ss[0].clock, id);
    } else {
      NothingYet(c, ss[0], id);
    }
  }

  lemma NothingYet(c: Config, s: State, id: Id)
    requires Initial(s)
    ensures TellsFirst(c, s, s.clock, id)
  {
  }

  /** A claim that commits holds a pending row with a recorded failure, and its messages are outstanding from then on. */
  lemma CommitTells(c: Config, s: State, p: nat, id: Id)
    requires Inv(c, s) && Enabled(c, s, Move(p, Commit)) && id in s.procs[p].ids
    ensures id in s.recs && DueForRetry(s.recs[id].row, s.procs[p].now) && LeaseFits(c, s.procs[p].now)
    ensures var s' := Apply(c, s, Move(p, Commit));
            && id in s'.recs && s'.recs[id].row.status == Pending
            && (Timely(s', id) ==> PublishLease(c) > 0)
  {
    hide RowsOk, Exclusive, KeysAfter, MailAfter, PublishLease, RowAfter;
    var s' := Apply(c, s, Move(p, Commit));
    assert ProcOk(c, s, s.procs[p]);
    CommitKeepsPending(c, s.recs[id].row, EventOf(c, s, Move(p, Commit), id).value);
    assert Token(s'.procs[p], id, true);
  }

  lemma CommitKeepsPending(c: Config, row: Notification, e: Event)
    requires e.kind == Claimed
    ensures RowAfter(c, row, e).status == row.status
  {
  }

  /**
   Some well-delivered run claims the row and completes it if and only if the first failure is recorded and is
   not the last attempt, the lease has not wrapped to 0 or below, and a claim right after the backoff can store it.
   */
  lemma RetryExactly(c: Config, s: State, id: Id, req: Request)
    requires Initial(s) && Deliverable(c, id, req) && req.scheduledAt.None?
    ensures (exists t :: DeliversOnce(c, s, t, id) && ByRetry(t, id)) <==> Retries(c, s.clock)
  {
    hide Enabled, Apply, Deliverable, Inv, FirstRecorded, PublishLease, Delay, DeliversOnce, Round, Drained;
    if Retries(c, s.clock) {
      var t := RetryRun(c, s, id, req, s.clock + Delay(c, 0));
    }
    forall t | DeliversOnce(c, s, t, id) && ByRetry(t, id) ensures Retries(c, s.clock) {
      ClaimedRetries(c, s, t, id);
    }
  }

  lemma ClaimedRetries(c: Config, s: State, t: Trace, id: Id)
    requires DeliversOnce(c, s, t, id) && ByRetry(t, id)
    ensures Retries(c, s.clock)
  {
    hide Enabled, Apply, Inv, Timely, Benign, FirstRecorded, PublishLease, Delay;
    var k, p :| 0 <= k < |t.ls| && k < |t.ss| && t.ls[k] == Move(p, Commit)
                && p in t.ss[k].procs && t.ss[k].procs[p].ClaimOpen? && id in t.ss[k].procs[p].ids;
    InvAlways(c, t.ss, t.ls, k);
    TellsFirstAlways(c, t.ss, t.ls, k, id);
    assert Enabled(c, t.ss[k], t.ls[k]) && t.ss[k + 1] == Apply(c, t.ss[k], t.ls[k]);
    CommitTells(c, t.ss[k], p, id);
    assert k + 1 < |t.ls|;
    assert Timely(t.ss[k + 1], id);
  }

  lemma RetryCompleted(c: Config, req: Request, id: Id, at: Time, row: Notification, row': Notification)
    ensures row' == RetrySuccess(row, row'.sentAt) ==> row'.status == Completed
    ensures FailedRow(c, req, id, at).status == Pending && FailedRow(c, req, id, at).attemptCount == 1
  {
  }

  lemma IsRound(c: Config, s: State, t1: Trace, id: Id, v1: View, t: Trace, v: View, at: Time)
    requires So(c, s, t1, id, v1, {}, {}) && So(c, s, t, id, v, {}, {}) && t1.ss <= t.ss && |t1.ls| == 5
    requires t.ls == t1.ls + SoloClaim(id, at, 5) + [Move(9, ReadRow), Move(9, Send(true))] + [Move(9, Write)]
    requires at >= v1.clock + Horizon(c) && v1.next == 5 && v1.procs == map[] && v1.rec.row.status == Pending
    requires v1.rec.row.attemptCount >= 1 && v.rec.row.status == Completed
    requires v.procs == map[6 := ClaimPublishing(Some(at + PublishLease(c)), [])]
    ensures |t.ls| == 13 && Round(c, t.ss, t.ls, 5, 13) && !Drained(t.ss[5]) && Drained(t.ss[13])
  {
    hide Enabled, Benign, CanMove, RecsAfter, KeysAfter, ProcsAfter, MailAfter, PublishLease, Shows, Drained, Carried;
    hide NoOpenClaims, TimelyBut;
    assert t.ss[5] == t1.ss[5] && t.ss[6] == Apply(c, t.ss[5], t.ls[5]);
    Viewed(t.ss[5], id, v1);
    Viewed(t.ss[13], id, v);
    RoundLabels(id, at, t.ls[5..]);
    forall k | 5 <= k < 13 ensures t.ls[k] == t.ls[5..][k - 5] {
    }
  }

  lemma Viewed(s: State, id: Id, v: View)
    requires Shows(s, id, v)
    ensures s.clock == v.clock && s.next == v.next
    ensures v.procs == map[] ==> NoOpenClaims(s)
    ensures v.rec.row.status == Pending && v.rec.row.attemptCount >= 1 ==> !Drained(s)
    ensures v.rec.row.status != Pending ==> Drained(s)
    ensures (forall p | p in v.procs :: v.procs[p].ClaimPublishing? && v.procs[p].ids == []) ==> forall k :: !Carried(s, k)
  {
    assert id in s.recs && s.recs[id].row == v.rec.row;
    assert v.rec.row.status == Pending && v.rec.row.attemptCount >= 1 ==> Retryable(s, id);
  }

  lemma RoundLabels(id: Id, at: Time, ls: seq<Label>)
    requires ls == SoloClaim(id, at, 5) + [Move(9, ReadRow), Move(9, Send(true))] + [Move(9, Write)]
    ensures |ls| == 8 && ls[0] == Tick(at) && ls[1] == StartClaim(1) && ls[2] == Move(6, Lock([id]))
    ensures forall k :: 0 <= k < 8 ==> !ls[k].Create? && (ls[k].Move? ==> !ls[k].a.Drop? && !ls[k].a.SkipRetry?)
  {
  }
}
