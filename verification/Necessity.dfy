/**
 None of the delivery assumptions can be dropped: for each, a run from the empty system that keeps all the
 others at every step and in every state, and in which one notification's send is accepted twice.
 */
module Necessity {
  import opened Wrappers
  import opened Json
  import opened Model
  import opened Backoff
  import opened Aggregate
  import opened Delivery
  import opened Cache
  import opened Rows
  import opened Protocol
  import opened Failures
  import opened AtMostOnce
  import opened Solo
  import opened Phases
  import opened Witnesses

  /** A run with two accepted sends that keeps every assumption but at labels bad and for deliveries late. */
  ghost predicate SendsTwice(c: Config, s: State, t: Trace, id: Id, bad: set<nat>, late: set<nat>) {
    && IsRun(c, t.ss, t.ls) && t.ss[0] == s && KeptBut(c, t, id, bad, late)
    && id in t.Last().recs && Sends(t.Last().recs[id]) == 2
  }

  lemma Twice(c: Config, s: State, t: Trace, id: Id, v: View, bad: set<nat>, late: set<nat>)
    requires Initial(s) && So(c, s, t, id, v, bad, late) && Sends(v.rec) == 2
    ensures SendsTwice(c, s, t, id, bad, late)
  {
    hide Enabled, Apply, Benign, TimelyBut;
  }

  /** Redelivery: one duplicated message is sent twice, because its consumer does not look at the row. */
  lemma RedeliverySendsTwice(c: Config, s: State, id: Id, req: Request) returns (t: Trace)
    requires Initial(s) && Deliverable(c, id, req) && req.scheduledAt.None?
    ensures SendsTwice(c, s, t, id, {3}, {}) && |t.ls| > 3 && t.ls[3] == Move(0, Redeliver)
  {
    hide Enabled, Apply, Benign, Shows, KeptBut, Refused, Validated, NewRow, Transit;
    var t1, v1 := Enqueued(c, s, id, req);
    Excuse(c, s, t1, id, v1, {}, {}, 3, 0);
    assert {} + {3} == {3};
    var v2 := RedeliverStep(c, t1.Last(), id, v1, 0);
    var t2 := Then(c, s, t1, id, v1, {3}, {}, Move(0, Redeliver), v2);
    var t3, v3 := SendAccepted(c, s, t2, id, v2, {3}, {}, 0);
    var t4, v4 := SendAccepted(c, s, t3, id, v3, {3}, {}, 3);
    t := t4;
    Twice(c, s, t, id, v4, {3}, {});
  }

  /** A second claim can store its lease too, when the first one's has ended. */
  predicate RetriesTwice(c: Config, at: Time) {
    Retries(c, at) && LeaseFits(c, at + Delay(c, 0) + PublishLease(c))
  }

  /** A row claimed at the end of its backoff, with its message published as process 9. */
  lemma ClaimedOnce(c: Config, s: State, id: Id, req: Request) returns (t: Trace, v: View)
    requires Initial(s) && Deliverable(c, id, req) && req.scheduledAt.None? && Retries(c, s.clock)
    ensures So(c, s, t, id, v, {}, {}) && |t.ls| == 10 && InTime(v, {}) && v.next == 10 && Unclaimed(v)
    ensures var until := Some(s.clock + Delay(c, 0) + PublishLease(c));
            && v.procs == map[6 := ClaimPublishing(until, []), 9 := RetryQueued(id, until)]
            && v.rec.row == FailedRow(c, req, id, s.clock).(nextRetryAt := until) && Sends(v.rec) == 0
            && RetryGuard(v.rec.row) && !Refused(Rebuilt(v.rec.row), true)
    ensures v.clock == s.clock + Delay(c, 0)
  {
    hide Shows, KeptBut, Refused, Validated, NewRow, Rebuilt, FirstRecorded, Delay, PublishLease, FailedRow, DueForRetry;
    hide RetryGuard, SameBody;
    var t1, v1 := FailedOnce(c, s, id, req);
    var at := s.clock + Delay(c, 0);
    var until := Some(at + PublishLease(c));
    FailedRowIsRetryable(c, req, id, s.clock, until, at);
    StillDeliverable(c, id, req, v1.rec.row.(nextRetryAt := until));
    t, v := Claims(c, s, t1, id, v1, {}, {}, at);
  }

  /** Claiming the row once more when its lease has ended, and sending it. */
  lemma ClaimedAgain(c: Config, s: State, t0: Trace, id: Id, v0: View, bad: set<nat>, late: set<nat>, req: Request, at: Time)
    returns (t: Trace, v: View)
    requires So(c, s, t0, id, v0, bad, late) && Unclaimed(v0) && Deliverable(c, id, req) && Retries(c, at)
    requires var until := v0.clock + PublishLease(c);
             && v0.rec.row == FailedRow(c, req, id, at).(nextRetryAt := Some(until))
             && InTime(v0.(clock := until), late) && LeaseFits(c, until)
    ensures So(c, s, t, id, v, bad, late) && t0.ss <= t.ss && t0.ls <= t.ls && InTime(v, late) && Unclaimed(v)
    ensures v.rec.row == v0.rec.row.(nextRetryAt := Some(v0.clock + 2 * PublishLease(c)))
    ensures Sends(v.rec) == Sends(v0.rec) + 1
    ensures forall p | p in v0.procs :: p in v.procs && v.procs[p] == v0.procs[p]
  {
    hide Shows, KeptBut, Refused, Validated, NewRow, Rebuilt, FirstRecorded, Delay, PublishLease, FailedRow, DueForRetry;
    hide RetryGuard, SameBody;
    var until := v0.clock + PublishLease(c);
    FailedRowIsRetryable(c, req, id, at, Some(until), until);
    FailedRowIsRetryable(c, req, id, at, Some(until + PublishLease(c)), until);
    var t1, v1 := Claims(c, s, t0, id, v0, bad, late, until);
    StillDeliverable(c, id, req, v1.rec.row);
    t, v := RetryAccepted(c, s, t1, id, v1, bad, late, v0.next + 4);
    ViewBelow(t0.Last(), id, v0);
  }

  /** Timeliness: a retry message that outlives its lease, process 9, is sent next to that of the next claim. */
  lemma LateMessageSendsTwice(c: Config, s: State, id: Id, req: Request) returns (t: Trace)
    requires Initial(s) && Deliverable(c, id, req) && req.scheduledAt.None? && RetriesTwice(c, s.clock)
    ensures SendsTwice(c, s, t, id, {}, {9}) && Move(9, ReadRow) in t.ls
  {
    hide Shows, KeptBut, Refused, Validated, NewRow, Rebuilt, FirstRecorded, PublishLease, FailedRow, RetryGuard;
    var t1, v1 := ClaimedOnce(c, s, id, req);
    Excuse(c, s, t1, id, v1, {}, {}, 0, 9);
    assert {} + {9} == {9};
    var t2, v2 := ClaimedAgain(c, s, t1, id, v1, {}, {9}, req, s.clock);
    LeaseAgain(v1.rec.row, v2.rec.row.nextRetryAt);
    var t3, v3 := RetryAccepted(c, s, t2, id, v2, {}, {9}, 9);
    t := t3;
    Twice(c, s, t, id, v3, {}, {9});
  }

  lemma LeaseAgain(row: Notification, until: Option<Time>)
    ensures Rebuilt(row.(nextRetryAt := until)) == Rebuilt(row)
    ensures RetryGuard(row.(nextRetryAt := until)) == RetryGuard(row)
  {
  }

  /** The retry message's send is accepted and its status write lost. */
  lemma AcceptedUnwritten(c: Config, s: State, id: Id, req: Request) returns (t: Trace, v: View)
    requires Initial(s) && Deliverable(c, id, req) && req.scheduledAt.None? && Retries(c, s.clock)
    ensures So(c, s, t, id, v, {12}, {}) && |t.ls| == 13 && t.ls[12] == Move(9, Drop) && Sends(v.rec) == 1
    ensures v.clock == s.clock + Delay(c, 0)
    ensures var until := Some(v.clock + PublishLease(c));
            && v.procs == map[6 := ClaimPublishing(until, [])]
            && v.rec.row == FailedRow(c, req, id, s.clock).(nextRetryAt := until)
  {
    hide Enabled, Apply, Benign, Shows, KeptBut, Refused, Validated, NewRow, Rebuilt, FirstRecorded, PublishLease;
    hide FailedRow, RetryGuard;
    var t1, v1 := ClaimedOnce(c, s, id, req);
    var t2, v2 := RetryAccepted(c, s, t1, id, v1, {}, {}, 9);
    Excuse(c, s, t2, id, v2, {}, {}, 12, 0);
    assert {} + {12} == {12};
    Dropped(v2.procs, v1.procs[6]);
    v := Solo.DropStep(c, t2.Last(), id, v2, 9);
    t := Then(c, s, t2, id, v2, {12}, {}, Move(9, Drop), v);
  }

  lemma Dropped(procs: map<nat, Proc>, x: Proc)
    requires procs.Keys == {6, 9} && procs[6] == x
    ensures procs - {9} == map[6 := x]
  {
  }

  /** Status writes: one that is lost after an accepted send has the row claimed and sent again. */
  lemma LostWriteSendsTwice(c: Config, s: State, id: Id, req: Request) returns (t: Trace)
    requires Initial(s) && Deliverable(c, id, req) && req.scheduledAt.None? && RetriesTwice(c, s.clock)
    ensures SendsTwice(c, s, t, id, {12}, {}) && |t.ls| > 12 && t.ls[12] == Move(9, Drop)
  {
    hide Shows, KeptBut, Refused, Validated, NewRow, Rebuilt, FirstRecorded, PublishLease, FailedRow, RetryGuard;
    var t1, v1 := AcceptedUnwritten(c, s, id, req);
    var t2, v2 := ClaimedAgain(c, s, t1, id, v1, {12}, {}, req, s.clock);
    t := t2;
    Twice(c, s, t, id, v2, {12}, {});
  }

  // ---- the scheduled side ----------------------------------------------

  /** A deferred notification whose time has come, published by a pass as process 6. */
  lemma PublishedOnce(c: Config, s: State, id: Id, req: Request) returns (t: Trace, v: View)
    requires Initial(s) && Deliverable(c, id, req) && InFuture(req, s.clock) && DedupTTL(c) >= 0
    ensures So(c, s, t, id, v, {}, {}) && |t.ls| == 7 && InTime(v, {}) && v.next == 7 && Unclaimed(v)
    ensures var row, until := NewRow(c, req, id), Expiry(v.clock, DedupTTL(c));
            && v.rec.row == row && Sends(v.rec) == 0 && DueScheduled(row, v.clock)
            && v.keys == map[DedupKey(c, id) := until]
            && v.procs == map[3 := SchedLooping([], false, None), 6 := SendQueued(id, Transit(Rebuilt(row), id), until)]
  {
    hide Shows, KeptBut, Refused, Validated, NewRow, Transit, Rebuilt, DueScheduled, DedupTTL, DedupKey, SameBody;
    var row := NewRow(c, req, id);
    DueAtOnce(c, id, req);
    StillDeliverable(c, id, req, row);
    var t1, v1 := Waited(c, s, id, req);
    var t2, v2 := Finds(c, s, t1, id, v1, {}, {});
    t, v := WinsAndPublishes(c, s, t2, id, v2, {}, {}, 3, row);
  }

  /** What a scheduled publication carries is not refused. */
  lemma ScheduledNotRefused(c: Config, id: Id, req: Request)
    requires Deliverable(c, id, req)
    ensures var row := NewRow(c, req, id);
            && row.id == id && MarshalableParams(Rebuilt(row).params) && !Refused(Transit(Rebuilt(row), id), true)
  {
    hide Refused, Validated, Transit, Rebuilt;
    StillDeliverable(c, id, req, NewRow(c, req, id));
  }

  /** Its dedup key is deleted while it is queued. */
  lemma KeyDeleted(c: Config, s: State, id: Id, req: Request) returns (t: Trace, v: View)
    requires Initial(s) && Deliverable(c, id, req) && InFuture(req, s.clock) && DedupTTL(c) >= 0
    ensures So(c, s, t, id, v, {7}, {}) && |t.ls| == 8 && t.ls[7] == Evict(DedupKey(c, id)) && InTime(v, {}) && v.next == 8
    ensures var row := NewRow(c, req, id);
            && v.rec.row == row && Sends(v.rec) == 0 && DueScheduled(row, v.clock) && v.keys == map[]
            && v.procs == map[3 := SchedLooping([], false, None),
                              6 := SendQueued(id, Transit(Rebuilt(row), id), Expiry(v.clock, DedupTTL(c)))]
  {
    hide Enabled, Apply, Benign, Shows, KeptBut, Refused, Validated, NewRow, Transit, Rebuilt, DueScheduled, DedupTTL;
    hide DedupKey, MarshalableParams;
    var t1, v1 := PublishedOnce(c, s, id, req);
    Excuse(c, s, t1, id, v1, {}, {}, 7, 0);
    assert {} + {7} == {7};
    v := EvictStep(c, t1.Last(), id, v1, DedupKey(c, id));
    t := Then(c, s, t1, id, v1, {7}, {}, Evict(DedupKey(c, id)), v);
  }

  /** A second pass has published it again, as process 11. */
  lemma PublishedTwice(c: Config, s: State, id: Id, req: Request) returns (t: Trace, v: View)
    requires Initial(s) && Deliverable(c, id, req) && InFuture(req, s.clock) && DedupTTL(c) >= 0
    ensures So(c, s, t, id, v, {7}, {}) && |t.ls| > 7 && t.ls[7] == Evict(DedupKey(c, id)) && InTime(v, {})
    ensures Sends(v.rec) == 0
    ensures forall p | p in {6, 11} ::
              && p in v.procs && v.procs[p].SendQueued? && v.procs[p].id == id
              && v.procs[p].req == Transit(Rebuilt(NewRow(c, req, id)), id)
  {
    hide Shows, KeptBut, Refused, Validated, NewRow, Transit, Rebuilt, DueScheduled, DedupTTL, DedupKey, MarshalableParams;
    ScheduledNotRefused(c, id, req);
    var t1, v1 := KeyDeleted(c, s, id, req);
    var t2, v2 := Finds(c, s, t1, id, v1, {7}, {});
    t, v := WinsAndPublishes(c, s, t2, id, v2, {7}, {}, 8, NewRow(c, req, id));
  }

  /** Keys left alone: with its dedup key deleted a queued notification is found, published and sent again. */
  lemma DeletedKeySendsTwice(c: Config, s: State, id: Id, req: Request) returns (t: Trace)
    requires Initial(s) && Deliverable(c, id, req) && InFuture(req, s.clock) && DedupTTL(c) >= 0
    ensures SendsTwice(c, s, t, id, {7}, {}) && |t.ls| > 7 && t.ls[7] == Evict(DedupKey(c, id))
  {
    hide Shows, KeptBut, Refused, Validated, NewRow, Transit, Rebuilt, DedupTTL, DedupKey, MarshalableParams;
    ScheduledNotRefused(c, id, req);
    var t1, v1 := PublishedTwice(c, s, id, req);
    var t2, v2 := SendAccepted(c, s, t1, id, v1, {7}, {}, 6);
    var t3, v3 := SendAccepted(c, s, t2, id, v2, {7}, {}, 11);
    t := t3;
    Twice(c, s, t, id, v3, {7}, {});
  }

  /** Two passes have found the row. */
  lemma FoundByTwo(c: Config, s: State, id: Id, req: Request) returns (t: Trace, v: View)
    requires Initial(s) && Deliverable(c, id, req) && InFuture(req, s.clock)
    ensures So(c, s, t, id, v, {}, {}) && |t.ls| == 7 && v.next == 7 && Unclaimed(v) && InTime(v, {})
    ensures var row := NewRow(c, req, id);
            && v.rec.row == row && Sends(v.rec) == 0 && v.keys == map[] && DueScheduled(row, v.clock)
            && v.procs == map[3 := SchedLooping([row], false, None), 5 := SchedLooping([row], false, None)]
  {
    hide Shows, KeptBut, Refused, Validated, NewRow, Transit, DueScheduled, SameBody;
    DueAtOnce(c, id, req);
    var t1, v1 := Waited(c, s, id, req);
    var t2, v2 := Finds(c, s, t1, id, v1, {}, {});
    t, v := Finds(c, s, t2, id, v2, {}, {});
  }

  /** The later one has had it sent and COMPLETED. */
  lemma FoundTwice(c: Config, s: State, id: Id, req: Request) returns (t: Trace, v: View)
    requires Initial(s) && Deliverable(c, id, req) && InFuture(req, s.clock) && DedupTTL(c) > 0
    ensures So(c, s, t, id, v, {}, {}) && |t.ls| == 11 && v.next == 11 && Unclaimed(v)
    ensures var row := NewRow(c, req, id);
            && v.rec.row.status == Completed && Sends(v.rec) == 1
            && v.keys == map[DedupKey(c, id) := Some(v.clock + DedupTTL(c))]
            && v.procs == map[3 := SchedLooping([row], false, None), 5 := SchedLooping([], false, None)]
  {
    hide Shows, KeptBut, Refused, Validated, NewRow, Transit, Rebuilt, DueScheduled, DedupTTL, DedupKey, SameBody;
    hide MarshalableParams, InFuture;
    var row := NewRow(c, req, id);
    ScheduledNotRefused(c, id, req);
    var t1, v1 := FoundByTwo(c, s, id, req);
    var t2, v2 := WinsAndPublishes(c, s, t1, id, v1, {}, {}, 5, row);
    var t3, v3 := SendAccepted(c, s, t2, id, v2, {}, {}, 8);
    t, v := Completes(c, s, t3, id, v3, {}, {}, 8);
    LastDropped(v1.procs, v3.procs, row);
  }

  lemma LastDropped(procs: map<nat, Proc>, procs': map<nat, Proc>, row: Notification)
    requires procs == map[3 := SchedLooping([row], false, None), 5 := SchedLooping([row], false, None)]
    requires 8 in procs' && procs' == procs[5 := SchedLooping([], false, None)][8 := procs'[8]]
    ensures procs' - {8} == map[3 := SchedLooping([row], false, None), 5 := SchedLooping([], false, None)]
  {
  }

  /**
   Find and SetNX as one step: a pass that found the row before its key expired wins SetNX afterwards and
   has it sent again, although the row is COMPLETED by then.
   */
  lemma StaleFindSendsTwice(c: Config, s: State, id: Id, req: Request) returns (t: Trace)
    requires Initial(s) && Deliverable(c, id, req) && InFuture(req, s.clock) && DedupTTL(c) > 0
    ensures SendsTwice(c, s, t, id, {12}, {}) && |t.ls| > 12 && t.ls[12] == Move(3, SetNX)
    ensures id in t.ss[12].recs && t.ss[12].recs[id].row.status == Completed
  {
    hide Enabled, Apply, Benign, KeptBut, Refused, Validated, NewRow, Transit, Rebuilt, DueScheduled, DedupTTL;
    hide DedupKey, MarshalableParams;
    var row := NewRow(c, req, id);
    ScheduledNotRefused(c, id, req);
    var t1, v1 := FoundTwice(c, s, id, req);
    var v2 := Solo.TickStep(c, t1.Last(), id, v1, v1.clock + DedupTTL(c));
    var t2 := Then(c, s, t1, id, v1, {}, {}, Tick(v1.clock + DedupTTL(c)), v2);
    assert t2.ss[12].recs[id] == v2.rec;
    hide Shows;
    Excuse(c, s, t2, id, v2, {}, {}, 12, 0);
    assert {} + {12} == {12};
    var t3, v3 := WinsAndPublishes(c, s, t2, id, v2, {12}, {}, 3, row);
    var t4, v4 := SendAccepted(c, s, t3, id, v3, {12}, {}, 13);
    t := t4;
    Twice(c, s, t, id, v4, {12}, {});
  }

  lemma PastIsDue(c: Config, id: Id, req: Request, now: Time)
    requires req.scheduledAt.Some? && ZERO_TIME < req.scheduledAt.value <= now
    ensures DueScheduled(NewRow(c, req, id), now) && !InFuture(req, now)
  {
  }

  /** EnqueueNotification publishes a request whose time has passed. */
  lemma PublishedPast(c: Config, s: State, id: Id, req: Request) returns (t: Trace, v: View)
    requires Initial(s) && Deliverable(c, id, req)
    requires req.scheduledAt.Some? && ZERO_TIME < req.scheduledAt.value <= s.clock
    ensures So(c, s, t, id, v, {1}, {}) && |t.ls| == 3 && t.ls[1] == Move(0, Check) && Unclaimed(v) && InTime(v, {})
    ensures v.clock == s.clock && v.rec.row == NewRow(c, req, id) && Sends(v.rec) == 0 && v.keys == map[] && v.next == 3
    ensures v.procs == map[0 := SendQueued(id, Transit(req, id), None)]
  {
    hide Enabled, Apply, Benign, Shows, KeptBut, Refused, Validated, NewRow, Transit, MarshalableParams;
    PastIsDue(c, id, req, s.clock);
    hide InFuture;
    var t1, v1 := Created(c, s, id, req);
    Excuse(c, s, t1, id, v1, {}, {}, 1, 0);
    assert {} + {1} == {1};
    var v2 := Solo.CheckStep(c, t1.Last(), id, v1, 0, req);
    var t2 := Then(c, s, t1, id, v1, {1}, {}, Move(0, Check), v2);
    v := Solo.PublishStep(c, t2.Last(), id, v2, 0, req);
    t := Then(c, s, t2, id, v2, {1}, {}, Move(0, PublishNow), v);
  }

  /** A scheduled_at unset or still to come: one that is past is published at once and again by the scheduler. */
  lemma PastScheduleSendsTwice(c: Config, s: State, id: Id, req: Request) returns (t: Trace)
    requires Initial(s) && Deliverable(c, id, req) && DedupTTL(c) >= 0
    requires req.scheduledAt.Some? && ZERO_TIME < req.scheduledAt.value <= s.clock
    ensures SendsTwice(c, s, t, id, {1}, {}) && |t.ls| > 1 && t.ls[1] == Move(0, Check)
  {
    hide Shows, KeptBut, Refused, Validated, NewRow, Transit, Rebuilt, DedupTTL, DedupKey, MarshalableParams, DueScheduled;
    var row := NewRow(c, req, id);
    PastIsDue(c, id, req, s.clock);
    ScheduledNotRefused(c, id, req);
    var t1, v1 := PublishedPast(c, s, id, req);
    var t2, v2 := Finds(c, s, t1, id, v1, {1}, {});
    var t3, v3 := WinsAndPublishes(c, s, t2, id, v2, {1}, {}, 3, row);
    var t4, v4 := SendAccepted(c, s, t3, id, v3, {1}, {}, 0);
    var t5, v5 := SendAccepted(c, s, t4, id, v4, {1}, {}, 6);
    t := t5;
    Twice(c, s, t, id, v5, {1}, {});
  }
}
