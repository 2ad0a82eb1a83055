/** What one pass, or one message, does in a system with one notification and nothing else going on. */
module Phases {
  import opened Wrappers
  import opened Json
  import opened Model
  import opened Backoff
  import opened Aggregate
  import opened Delivery
  import opened Cache
  import opened Rows
  import opened Histories
  import opened Protocol
  import opened Failures
  import opened AtMostOnce
  import opened Solo
  import opened Text

  /** A request EnqueueNotification takes and SendNotification does not refuse. */
  predicate Deliverable(c: Config, id: Id, req: Request) {
    && id != "" && InInt4(RowMaxAttempts(c)) && Validated(req) && MarshalableParams(req.params)
    && !Refused(Transit(req, id), true)
  }

  lemma RefusedReads(a: Request, b: Request, rowExists: bool)
    requires Delivered(a) == Delivered(b)
    ensures Refused(a, rowExists) == Refused(b, rowExists)
  {
    hide NonBlank, HasEmailTemplate, HasSmsTemplate;
    assert a.channel == Delivered(a).channel && b.channel == Delivered(b).channel;
    assert a.kind == Delivered(a).kind && b.kind == Delivered(b).kind;
    assert a.title == Delivered(a).title && b.title == Delivered(b).title;
    assert a.message == Delivered(a).message && b.message == Delivered(b).message;
    assert a.recipients == Delivered(a).recipients && b.recipients == Delivered(b).recipients;
    assert a.notificationID == Delivered(a).notificationID && b.notificationID == Delivered(b).notificationID;
  }

  /** What later deliveries of a row rebuild is marshalable and not refused either. */
  lemma StillDeliverable(c: Config, id: Id, req: Request, row: Notification)
    requires Deliverable(c, id, req) && SameBody(row, NewRow(c, req, id))
    ensures !Refused(Rebuilt(row), true) && MarshalableParams(Rebuilt(row).params)
    ensures Transit(Rebuilt(row), id) == Rebuilt(row)
  {
    hide Refused, Rebuilt, Transit, Validated, NewRow, Delivered;
    RowRoundTrip(c, req, id, row);
    PathsAgree(c, req, id, row);
    RefusedReads(Transit(req, id), Rebuilt(row), true);
  }

  /** EnqueueNotification of an unscheduled request. */
  lemma Enqueued(c: Config, s: State, id: Id, req: Request) returns (t: Trace, v: View)
    requires Initial(s) && Deliverable(c, id, req) && req.scheduledAt.None?
    ensures So(c, s, t, id, v, {}, {}) && t.ls == [Create(id, req), Move(0, Check), Move(0, PublishNow)]
    ensures v.clock == s.clock && v.rec.row == NewRow(c, req, id) && Sends(v.rec) == 0 && v.keys == map[]
    ensures v.procs == map[0 := SendQueued(id, Transit(req, id), None)] && v.next == 3
  {
    hide Enabled, Apply, Shows, KeptBut, Benign, NewRow, Transit, Refused, Validated;
    t, v := Created(c, s, id, req);
    var v1 := CheckStep(c, t.Last(), id, v, 0, req);
    t := Then(c, s, t, id, v, {}, {}, Move(0, Check), v1);
    v := PublishStep(c, t.Last(), id, v1, 0, req);
    t := Then(c, s, t, id, v1, {}, {}, Move(0, PublishNow), v);
  }

  lemma Created(c: Config, s: State, id: Id, req: Request) returns (t: Trace, v: View)
    requires Initial(s) && Deliverable(c, id, req)
    ensures So(c, s, t, id, v, {}, {}) && t.ls == [Create(id, req)] && |t.ss| == 2
    ensures v.clock == s.clock && v.rec.row == NewRow(c, req, id) && Sends(v.rec) == 0 && v.keys == map[]
    ensures v.procs == map[0 := EnqChecking(id, req)] && v.next == 1
  {
    hide Enabled, Apply, Shows, NewRow, Transit, Refused, Validated;
    v := CreateStep(c, s, id, req);
    var s1 := Apply(c, s, Create(id, req));
    t := Trace([s, s1], [Create(id, req)]);
    ShowsProcs(s1, id, v);
  }

  lemma ShowsProcs(s: State, id: Id, v: View)
    requires Shows(s, id, v)
    ensures s.procs == v.procs && s.clock == v.clock
  {
  }

  // ---- phases ----------------------------------------------------------

  /** A consumer with the request in hand reports a failure, and the database records it. */
  lemma Fails(c: Config, s: State, t0: Trace, id: Id, v0: View, q: nat) returns (t: Trace, v: View)
    requires So(c, s, t0, id, v0, {}, {}) && InTime(v0, {}) && Unclaimed(v0)
    requires q in v0.procs && (v0.procs[q].SendQueued? || v0.procs[q].RetryReady?) && v0.procs[q].id == id
    requires FailureResult(c, v0.rec.row, v0.clock).Some?
    ensures So(c, s, t, id, v, {}, {}) && t0.ss <= t.ss && t.ls == t0.ls + [Move(q, Send(false)), Move(q, Write)]
    ensures v == v0.(rec := v.rec, procs := v0.procs - {q}, next := v0.next + 2)
    ensures v.rec.row == FailureResult(c, v0.rec.row, v0.clock).value && Sends(v.rec) == Sends(v0.rec)
  {
    hide Enabled, Apply, Shows, KeptBut, Benign, FailureResult, Refused, WriteEvent, RowAfter;
    var v1 := Solo.SendStep(c, t0.Last(), id, v0, q, false);
    WritesFailure(c, v1.rec.row, v1.clock, v1.procs[q]);
    var t1 := Then(c, s, t0, id, v0, {}, {}, Move(q, Send(false)), v1);
    v := Solo.WriteStep(c, t1.Last(), id, v1, q);
    t := Then(c, s, t1, id, v1, {}, {}, Move(q, Write), v);
    assert v1.procs - {q} == v0.procs - {q};
  }

  lemma WritesFailure(c: Config, row: Notification, clock: Time, x: Proc)
    requires x.Done? && !x.ok && FailureResult(c, row, clock).Some?
    ensures WriteEvent(c, row, clock, x).Some?
    ensures RowAfter(c, row, WriteEvent(c, row, clock, x).value) == FailureResult(c, row, clock).value
  {
    hide FailureResult;
  }

  /** The send-queue consumer of message q records a first failure. */
  lemma FirstFailure(c: Config, s: State, t0: Trace, id: Id, v0: View, q: nat)
    returns (t: Trace, v: View)
    requires So(c, s, t0, id, v0, {}, {}) && InTime(v0, {}) && Unclaimed(v0)
    requires q in v0.procs && v0.procs[q].SendQueued? && v0.procs[q].id == id
    requires v0.rec.row.status == Pending && v0.rec.row.attemptCount == 0 && v0.rec.row.maxAttempts == RowMaxAttempts(c)
    requires FirstRecorded(c, v0.clock) && RowMaxAttempts(c) >= 2
    ensures So(c, s, t, id, v, {}, {}) && t0.ss <= t.ss && t.ls == t0.ls + [Move(q, Send(false)), Move(q, Write)]
    ensures v == v0.(rec := v.rec, procs := v0.procs - {q}, next := v0.next + 2)
    ensures v.rec.row == v0.rec.row.(attemptCount := 1, nextRetryAt := Some(v0.clock + Delay(c, 0)))
    ensures Sends(v.rec) == Sends(v0.rec)
  {
    hide Shows, KeptBut, FailureResult, FirstRecorded, Delay;
    FirstRecordedIs(c, v0.rec.row, v0.clock);
    FailureDelay(c, v0.rec.row, v0.clock);
    t, v := Fails(c, s, t0, id, v0, q);
  }

  /** The labels of a claim of the only row. */
  function SoloClaim(id: Id, at: Time, n: nat): seq<Label> {
    [Tick(at), StartClaim(1), Move(n + 1, Lock([id])), Move(n + 1, Commit), Move(n + 1, PublishRetry)]
  }

  /** A claim pass at time at, up to the answer of its query. */
  lemma Locks(c: Config, s: State, t0: Trace, id: Id, v0: View, bad: set<nat>, late: set<nat>, at: Time)
    returns (t: Trace, v: View)
    requires So(c, s, t0, id, v0, bad, late) && Unclaimed(v0) && at >= v0.clock && InTime(v0.(clock := at), late)
    requires DueForRetry(v0.rec.row, at)
    ensures So(c, s, t, id, v, bad, late) && t0.ss <= t.ss && t.ls == t0.ls + SoloClaim(id, at, v0.next)[..3]
    ensures v == v0.(clock := at, next := v0.next + 3, procs := v0.procs[v0.next + 1 := ClaimOpen(at, 1, [id])])
    ensures InTime(v, late)
  {
    hide Enabled, Apply, Shows, KeptBut, Benign, DueForRetry;
    var p := v0.next + 1;
    var v1 := Solo.TickStep(c, t0.Last(), id, v0, at);
    var t1 := Then(c, s, t0, id, v0, bad, late, Tick(at), v1);
    var v2 := Solo.StartClaimStep(c, t1.Last(), id, v1, 1);
    var t2 := Then(c, s, t1, id, v1, bad, late, StartClaim(1), v2);
    v := Solo.LockStep(c, t2.Last(), id, v2, p, 1, at);
    t := Then(c, s, t2, id, v2, bad, late, Move(p, Lock([id])), v);
    assert v.procs == v0.procs[p := ClaimOpen(at, 1, [id])];
  }

  /** A claim pass at time at that takes the row and publishes its message, which becomes process v0.next + 4. */
  lemma Claims(c: Config, s: State, t0: Trace, id: Id, v0: View, bad: set<nat>, late: set<nat>, at: Time)
    returns (t: Trace, v: View)
    requires So(c, s, t0, id, v0, bad, late) && Unclaimed(v0) && at >= v0.clock && InTime(v0.(clock := at), late)
    requires DueForRetry(v0.rec.row, at) && PublishLease(c) > 0 && LeaseFits(c, at)
    ensures So(c, s, t, id, v, bad, late) && t0.ss <= t.ss && t.ls == t0.ls + SoloClaim(id, at, v0.next)
    ensures var until := Some(at + PublishLease(c));
            && v == v0.(clock := at, rec := v.rec, next := v0.next + 5,
                        procs := v0.procs[v0.next + 1 := ClaimPublishing(until, [])][v0.next + 4 := RetryQueued(id, until)])
            && v.rec.row == v0.rec.row.(nextRetryAt := until) && Sends(v.rec) == Sends(v0.rec)
    ensures InTime(v, late) && Unclaimed(v)
  {
    hide Enabled, Apply, Shows, KeptBut, Benign, PublishLease, DueForRetry;
    var p := v0.next + 1;
    var until := Some(at + PublishLease(c));
    var t3, v3 := Locks(c, s, t0, id, v0, bad, late, at);
    t, v := Leases(c, s, t3, id, v3, bad, late, p, at);
    assert v.procs == v0.procs[p := ClaimPublishing(until, [])][v0.next + 4 := RetryQueued(id, until)];
  }

  /** The open claim p commits and its message is published. */
  lemma Leases(c: Config, s: State, t0: Trace, id: Id, v0: View, bad: set<nat>, late: set<nat>, p: nat, at: Time)
    returns (t: Trace, v: View)
    requires So(c, s, t0, id, v0, bad, late) && v0.clock == at && InTime(v0, late)
    requires p in v0.procs && v0.procs[p] == ClaimOpen(at, 1, [id]) && PublishLease(c) > 0 && LeaseFits(c, at)
    ensures So(c, s, t, id, v, bad, late) && t0.ss <= t.ss && t.ls == t0.ls + [Move(p, Commit), Move(p, PublishRetry)]
    ensures var until := Some(at + PublishLease(c));
            && v == v0.(rec := v.rec, next := v0.next + 2,
                        procs := v0.procs[p := ClaimPublishing(until, [])][v0.next + 1 := RetryQueued(id, until)])
            && v.rec.row == v0.rec.row.(nextRetryAt := until) && Sends(v.rec) == Sends(v0.rec)
    ensures InTime(v, late)
  {
    hide Enabled, Apply, Shows, KeptBut, Benign, PublishLease;
    var until := Some(at + PublishLease(c));
    var v1 := Solo.CommitStep(c, t0.Last(), id, v0, p, 1, at);
    var t1 := Then(c, s, t0, id, v0, bad, late, Move(p, Commit), v1);
    v := Solo.PublishRetryStep(c, t1.Last(), id, v1, p, until);
    t := Then(c, s, t1, id, v1, bad, late, Move(p, PublishRetry), v);
    assert v.procs == v0.procs[p := ClaimPublishing(until, [])][v0.next + 1 := RetryQueued(id, until)];
  }

  /** The retry consumer of message q loads the row and has its send accepted. */
  lemma RetryAccepted(c: Config, s: State, t0: Trace, id: Id, v0: View, bad: set<nat>, late: set<nat>, q: nat)
    returns (t: Trace, v: View)
    requires So(c, s, t0, id, v0, bad, late) && InTime(v0, late)
    requires q in v0.procs && v0.procs[q].RetryQueued? && v0.procs[q].id == id
    requires RetryGuard(v0.rec.row) && !Refused(Rebuilt(v0.rec.row), true)
    ensures So(c, s, t, id, v, bad, late) && t0.ss <= t.ss && t.ls == t0.ls + [Move(q, ReadRow), Move(q, Send(true))]
    ensures v == v0.(rec := v.rec, next := v0.next + 2,
                     procs := v0.procs[q := Done(id, false, true, v0.clock, v0.procs[q].until)])
    ensures v.rec.row == v0.rec.row && Sends(v.rec) == Sends(v0.rec) + 1 && InTime(v, late)
    ensures Unclaimed(v0) ==> Unclaimed(v)
  {
    hide Enabled, Apply, Shows, KeptBut, Benign, Rebuilt, Refused;
    var v1 := Solo.ReadStep(c, t0.Last(), id, v0, q, v0.procs[q].until);
    var t1 := Then(c, s, t0, id, v0, bad, late, Move(q, ReadRow), v1);
    v := Solo.SendStep(c, t1.Last(), id, v1, q, true);
    t := Then(c, s, t1, id, v1, bad, late, Move(q, Send(true)), v);
  }

  /** Create, then the check that defers, then the clock reaching scheduled_at. */
  lemma Waited(c: Config, s: State, id: Id, req: Request) returns (t: Trace, v: View)
    requires Initial(s) && Deliverable(c, id, req) && InFuture(req, s.clock)
    ensures var at := req.scheduledAt.value;
            && So(c, s, t, id, v, {}, {}) && t.ls == [Create(id, req), Move(0, Check), Tick(at)]
            && v.clock == at && v.rec.row == NewRow(c, req, id) && Sends(v.rec) == 0 && v.keys == map[]
            && v.procs == map[] && v.next == 3
  {
    hide Enabled, Apply, Shows, KeptBut, Benign, NewRow, Refused, Validated, Transit;
    var t0, v0 := Created(c, s, id, req);
    var v1 := DeferStep(c, t0.Last(), id, v0, 0, req);
    var t1 := Then(c, s, t0, id, v0, {}, {}, Move(0, Check), v1);
    v := Solo.TickStep(c, t1.Last(), id, v1, req.scheduledAt.value);
    t := Then(c, s, t1, id, v1, {}, {}, Tick(req.scheduledAt.value), v);
  }

  /** A scheduled pass up to its query's answer. */
  lemma Finds(c: Config, s: State, t0: Trace, id: Id, v0: View, bad: set<nat>, late: set<nat>)
    returns (t: Trace, v: View)
    requires So(c, s, t0, id, v0, bad, late) && InTime(v0, late) && DueScheduled(v0.rec.row, v0.clock)
    ensures So(c, s, t, id, v, bad, late) && t0.ss <= t.ss
    ensures t.ls == t0.ls + [StartScheduled(1), Move(v0.next, Find([v0.rec.row]))]
    ensures v == v0.(procs := v0.procs[v0.next := SchedLooping([v0.rec.row], false, None)], next := v0.next + 2)
    ensures InTime(v, late) && (Unclaimed(v0) ==> Unclaimed(v))
  {
    hide Enabled, Apply, Shows, KeptBut, Benign, DueScheduled;
    var v1 := StartScheduledStep(c, t0.Last(), id, v0, 1);
    var t1 := Then(c, s, t0, id, v0, bad, late, StartScheduled(1), v1);
    v := Solo.FindStep(c, t1.Last(), id, v1, v0.next, 1, v0.clock);
    t := Then(c, s, t1, id, v1, bad, late, Move(v0.next, Find([v0.rec.row])), v);
  }

  /** The pass goes on: SetNX is won and the found row published, as process v0.next + 1. */
  lemma WinsAndPublishes(c: Config, s: State, t0: Trace, id: Id, v0: View, bad: set<nat>, late: set<nat>, p: nat,
                         row: Notification)
    returns (t: Trace, v: View)
    requires So(c, s, t0, id, v0, bad, late) && InTime(v0, late)
    requires p in v0.procs && v0.procs[p] == SchedLooping([row], false, None) && row.id == id
    requires DedupTTL(c) >= 0 && !Live(v0.keys, DedupKey(c, id), v0.clock) && MarshalableParams(Rebuilt(row).params)
    requires DueScheduled(v0.rec.row, v0.clock) || |t0.ls| in bad
    ensures So(c, s, t, id, v, bad, late) && t0.ss <= t.ss && t.ls == t0.ls + [Move(p, SetNX), Move(p, PublishScheduled)]
    ensures var until := Expiry(v0.clock, DedupTTL(c));
            v == v0.(rec := v.rec, keys := v0.keys[DedupKey(c, id) := until], next := v0.next + 2,
                     procs := v0.procs[p := SchedLooping([], false, None)]
                              [v0.next + 1 := SendQueued(id, Transit(Rebuilt(row), id), until)])
    ensures v.rec.row == v0.rec.row && Sends(v.rec) == Sends(v0.rec) && InTime(v, late)
    ensures Unclaimed(v0) ==> Unclaimed(v)
  {
    hide Enabled, Apply, Shows, KeptBut, Benign, DedupKey, DedupTTL, Live, Rebuilt, Transit, MarshalableParams, DueScheduled;
    var until := Expiry(v0.clock, DedupTTL(c));
    var v1 := WinStep(c, t0.Last(), id, v0, p, row);
    var t1 := Then(c, s, t0, id, v0, bad, late, Move(p, SetNX), v1);
    v := PublishScheduledStep(c, t1.Last(), id, v1, p, row, until);
    assert v.procs == v0.procs[p := SchedLooping([], false, None)]
                              [v0.next + 1 := SendQueued(id, Transit(Rebuilt(row), id), until)];
    t := Then(c, s, t1, id, v1, bad, late, Move(p, PublishScheduled), v);
  }

  /** The send-queue consumer of message q has its send accepted. */
  lemma SendAccepted(c: Config, s: State, t0: Trace, id: Id, v0: View, bad: set<nat>, late: set<nat>, q: nat)
    returns (t: Trace, v: View)
    requires So(c, s, t0, id, v0, bad, late) && InTime(v0, late)
    requires q in v0.procs && v0.procs[q].SendQueued? && v0.procs[q].id == id && !Refused(v0.procs[q].req, true)
    ensures So(c, s, t, id, v, bad, late) && t0.ss <= t.ss && t.ls == t0.ls + [Move(q, Send(true))]
    ensures v == v0.(rec := v.rec, next := v0.next + 1,
                     procs := v0.procs[q := Done(id, true, true, v0.clock, v0.procs[q].until)])
    ensures v.rec.row == v0.rec.row && Sends(v.rec) == Sends(v0.rec) + 1 && InTime(v, late)
    ensures Unclaimed(v0) ==> Unclaimed(v)
  {
    hide Enabled, Apply, Shows, KeptBut, Benign, Refused;
    v := Solo.SendStep(c, t0.Last(), id, v0, q, true);
    t := Then(c, s, t0, id, v0, bad, late, Move(q, Send(true)), v);
  }

  /** A consumer writes its success. */
  lemma Completes(c: Config, s: State, t0: Trace, id: Id, v0: View, bad: set<nat>, late: set<nat>, q: nat)
    returns (t: Trace, v: View)
    requires So(c, s, t0, id, v0, bad, late) && InTime(v0, late) && Unclaimed(v0)
    requires q in v0.procs && v0.procs[q].Done? && v0.procs[q].id == id && v0.procs[q].ok
    ensures So(c, s, t, id, v, bad, late) && t0.ss <= t.ss && t.ls == t0.ls + [Move(q, Write)]
    ensures v == v0.(rec := v.rec, procs := v0.procs - {q}, next := v0.next + 1)
    ensures v.rec.row == if v0.procs[q].first then FirstSuccess(v0.rec.row, v0.procs[q].at)
                         else RetrySuccess(v0.rec.row, v0.procs[q].at)
    ensures Sends(v.rec) == Sends(v0.rec) && InTime(v, late) && Unclaimed(v)
  {
    hide Enabled, Apply, Shows, KeptBut, Benign;
    v := Solo.WriteStep(c, t0.Last(), id, v0, q);
    t := Then(c, s, t0, id, v0, bad, late, Move(q, Write), v);
  }

  /** One more redelivery of message q, sent without success. */
  lemma FailsAgain(c: Config, s: State, t0: Trace, id: Id, v0: View, bad: set<nat>, q: nat) returns (t: Trace, v: View)
    requires So(c, s, t0, id, v0, bad, {}) && InTime(v0, {}) && Unclaimed(v0) && |t0.ls| in bad
    requires q in v0.procs && v0.procs[q].SendQueued? && v0.procs[q].id == id && v0.procs[q].until == None
    requires FailureResult(c, v0.rec.row, v0.clock).Some?
    ensures So(c, s, t, id, v, bad, {}) && t0.ss <= t.ss
    ensures v == v0.(rec := v.rec, next := v0.next + 3) && Sends(v.rec) == Sends(v0.rec)
    ensures v.rec.row == FailureResult(c, v0.rec.row, v0.clock).value
  {
    hide Enabled, Apply, Benign, KeptBut, Refused, FailureResult;
    var r := v0.next;
    ViewBelow(t0.Last(), id, v0);
    hide Shows;
    var v1 := RedeliverStep(c, t0.Last(), id, v0, q);
    var t1 := Then(c, s, t0, id, v0, bad, {}, Move(q, Redeliver), v1);
    var v2 := Solo.SendStep(c, t1.Last(), id, v1, r, false);
    var t2 := Then(c, s, t1, id, v1, bad, {}, Move(r, Send(false)), v2);
    v := Solo.WriteStep(c, t2.Last(), id, v2, r);
    t := Then(c, s, t2, id, v2, bad, {}, Move(r, Write), v);
    assert v.procs == v0.procs;
  }
}
