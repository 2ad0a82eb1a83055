/**
 COMPLETED and FAILED are not absorbing by themselves: which steps leave them, and exactly which
 configurations have runs that do.
 */
module Settled {
  import opened Wrappers
  import opened Model
  import opened Backoff
  import opened Aggregate
  import opened Delivery
  import opened Rows
  import opened Histories
  import opened Protocol
  import opened Invariants
  import opened Failures
  import opened Drain
  import opened AtMostOnce
  import opened Solo
  import opened Phases

  // ---- single steps ----------------------------------------------------

  /** What a move makes of a settled row. */
  lemma SettledEvent(c: Config, s: State, x: Proc, a: Act, id: Id)
    requires CanMove(c, s, x, a) && id in s.recs && s.recs[id].row.status != Pending
    ensures var row, row' := s.recs[id].row, RecMoved(c, s, x, a, id).row;
            && row'.status != Pending
            && (row.status == Completed ==>
                  (row'.status == Failed <==>
                   a.Write? && x.id == id && !x.ok && row.maxAttempts <= row.attemptCount + 1 <= INT4_MAX))
            && (row.status == Failed ==> (row'.status == Completed <==> a.Write? && x.id == id && x.ok))
  {
  }

  /**
   A COMPLETED row turns FAILED at a step if and only if that step writes a failed send of it whose
   attempt, counted on the row, reaches max_attempts; otherwise it stays COMPLETED.
   */
  lemma CompletedMayFail(c: Config, ss: seq<State>, ls: seq<Label>, i: nat, id: Id)
    requires IsRun(c, ss, ls) && i < |ls| && id in ss[i].recs && ss[i].recs[id].row.status == Completed
    ensures id in ss[i + 1].recs && ss[i + 1].recs[id].row.status != Pending
    ensures ss[i + 1].recs[id].row.status == Failed <==>
            && ls[i].Move? && ls[i].a.Write? && ss[i].procs[ls[i].p].id == id && !ss[i].procs[ls[i].p].ok
            && ss[i].recs[id].row.maxAttempts <= ss[i].recs[id].row.attemptCount + 1 <= INT4_MAX
  {
    hide RecOk, FromRequest, ProcOk, Exclusive, CanMove, MoveEvent, RowAfter, KeysAfter, ProcsAfter, MailAfter;
    InvAlways(c, ss, ls, i);
    OneRowStep(c, ss[i], ls[i], id);
    if ls[i].Move? {
      SettledEvent(c, ss[i], ss[i].procs[ls[i].p], ls[i].a, id);
    }
  }

  /** A FAILED row turns COMPLETED at a step if and only if that step writes an accepted send of it. */
  lemma FailedMayComplete(c: Config, ss: seq<State>, ls: seq<Label>, i: nat, id: Id)
    requires IsRun(c, ss, ls) && i < |ls| && id in ss[i].recs && ss[i].recs[id].row.status == Failed
    ensures id in ss[i + 1].recs && ss[i + 1].recs[id].row.status != Pending
    ensures ss[i + 1].recs[id].row.status == Completed <==>
            ls[i].Move? && ls[i].a.Write? && ss[i].procs[ls[i].p].id == id && ss[i].procs[ls[i].p].ok
  {
    hide RecOk, FromRequest, ProcOk, Exclusive, CanMove, MoveEvent, RowAfter, KeysAfter, ProcsAfter, MailAfter;
    InvAlways(c, ss, ls, i);
    OneRowStep(c, ss[i], ls[i], id);
    if ls[i].Move? {
      SettledEvent(c, ss[i], ss[i].procs[ls[i].p], ls[i].a, id);
    }
  }

  // ---- which configurations --------------------------------------------

  /** From the given time on a row can become FAILED at all. */
  predicate CanFail(c: Config, clock: Time) {
    RowMaxAttempts(c) <= 2 || RecordsFailures(c, clock)
  }

  /** Such rows stay two attempts short of failing. */
  ghost predicate Short(c: Config, s: State) {
    forall id | id in s.recs ::
      && s.recs[id].row.attemptCount <= RowMaxAttempts(c) - 2 && s.recs[id].row.status != Failed
      && RowMaxAttempts(c) <= INT4_MAX
  }

  lemma ShortEvent(c: Config, clock: Time, row: Notification, e: Event, from: Time)
    requires !RecordsFailures(c, from) && from <= clock && 3 <= RowMaxAttempts(c) <= INT4_MAX
    requires EventOk(c, row, clock, e) && row.maxAttempts == RowMaxAttempts(c)
    requires row.attemptCount <= row.maxAttempts - 2 && row.status != Failed
    ensures RowAfter(c, row, e).attemptCount <= row.maxAttempts - 2 && RowAfter(c, row, e).status != Failed
  {
    hide RecordsFailures, SqlRetryAt, BackoffParams, RepoClamp;
    if e.kind == FailureRecorded && row.attemptCount == row.maxAttempts - 2 {
      UnrecordedBeforeLast(c, row, from, e.at);
    }
  }

  lemma ShortStep(c: Config, s: State, l: Label, from: Time)
    requires Inv(c, s) && Enabled(c, s, l) && Short(c, s) && !RecordsFailures(c, from) && from <= s.clock
    requires RowMaxAttempts(c) >= 3
    ensures Short(c, Apply(c, s, l))
  {
    hide RecOk, FromRequest, ProcOk, Exclusive, CanMove, MoveEvent, RowAfter, EventOk, RecordsFailures;
    hide KeysAfter, ProcsAfter, MailAfter;
    var s' := Apply(c, s, l);
    forall id | id in s'.recs
      ensures s'.recs[id].row.attemptCount <= RowMaxAttempts(c) - 2 && s'.recs[id].row.status != Failed
      ensures RowMaxAttempts(c) <= INT4_MAX
    {
      if id in s.recs && l.Move? {
        MaxOf(c, s, id);
        EventAllowed(c, s, s.procs[l.p], l.a, id);
        var e := EventOf(c, s, l, id);
        if e.Some? {
          ShortEvent(c, s.clock, s.recs[id].row, e.value, from);
        }
      }
    }
  }

  /** Otherwise no row is ever FAILED, redelivery included. */
  lemma {:induction false} NeverFailed(c: Config, ss: seq<State>, ls: seq<Label>, i: nat)
    requires IsRun(c, ss, ls) && i <= |ls| && !CanFail(c, ss[0].clock)
    ensures Short(c, ss[i])
  {
    hide Inv, Enabled, Apply, Short, RecordsFailures;
    if i > 0 {
      NeverFailed(c, ss, ls, i - 1);
      InvAlways(c, ss, ls, i - 1);
      GrowsBetween(c, ss, ls, 0, i - 1);
      ShortStep(c, ss[i - 1], ls[i - 1], ss[0].clock);
    } else {
      NoRows(c, ss[0]);
    }
  }

  lemma NoRows(c: Config, s: State)
    requires Initial(s)
    ensures Short(c, s)
  {
  }

  // ---- runs ------------------------------------------------------------

  /** What a failed send does to a COMPLETED row. */
  lemma SettledFailure(c: Config, row: Notification, at: Time)
    requires row.status == Completed && row.maxAttempts == RowMaxAttempts(c) && CanFail(c, at)
    requires 1 <= row.attemptCount && (row.attemptCount < row.maxAttempts <= INT4_MAX || row.attemptCount == 1)
    ensures var r := FailureResult(c, row, at);
            && r.Some? && r.value.attemptCount == row.attemptCount + 1 && r.value.maxAttempts == row.maxAttempts
            && r.value.status == if row.attemptCount + 1 >= row.maxAttempts then Failed else Completed
  {
    hide SqlRetryAt, BackoffParams, RepoClamp;
    if row.attemptCount + 1 < row.maxAttempts {
      Recorded(c, row, at);
    }
    hide RecordsFailures;
  }

  lemma {:induction false} FailsUntilFailed(c: Config, s: State, t0: Trace, id: Id, v0: View, bad0: set<nat>, q: nat)
    returns (t: Trace, v: View, bad: set<nat>)
    requires So(c, s, t0, id, v0, bad0, {}) && InTime(v0, {}) && Unclaimed(v0) && CanFail(c, v0.clock)
    requires q in v0.procs && v0.procs[q].SendQueued? && v0.procs[q].id == id && v0.procs[q].until == None
    requires v0.rec.row.status == Completed && v0.rec.row.maxAttempts == RowMaxAttempts(c)
    requires var a := v0.rec.row.attemptCount; 1 <= a && (a < v0.rec.row.maxAttempts || a == 1)
    requires RowMaxAttempts(c) <= INT4_MAX
    ensures So(c, s, t, id, v, bad, {}) && t0.ss <= t.ss && v.rec.row.status == Failed && InTime(v, {}) && Unclaimed(v)
    ensures v.procs == v0.procs && v.clock == v0.clock
    decreases v0.rec.row.maxAttempts - v0.rec.row.attemptCount
  {
    hide Shows, KeptBut, FailureResult, CanFail;
    SettledFailure(c, v0.rec.row, v0.clock);
    Excuse(c, s, t0, id, v0, bad0, {}, |t0.ls|, 0);
    bad := bad0 + {|t0.ls|};
    t, v := FailsAgain(c, s, t0, id, v0, bad, q);
    if v.rec.row.status == Completed {
      var t1 := t;
      t, v, bad := FailsUntilFailed(c, s, t1, id, v, bad, q);
    }
  }

  lemma NewRowMax(c: Config, id: Id, req: Request)
    ensures NewRow(c, req, id).maxAttempts == RowMaxAttempts(c)
  {
  }

  lemma IsA(c: Config, s: State, t: Trace, id: Id, v: View, bad: set<nat>)
    requires So(c, s, t, id, v, bad, {})
    ensures IsPath(c, t.ss, t.ls) && t.ss[0] == s && id in t.Last().recs && t.Last().recs[id] == v.rec
  {
    hide Enabled, Apply, Benign;
  }

  /** In run t from s the row of id has the first status after i steps and the second after j. */
  ghost predicate Turns(c: Config, s: State, t: Trace, id: Id, i: nat, j: nat, first: Status, second: Status) {
    && IsRun(c, t.ss, t.ls) && t.ss[0] == s && i < j <= |t.ls|
    && id in t.ss[i].recs && t.ss[i].recs[id].row.status == first
    && id in t.ss[j].recs && t.ss[j].recs[id].row.status == second
  }

  /** COMPLETED, with a redelivered copy of the message, process 3, still on the queue. */
  lemma CompletedWithCopy(c: Config, s: State, id: Id, req: Request) returns (t: Trace, v: View)
    requires Initial(s) && Deliverable(c, id, req) && req.scheduledAt.None?
    ensures So(c, s, t, id, v, {3}, {}) && InTime(v, {}) && Unclaimed(v) && v.clock == s.clock
    ensures v.procs == map[3 := SendQueued(id, Transit(req, id), None)]
    ensures v.rec.row.status == Completed && v.rec.row.attemptCount == 1 && v.rec.row.maxAttempts == RowMaxAttempts(c)
  {
    hide Enabled, Apply, Benign, Shows, KeptBut, Refused, Validated, NewRow, Transit;
    var t1, v1 := Enqueued(c, s, id, req);
    Excuse(c, s, t1, id, v1, {}, {}, 3, 0);
    assert {} + {3} == {3};
    var v2 := RedeliverStep(c, t1.Last(), id, v1, 0);
    var t2 := Then(c, s, t1, id, v1, {3}, {}, Move(0, Redeliver), v2);
    var t3, v3 := SendAccepted(c, s, t2, id, v2, {3}, {}, 0);
    t, v := Completes(c, s, t3, id, v3, {3}, {}, 0);
    NewRowMax(c, id, req);
  }

  /** With redelivery: COMPLETED by one consumer, FAILED by others, and COMPLETED once more. */
  lemma BackAndForth(c: Config, s: State, id: Id, req: Request) returns (t: Trace, i: nat, j: nat)
    requires Initial(s) && Deliverable(c, id, req) && req.scheduledAt.None? && CanFail(c, s.clock)
    ensures Turns(c, s, t, id, i, j, Completed, Failed)
    ensures Turns(c, s, t, id, j, |t.ls|, Failed, Completed)
  {
    hide Enabled, Apply, Benign, Shows, KeptBut, Refused, Validated, NewRow, Transit, CanFail;
    var t1, v1 := CompletedWithCopy(c, s, id, req);
    var t2, v2, bad := FailsUntilFailed(c, s, t1, id, v1, {3}, 3);
    var t3, v3 := SendAccepted(c, s, t2, id, v2, bad, {}, 3);
    var t4, v4 := Completes(c, s, t3, id, v3, bad, {}, 3);
    t, i, j := t4, |t1.ls|, |t2.ls|;
    IsA(c, s, t1, id, v1, {3});
    IsA(c, s, t2, id, v2, bad);
    IsA(c, s, t4, id, v4, bad);
    assert t.ss[i] == t1.Last() && t.ss[j] == t2.Last();
    assert t1.Last().recs[id].row.status != t2.Last().recs[id].row.status;
  }

  /**
   The configurations and clocks from which a COMPLETED row can become FAILED, exactly: at most two attempts,
   or every failure recorded. They are also exactly those from which a FAILED row can become COMPLETED.
   */
  lemma TurnsExactly(c: Config, s: State, id: Id, req: Request)
    requires Initial(s) && Deliverable(c, id, req) && req.scheduledAt.None?
    ensures (exists t: Trace, i, j :: Turns(c, s, t, id, i, j, Completed, Failed)) <==> CanFail(c, s.clock)
    ensures (exists t: Trace, i, j :: Turns(c, s, t, id, i, j, Failed, Completed)) <==> CanFail(c, s.clock)
  {
    hide Enabled, Apply, Refused, Validated, CanFail;
    if CanFail(c, s.clock) {
      var t, i, j := BackAndForth(c, s, id, req);
      assert Turns(c, s, t, id, i, j, Completed, Failed) && Turns(c, s, t, id, j, |t.ls|, Failed, Completed);
    } else {
      forall t: Trace, i, j
        ensures !Turns(c, s, t, id, i, j, Completed, Failed) && !Turns(c, s, t, id, i, j, Failed, Completed)
      {
        if Turns(c, s, t, id, i, j, Completed, Failed) {
          NeverFailed(c, t.ss, t.ls, j);
        }
        if Turns(c, s, t, id, i, j, Failed, Completed) {
          NeverFailed(c, t.ss, t.ls, i);
        }
      }
    }
  }
}
