/** A pending row whose failure the database refuses: when that can happen, and that its attempt count then stays. */
module Stuck {
  import opened Wrappers
  import opened Model
  import opened Backoff
  import opened Aggregate
  import opened Delivery
  import opened Rows
  import opened Histories
  import opened Protocol
  import opened Invariants
  import opened RowTheorems
  import opened Failures
  import opened Drain
  import opened AtMostOnce
  import opened Solo
  import opened Phases

  // ---- a failure that is not recorded ----------------------------------

  /** Step i writes a failed send of a pending row, and nothing of it is recorded. */
  ghost predicate FailureLost(c: Config, ss: seq<State>, ls: seq<Label>, i: nat, id: Id)
    requires IsPath(c, ss, ls)
  {
    && i < |ls| && ls[i].Move? && ls[i].a.Write? && ss[i].procs[ls[i].p].id == id && !ss[i].procs[ls[i].p].ok
    && id in ss[i].recs && ss[i].recs[id].row.status == Pending
    && id in ss[i + 1].recs && ss[i + 1].recs[id] == ss[i].recs[id]
  }

  /** Below the condition no such write occurs in any run. */
  lemma NoFailureLost(c: Config, ss: seq<State>, ls: seq<Label>, i: nat, id: Id)
    requires IsRun(c, ss, ls) && i < |ls| && RecordsFailures(c, ss[i].clock)
    ensures !FailureLost(c, ss, ls, i, id)
  {
    hide Inv, RecordsFailures, RecsAfter, KeysAfter, ProcsAfter, MailAfter;
    if FailureLost(c, ss, ls, i, id) {
      InvAlways(c, ss, ls, i);
      WriteRecords(c, ss[i], ls[i].p);
      RecordedShows(c, ss[i], ls[i].p);
    }
  }

  lemma RecordedShows(c: Config, s: State, p: nat)
    requires Processes(c, s, Move(p, Write))
    ensures var id := s.procs[p].id; id in s.recs && id in Apply(c, s, Move(p, Write)).recs
    ensures var id := s.procs[p].id; |Apply(c, s, Move(p, Write)).recs[id].hist| == |s.recs[id].hist| + 1
  {
    hide FailureResult, RowAfter;
  }

  /** A failing send of message q whose failure the database refuses. */
  lemma LosesFailure(c: Config, s: State, t0: Trace, id: Id, v0: View, bad: set<nat>, q: nat) returns (t: Trace, v: View)
    requires So(c, s, t0, id, v0, bad, {}) && InTime(v0, {}) && Unclaimed(v0)
    requires q in v0.procs && (v0.procs[q].SendQueued? || v0.procs[q].RetryReady?) && v0.procs[q].id == id
    requires FailureResult(c, v0.rec.row, v0.clock).None? && v0.rec.row.status == Pending
    ensures So(c, s, t, id, v, bad, {}) && t0.ss <= t.ss && t.ls == t0.ls + [Move(q, Send(false)), Move(q, Write)]
    ensures v == v0.(procs := v0.procs - {q}, next := v0.next + 2, rec := v.rec)
    ensures v.rec.row == v0.rec.row && Sends(v.rec) == Sends(v0.rec) && InTime(v, {}) && Unclaimed(v)
    ensures FailureLost(c, t.ss, t.ls, |t0.ls| + 1, id)
  {
    hide Enabled, Apply, Benign, KeptBut, Shows, Refused, FailureResult;
    var v1 := Solo.SendStep(c, t0.Last(), id, v0, q, false);
    var t1 := Then(c, s, t0, id, v0, bad, {}, Move(q, Send(false)), v1);
    v := RefusedWriteStep(c, t1.Last(), id, v1, q);
    t := Then(c, s, t1, id, v1, bad, {}, Move(q, Write), v);
    assert v1.procs - {q} == v0.procs - {q};
    LostBetween(c, s, t1, t, id, v1, v, bad, q);
  }

  lemma LostBetween(c: Config, s: State, t1: Trace, t: Trace, id: Id, v1: View, v: View, bad: set<nat>, q: nat)
    requires So(c, s, t1, id, v1, bad, {}) && So(c, s, t, id, v, bad, {}) && t1.ss <= t.ss && t.ls == t1.ls + [Move(q, Write)]
    requires q in v1.procs && v1.procs[q].Done? && v1.procs[q].id == id && !v1.procs[q].ok
    requires v1.rec.row.status == Pending && v.rec == v1.rec
    ensures FailureLost(c, t.ss, t.ls, |t1.ls|, id)
  {
    hide Enabled, Apply, Benign, TimelyBut;
    assert t.ss[|t1.ls|] == t1.Last();
  }

  /** Failing over and over at one time ends in a failure that is not recorded. */
  lemma {:induction false} FailsUntilLost(c: Config, s: State, t0: Trace, id: Id, v0: View, bad0: set<nat>, q: nat)
    returns (t: Trace, v: View, bad: set<nat>, i: nat)
    requires So(c, s, t0, id, v0, bad0, {}) && InTime(v0, {}) && Unclaimed(v0) && !RecordsFailures(c, v0.clock)
    requires q in v0.procs && v0.procs[q].SendQueued? && v0.procs[q].id == id && v0.procs[q].until == None
    requires v0.rec.row.status == Pending && v0.rec.row.maxAttempts == RowMaxAttempts(c)
    requires 2 <= RowMaxAttempts(c) <= INT4_MAX && v0.rec.row.attemptCount <= RowMaxAttempts(c) - 2
    ensures So(c, s, t, id, v, bad, {}) && t0.ss <= t.ss && v.clock == v0.clock && i < |t.ls|
    ensures FailureLost(c, t.ss, t.ls, i, id)
    decreases RowMaxAttempts(c) - v0.rec.row.attemptCount
  {
    hide Shows, KeptBut, FailureResult, RecordsFailures;
    var row := v0.rec.row;
    if FailureResult(c, row, v0.clock).None? {
      t, v := LosesFailure(c, s, t0, id, v0, bad0, q);
      bad, i := bad0, |t0.ls| + 1;
    } else {
      if row.attemptCount == row.maxAttempts - 2 {
        UnrecordedBeforeLast(c, row, v0.clock, v0.clock);
      }
      FailureDelay(c, row, v0.clock);
      Excuse(c, s, t0, id, v0, bad0, {}, |t0.ls|, 0);
      var t1, v1 := FailsAgain(c, s, t0, id, v0, bad0 + {|t0.ls|}, q);
      t, v, bad, i := FailsUntilLost(c, s, t1, id, v1, bad0 + {|t0.ls|}, q);
    }
  }

  /** A run from s that is still at or before until when a failure is lost. */
  ghost predicate LosesBy(c: Config, s: State, t: Trace, i: nat, id: Id, until: Time) {
    && IsRun(c, t.ss, t.ls) && t.ss[0] == s && i < |t.ls| && t.ss[i].clock <= until
    && FailureLost(c, t.ss, t.ls, i, id)
  }

  /** Reachable, and exactly where the condition fails: some run up to a time loses a failure of a pending row. */
  lemma FailureLostExactly(c: Config, s: State, id: Id, req: Request, until: Time)
    requires Initial(s) && Deliverable(c, id, req) && req.scheduledAt.None? && RowMaxAttempts(c) >= 1 && until >= s.clock
    ensures (exists t: Trace, i: nat :: LosesBy(c, s, t, i, id, until)) <==> !RecordsFailures(c, until)
  {
    hide Enabled, Apply, Benign, Shows, KeptBut, Refused, Validated, NewRow, Transit, RecordsFailures;
    if RecordsFailures(c, until) {
      forall t: Trace, i: nat ensures !LosesBy(c, s, t, i, id, until) {
        if LosesBy(c, s, t, i, id, until) {
          RecordsEarlier(c, until, t.ss[i].clock);
          NoFailureLost(c, t.ss, t.ls, i, id);
        }
      }
    } else {
      var t, i := LosingRun(c, s, id, req, until);
      assert LosesBy(c, s, t, i, id, until);
    }
  }

  lemma AtLeastTwo(c: Config, until: Time)
    requires !RecordsFailures(c, until) && 1 <= RowMaxAttempts(c) <= INT4_MAX
    ensures RowMaxAttempts(c) >= 2
  {
  }

  lemma LosingRun(c: Config, s: State, id: Id, req: Request, until: Time) returns (t: Trace, i: nat)
    requires Initial(s) && Deliverable(c, id, req) && req.scheduledAt.None? && RowMaxAttempts(c) >= 1 && until >= s.clock
    requires !RecordsFailures(c, until)
    ensures LosesBy(c, s, t, i, id, until)
  {
    hide Enabled, Apply, Benign, Shows, KeptBut, Refused, Validated, NewRow, Transit, RecordsFailures;
    AtLeastTwo(c, until);
    NewRowIs(c, id, req);
    var t1, v1 := Enqueued(c, s, id, req);
    var v2 := Solo.TickStep(c, t1.Last(), id, v1, until);
    var t2 := Then(c, s, t1, id, v1, {}, {}, Tick(until), v2);
    var t3, v3, bad, k := FailsUntilLost(c, s, t2, id, v2, {}, 0);
    t, i := t3, k;
    LastClock(c, s, t, id, v3, bad, i);
  }

  lemma NewRowIs(c: Config, id: Id, req: Request)
    ensures var row := NewRow(c, req, id);
            row.maxAttempts == RowMaxAttempts(c) && row.status == Pending && row.attemptCount == 0 && row.id == id
  {
  }

  lemma LastClock(c: Config, s: State, t: Trace, id: Id, v: View, bad: set<nat>, i: nat)
    requires Initial(s) && So(c, s, t, id, v, bad, {}) && i <= |t.ls|
    ensures IsRun(c, t.ss, t.ls) && t.ss[0] == s && t.ss[i].clock <= v.clock
  {
    hide Enabled, Apply, Benign, TimelyBut;
    GrowsBetween(c, t.ss, t.ls, i, |t.ls|);
  }

  // ---- the attempt count stays -----------------------------------------

  /** Pending with a attempts and a failure the database refuses, or completed at some time since. */
  ghost predicate Refusing(c: Config, s: State, id: Id, a: nat) {
    && id in s.recs
    && var Rec(row, h) := s.recs[id];
       || (row.status == Pending && row.attemptCount == a && FailureResult(c, row, s.clock).None?)
       || Count(h, CompletedFirst) + Count(h, CompletedRetry) >= 1
  }

  lemma RefusedLater(c: Config, row: Notification, at: Time, later: Time)
    requires FailureResult(c, row, at).None? && at <= later
    ensures FailureResult(c, row, later).None?
  {
    hide SqlDelay, BackoffParams, RepoClamp;
  }

  lemma RefusedAlike(c: Config, a: Notification, b: Notification, at: Time)
    requires a.attemptCount == b.attemptCount && a.maxAttempts == b.maxAttempts
    ensures FailureResult(c, a, at).None? <==> FailureResult(c, b, at).None?
  {
    hide SqlDelay, BackoffParams, RepoClamp;
  }

  lemma RefusingEvent(c: Config, r: Rec, clock: Time, e: Event, a: nat)
    requires EventOk(c, r.row, clock, e) && r.row.status == Pending && r.row.attemptCount == a
    requires FailureResult(c, r.row, clock).None?
    ensures var r' := Append(c, r, e);
            || (r'.row.status == Pending && r'.row.attemptCount == a && r'.row.maxAttempts == r.row.maxAttempts)
            || Count(r'.hist, CompletedFirst) + Count(r'.hist, CompletedRetry) >= 1
  {
    hide FailureResult;
    CountAppend(r.hist, e, CompletedFirst);
    CountAppend(r.hist, e, CompletedRetry);
  }

  lemma RefusingStep(c: Config, s: State, l: Label, id: Id, a: nat)
    requires Inv(c, s) && Enabled(c, s, l) && Refusing(c, s, id, a)
    ensures Refusing(c, Apply(c, s, l), id, a)
  {
    hide RecOk, FromRequest, ProcOk, Exclusive, CanMove, MoveEvent, RowAfter, EventOk, FailureResult;
    hide KeysAfter, ProcsAfter, MailAfter;
    var s' := Apply(c, s, l);
    OneRowStep(c, s, l, id);
    EventCounts(c, s, l, id, CompletedFirst);
    EventCounts(c, s, l, id, CompletedRetry);
    var r := s.recs[id];
    if r.row.status == Pending && r.row.attemptCount == a && FailureResult(c, r.row, s.clock).None? {
      RefusedLater(c, r.row, s.clock, s'.clock);
      if l.Move? {
        EventAllowed(c, s, s.procs[l.p], l.a, id);
        var e := EventOf(c, s, l, id);
        if e.Some? {
          RefusingEvent(c, r, s.clock, e.value, a);
        }
      }
      if s'.recs[id].row.attemptCount == a {
        RefusedAlike(c, r.row, s'.recs[id].row, s'.clock);
      }
    }
  }

  /**
   A pending row whose failure the database refuses keeps its attempt count for as long as it is pending, in
   every run, and is never FAILED before a consumer has written it COMPLETED.
   */
  lemma {:induction false} CountStays(c: Config, ss: seq<State>, ls: seq<Label>, i: nat, j: nat, id: Id, a: nat)
    requires IsRun(c, ss, ls) && i <= j <= |ls| && id in ss[i].recs && ss[i].recs[id].row.status == Pending
    requires ss[i].recs[id].row.attemptCount == a && FailureResult(c, ss[i].recs[id].row, ss[i].clock).None?
    ensures Refusing(c, ss[j], id, a)
    ensures var Rec(row, h) := ss[j].recs[id];
            && (row.status == Pending ==> row.attemptCount == a)
            && (row.status == Failed ==> Count(h, CompletedFirst) + Count(h, CompletedRetry) >= 1)
  {
    hide Inv, Enabled, Apply, FailureResult;
    if i < j {
      CountStays(c, ss, ls, i, j - 1, id, a);
      InvAlways(c, ss, ls, j - 1);
      RefusingStep(c, ss[j - 1], ls[j - 1], id, a);
    }
    if id in ss[j].recs && ss[j].recs[id].row.status == Pending {
      StatusAlwaysCounts(c, ss, ls, j, id);
    }
  }

  /** A pending row has never been completed. */
  lemma StatusAlwaysCounts(c: Config, ss: seq<State>, ls: seq<Label>, i: nat, id: Id)
    requires IsRun(c, ss, ls) && i <= |ls| && id in ss[i].recs && ss[i].recs[id].row.status == Pending
    ensures Count(ss[i].recs[id].hist, CompletedFirst) + Count(ss[i].recs[id].hist, CompletedRetry) == 0
  {
    hide Enabled, Apply, Legal;
    RecAlways(c, ss, ls, i, id);
  }
}
