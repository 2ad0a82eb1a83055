/**
 Sends are not bounded by max_attempts: once a first failure is refused after others were recorded, the row is
 claimed and sent again after each lease, with every outcome written or refused and nothing lost.
 */
module Unbounded {
  import opened Wrappers
  import opened Model
  import opened Float64
  import opened Backoff
  import opened Aggregate
  import opened Delivery
  import opened Rows
  import opened Histories
  import opened Protocol
  import opened Invariants
  import opened Failures
  import opened AtMostOnce
  import opened Attempts
  import opened Solo
  import opened Phases
  import opened Stuck

  // ---- the first refused failure ---------------------------------------

  /** When attempt a comes if the first is made at time at and each later one as soon as its backoff ends. */
  function AttemptAt(c: Config, at: Time, a: nat): Time {
    if a == 0 then at else AttemptAt(c, at, a - 1) + Delay(c, a - 1)
  }

  /** The failure of a pending row with attempt_count a is refused at time t. */
  predicate RefusedAt(c: Config, a: nat, t: Time) {
    var (initial, cap) := BackoffParams(c);
    SqlRetryAt(initial, cap, a, t).None?
  }

  /** Of the attempts made that way, a is the first one whose failure the database refuses. */
  predicate FirstRefused(c: Config, at: Time, a: nat) {
    && a + 2 <= RowMaxAttempts(c) <= INT4_MAX
    && RefusedAt(c, a, AttemptAt(c, at, a))
    && forall j: nat :: j < a ==> !RefusedAt(c, j, AttemptAt(c, at, j))
  }

  lemma RefusedIs(c: Config, row: Notification, t: Time)
    requires row.attemptCount + 2 <= row.maxAttempts <= INT4_MAX
    ensures RefusedAt(c, row.attemptCount, t) <==> FailureResult(c, row, t).None?
  {
    ClampsAgree(c);
    hide SqlRetryAt, BackoffParams, RepoClamp;
  }

  lemma RefusedLonger(c: Config, a: nat, t: Time, later: Time)
    requires RefusedAt(c, a, t) && t <= later
    ensures RefusedAt(c, a, later)
  {
    hide SqlDelay, BackoffParams;
  }

  lemma {:induction false} AttemptsForward(c: Config, at: Time, a: nat, b: nat)
    requires a <= b
    ensures AttemptAt(c, at, a) <= AttemptAt(c, at, b)
    decreases b - a
  {
    hide Delay;
    if a < b {
      AttemptsForward(c, at, a, b - 1);
      DelayMonotone(c, b - 1, b - 1);
    }
  }

  lemma {:induction false} Least(c: Config, at: Time, n: nat) returns (a: nat)
    requires exists j: nat :: j <= n && RefusedAt(c, j, AttemptAt(c, at, j))
    ensures a <= n && RefusedAt(c, a, AttemptAt(c, at, a))
    ensures forall j: nat :: j < a ==> !RefusedAt(c, j, AttemptAt(c, at, j))
  {
    hide RefusedAt, AttemptAt;
    a := n;
    if exists j: nat :: j < n && RefusedAt(c, j, AttemptAt(c, at, j)) {
      var j: nat :| j < n && RefusedAt(c, j, AttemptAt(c, at, j));
      a := Least(c, at, n - 1);
    }
  }

  /** There is a first refused failure whenever not all failures are recorded. */
  lemma SomeRefused(c: Config, at: Time) returns (a: nat)
    requires !RecordsFailures(c, at) && 1 <= RowMaxAttempts(c) <= INT4_MAX
    ensures FirstRefused(c, at, a)
  {
    hide RecordsFailures, RefusedAt;
    AtLeastTwo(c, at);
    var n: nat := RowMaxAttempts(c) - 2;
    LastRefused(c, at, n);
    AttemptsForward(c, at, 0, n);
    RefusedLonger(c, n, at, AttemptAt(c, at, n));
    a := Least(c, at, n);
  }

  lemma LastRefused(c: Config, at: Time, n: nat)
    requires !RecordsFailures(c, at) && n + 2 == RowMaxAttempts(c) <= INT4_MAX
    ensures RefusedAt(c, n, at)
  {
    hide RecordsFailures, RefusedAt;
    var row := NewRow(c, BLANK, "").(attemptCount := n);
    UnrecordedBeforeLast(c, row, at, at);
    RefusedIs(c, row, at);
  }

  lemma {:induction false} WithinCaps(c: Config, at: Time, a: nat)
    ensures AttemptAt(c, at, a) <= at + a * CapNanos(c)
  {
    hide Delay, CapNanos;
    if a > 0 {
      WithinCaps(c, at, a - 1);
      DelayMonotone(c, a - 1, a - 1);
      assert a * CapNanos(c) == (a - 1) * CapNanos(c) + CapNanos(c);
    }
  }

  /**
   The bigint cast alone does it, however small the cap: the first attempt with initial * 2^a >= 2^63 is
   refused, as long as the backoff up to it fits before the last timestamp.
   */
  lemma CastRefuses(c: Config, at: Time, a: nat)
    requires 1 <= a && a + 2 <= RowMaxAttempts(c) <= INT4_MAX
    requires var (initial, cap) := BackoffParams(c);
             initial * Pow2(a - 1) < TWO_63 <= initial * Pow2(a) && Micros(cap) < TWO_63
    requires at + a * CapNanos(c) < TIMESTAMP_END
    ensures FirstRefused(c, at, a)
  {
    hide Micros, Capped, SqlDelay, Pow2, CapNanos, AttemptAt;
    var (initial, cap) := BackoffParams(c);
    DelayOrError(initial, cap, a);
    forall j: nat | j < a ensures !RefusedAt(c, j, AttemptAt(c, at, j)) {
      Pow2Monotone(j, a - 1);
      ScaleMonotone(initial, Pow2(j), Pow2(a - 1));
      DelayOrError(initial, cap, j);
      CappedMonotone(initial, cap, j, j);
      MicrosMonotone(Capped(initial, cap, j), cap);
      WithinCaps(c, at, j + 1);
      BackoffEnds(c, at, j);
      ScaleMonotone(CapNanos(c), j + 1, a);
    }
  }

  lemma BackoffEnds(c: Config, at: Time, j: nat)
    ensures var (initial, cap) := BackoffParams(c);
            AttemptAt(c, at, j) + Nanos(Capped(initial, cap, j)) == AttemptAt(c, at, j + 1)
    ensures CapNanos(c) >= 0
  {
    DelayMonotone(c, j, j);
    hide Capped, Micros;
  }

  // ---- one more send ---------------------------------------------------

  /** Only finished passes are left, and the row is pending and waits for its next claim. */
  ghost predicate Waits(c: Config, v: View, a: nat, next: Time) {
    && (forall p | p in v.procs :: v.procs[p].ClaimPublishing? && v.procs[p].ids == [])
    && v.rec.row.status == Pending && v.rec.row.maxAttempts == RowMaxAttempts(c)
    && v.rec.row.attemptCount == a && v.rec.row.nextRetryAt == Some(next) && v.clock <= next
  }

  lemma WaitsIs(c: Config, v: View, a: nat, next: Time)
    requires Waits(c, v, a, next) && 1 <= a && a + 2 <= RowMaxAttempts(c)
    ensures InTime(v.(clock := next), {}) && Unclaimed(v) && DueForRetry(v.rec.row, next) && RetryGuard(v.rec.row)
  {
  }

  /** The consumer of retry message q fails, and its failure is recorded or not. */
  lemma RetryRefused(c: Config, s: State, t0: Trace, id: Id, v0: View, q: nat) returns (t: Trace, v: View)
    requires So(c, s, t0, id, v0, {}, {}) && InTime(v0, {}) && Unclaimed(v0) && RetryGuard(v0.rec.row)
    requires q in v0.procs && v0.procs[q].RetryQueued? && v0.procs[q].id == id
    ensures So(c, s, t, id, v, {}, {}) && t0.ss <= t.ss
    ensures t.ls == t0.ls + [Move(q, ReadRow), Move(q, Send(false)), Move(q, Write)]
    ensures v == v0.(rec := v.rec, procs := v0.procs - {q}, next := v0.next + 3)
    ensures v.rec.row == if FailureResult(c, v0.rec.row, v0.clock).Some? then FailureResult(c, v0.rec.row, v0.clock).value
                         else v0.rec.row
  {
    hide Enabled, Apply, Benign, KeptBut, Shows, Refused, Rebuilt, FailureResult;
    var v1 := Solo.ReadStep(c, t0.Last(), id, v0, q, v0.procs[q].until);
    var t1 := Then(c, s, t0, id, v0, {}, {}, Move(q, ReadRow), v1);
    if FailureResult(c, v0.rec.row, v0.clock).None? {
      t, v := LosesFailure(c, s, t1, id, v1, {}, q);
    } else {
      t, v := Fails(c, s, t1, id, v1, q);
    }
    assert v1.procs - {q} == v0.procs - {q};
  }

  /** The labels of one more claim that is sent without success. */
  function ResendLabels(id: Id, at: Time, n: nat): seq<Label> {
    SoloClaim(id, at, n) + [Move(n + 4, ReadRow), Move(n + 4, Send(false)), Move(n + 4, Write)]
  }

  /** The row is claimed as soon as it is due, on time throughout, and sent without success. */
  lemma Resent(c: Config, s: State, t0: Trace, id: Id, v0: View, a: nat, next: Time) returns (t: Trace, v: View)
    requires So(c, s, t0, id, v0, {}, {}) && Waits(c, v0, a, next) && PublishLease(c) > 0 && LeaseFits(c, next)
    requires 1 <= a && a + 2 <= RowMaxAttempts(c) <= INT4_MAX
    ensures So(c, s, t, id, v, {}, {}) && v.clock == next
    ensures if RefusedAt(c, a, next) then Waits(c, v, a, next + PublishLease(c))
            else Waits(c, v, a + 1, next + Delay(c, a))
    ensures t0.ss <= t.ss && t.ls == t0.ls + ResendLabels(id, next, v0.next)
  {
    hide Enabled, Apply, Benign, KeptBut, Shows, Refused, Rebuilt, FailureResult, Delay, RefusedAt, PublishLease;
    WaitsIs(c, v0, a, next);
    var t1, v1 := Claims(c, s, t0, id, v0, {}, {}, next);
    t, v := RetryRefused(c, s, t1, id, v1, v0.next + 4);
    RefusedIs(c, v1.rec.row, next);
    DelayMonotone(c, a, a);
    if FailureResult(c, v1.rec.row, next).Some? {
      FailureDelay(c, v1.rec.row, next);
    }
    ViewBelow(t0.Last(), id, v0);
  }

  /** Labels that hand something to SendNotification. */
  function SendLabels(ls: seq<Label>): nat {
    if ls == [] then 0
    else SendLabels(ls[..|ls| - 1]) + One(ls[|ls| - 1].Move? && ls[|ls| - 1].a.Send?)
  }

  lemma {:induction false} SendLabelsConcat(a: seq<Label>, b: seq<Label>)
    ensures SendLabels(a + b) == SendLabels(a) + SendLabels(b)
  {
    if b == [] {
      assert a + b == a;
    } else {
      SendLabelsConcat(a, b[..|b| - 1]);
      assert (a + b)[..|a + b| - 1] == a + b[..|b| - 1];
    }
  }

  lemma ResendSends(id: Id, at: Time, n: nat)
    ensures SendLabels(ResendLabels(id, at, n)) == 1
  {
    var q := n + 4;
    SendLabelsConcat(SoloClaim(id, at, n), [Move(q, ReadRow), Move(q, Send(false)), Move(q, Write)]);
    var c5 := SoloClaim(id, at, n);
    assert c5[..4][..3][..2][..1][..0] == [];
    assert c5[..4][..3] == c5[..3] && c5[..3][..2] == c5[..2] && c5[..2][..1] == c5[..1] && c5[..1][..0] == [];
    var m := [Move(q, ReadRow), Move(q, Send(false)), Move(q, Write)];
    assert m[..2][..1] == m[..1] && m[..1][..0] == [];
    assert SendLabels(m[..1]) == 0 && SendLabels(m[..2]) == 1;
    assert SendLabels(c5[..1]) == 0 && SendLabels(c5[..2]) == 0 && SendLabels(c5[..3]) == 0 && SendLabels(c5[..4]) == 0;
  }

  /** With a single notification every such label is a send of it. */
  lemma {:induction false} SoloSends(c: Config, ss: seq<State>, ls: seq<Label>, i: nat, id: Id)
    requires IsRun(c, ss, ls) && i <= |ls| && ss[|ls|].recs.Keys == {id}
    ensures SendSteps(ss, ls, i, id) == SendLabels(ls[..i])
  {
    hide Inv, Enabled, Apply;
    if i > 0 {
      SoloSends(c, ss, ls, i - 1, id);
      assert ls[..i][..i - 1] == ls[..i - 1];
      InvAlways(c, ss, ls, i - 1);
      GrowsBetween(c, ss, ls, i - 1, |ls|);
      SoloHandsOver(c, ss[i - 1], ls[i - 1], id);
    }
  }

  lemma SoloHandsOver(c: Config, s: State, l: Label, id: Id)
    requires Inv(c, s) && Enabled(c, s, l) && s.recs.Keys <= {id}
    ensures HandsOver(s, l, id) <==> l.Move? && l.a.Send?
  {
    hide RowsOk, Exclusive;
    if l.Move? && l.a.Send? {
      assert ProcOk(c, s, s.procs[l.p]);
    }
  }

  lemma FirstLabels(id: Id, req: Request, ls: seq<Label>)
    requires ls == [Create(id, req), Move(0, Check), Move(0, PublishNow)] + [Move(0, Send(false)), Move(0, Write)]
    ensures SendLabels(ls) == 1
  {
    assert ls[..4][..3][..2][..1][..0] == [];
    assert ls[..4][..3] == ls[..3] && ls[..3][..2] == ls[..2] && ls[..2][..1] == ls[..1];
    assert SendLabels(ls[..1]) == 0 && SendLabels(ls[..2]) == 0 && SendLabels(ls[..3]) == 0 && SendLabels(ls[..4]) == 1;
  }

  /** No process is dropped: no crash, lost message or lost write. */
  predicate NoDrops(ls: seq<Label>) {
    forall k :: 0 <= k < |ls| ==> !(ls[k].Move? && ls[k].a.Drop?)
  }

  lemma ResendDropsNothing(ls: seq<Label>, id: Id, at: Time, n: nat)
    requires NoDrops(ls)
    ensures NoDrops(ls + ResendLabels(id, at, n))
  {
  }

  // ---- over and over ---------------------------------------------------

  /** Enqueued at time at, and k attempts made and recorded, each as soon as its backoff ended. */
  lemma {:induction false} Climbed(c: Config, s: State, id: Id, req: Request, a: nat, k: nat) returns (t: Trace, v: View)
    requires Initial(s) && Deliverable(c, id, req) && req.scheduledAt.None? && PublishLease(c) > 0
    requires FirstRefused(c, s.clock, a) && LeaseFits(c, AttemptAt(c, s.clock, a)) && 1 <= k <= a
    ensures So(c, s, t, id, v, {}, {}) && Waits(c, v, k, AttemptAt(c, s.clock, k))
    ensures SendLabels(t.ls) == k && NoDrops(t.ls)
    decreases k
  {
    hide Shows, KeptBut, Refused, Validated, NewRow, Transit, FirstRecorded, Delay, PublishLease, RefusedAt, Waits;
    if k == 1 {
      t, v := FirstSent(c, s, id, req, a);
    } else {
      var t1, v1 := Climbed(c, s, id, req, a, k - 1);
      var next := AttemptAt(c, s.clock, k - 1);
      AttemptsForward(c, s.clock, k - 1, a);
      t, v := Resent(c, s, t1, id, v1, k - 1, next);
      SendLabelsConcat(t1.ls, ResendLabels(id, next, v1.next));
      ResendSends(id, next, v1.next);
      ResendDropsNothing(t1.ls, id, next, v1.next);
    }
  }

  lemma FirstSent(c: Config, s: State, id: Id, req: Request, a: nat) returns (t: Trace, v: View)
    requires Initial(s) && Deliverable(c, id, req) && req.scheduledAt.None?
    requires FirstRefused(c, s.clock, a) && a >= 1
    ensures So(c, s, t, id, v, {}, {}) && Waits(c, v, 1, AttemptAt(c, s.clock, 1))
    ensures SendLabels(t.ls) == 1 && NoDrops(t.ls)
  {
    hide Shows, KeptBut, Refused, Validated, NewRow, Transit, Delay, SqlRetryAt;
    NewRowIs(c, id, req);
    assert !RefusedAt(c, 0, AttemptAt(c, s.clock, 0));
    DelayMonotone(c, 0, 0);
    var t1, v1 := Enqueued(c, s, id, req);
    t, v := FirstFailure(c, s, t1, id, v1, 0);
    FirstLabels(id, req, t.ls);
  }

  /** When the m-th refused attempt has been made, the next one is a lease away. */
  function ResendAt(c: Config, at: Time, a: nat, m: nat): Time {
    AttemptAt(c, at, a) + m * PublishLease(c)
  }

  lemma {:induction false} SentAgain(c: Config, s: State, id: Id, req: Request, a: nat, m: nat) returns (t: Trace, v: View)
    requires Initial(s) && Deliverable(c, id, req) && req.scheduledAt.None? && PublishLease(c) > 0
    requires FirstRefused(c, s.clock, a) && a >= 1
    requires LeaseFits(c, ResendAt(c, s.clock, a, if m == 0 then 0 else m - 1))
    ensures So(c, s, t, id, v, {}, {}) && Waits(c, v, a, ResendAt(c, s.clock, a, m))
    ensures SendLabels(t.ls) == a + m && NoDrops(t.ls)
    ensures m >= 1 ==> v.clock == ResendAt(c, s.clock, a, m - 1)
    decreases m
  {
    hide Shows, KeptBut, Refused, Validated, NewRow, Transit, Delay, PublishLease, RefusedAt, Waits, AttemptAt;
    if m == 0 {
      t, v := Climbed(c, s, id, req, a, a);
    } else {
      LeasesAdd(c, s.clock, a, m - 1);
      if m >= 2 {
        LeasesAdd(c, s.clock, a, m - 2);
      }
      var t1, v1 := SentAgain(c, s, id, req, a, m - 1);
      var next := ResendAt(c, s.clock, a, m - 1);
      RefusedLonger(c, a, AttemptAt(c, s.clock, a), next);
      t, v := Resent(c, s, t1, id, v1, a, next);
      SendLabelsConcat(t1.ls, ResendLabels(id, next, v1.next));
      ResendSends(id, next, v1.next);
      ResendDropsNothing(t1.ls, id, next, v1.next);
    }
  }

  lemma LeasesAdd(c: Config, at: Time, a: nat, m: nat)
    requires PublishLease(c) > 0
    ensures ResendAt(c, at, a, m + 1) == ResendAt(c, at, a, m) + PublishLease(c)
    ensures ResendAt(c, at, a, m) >= AttemptAt(c, at, a)
  {
    hide PublishLease, AttemptAt;
    assert (m + 1) * PublishLease(c) == m * PublishLease(c) + PublishLease(c);
  }

  lemma NothingDropped(c: Config, ss: seq<State>, ls: seq<Label>, id: Id)
    requires IsRun(c, ss, ls) && WellDelivered(c, ss, ls, |ls|, id) && NoDrops(ls)
    ensures NothingLost(c, ss, ls, |ls|, id)
  {
    hide Enabled, Apply, WellDelivered;
  }

  /**
   With a refused failure on the way, sends are not bounded by max_attempts, although every outcome is written
   or refused, nothing is lost, and every delivery is in time: a recorded failures are followed by one more
   send at the end of each lease, for as many leases as fit before the last timestamp, and the row is still
   pending with a attempts.
   */
  lemma SentWithoutBound(c: Config, s: State, id: Id, req: Request, a: nat, n: nat) returns (t: Trace)
    requires Initial(s) && Deliverable(c, id, req) && req.scheduledAt.None? && PublishLease(c) > 0
    requires FirstRefused(c, s.clock, a) && a >= 1 && n >= 1
    requires LeaseFits(c, AttemptAt(c, s.clock, a) + (n - 1) * PublishLease(c))
    ensures IsRun(c, t.ss, t.ls) && t.ss[0] == s && NothingLost(c, t.ss, t.ls, |t.ls|, id)
    ensures SendSteps(t.ss, t.ls, |t.ls|, id) == a + n
    ensures t.Last().clock == AttemptAt(c, s.clock, a) + (n - 1) * PublishLease(c)
    ensures id in t.Last().recs && t.Last().recs[id].row.status == Pending && t.Last().recs[id].row.attemptCount == a
  {
    hide Enabled, Apply, Benign, Timely, Refused, Validated, FirstRefused, PublishLease, AttemptAt, WellDelivered;
    var t1, v := SentAgain(c, s, id, req, a, n);
    t := t1;
    AllKept(c, t, id);
    NothingDropped(c, t.ss, t.ls, id);
    assert t.Last().recs[id] == v.rec && t.Last().recs.Keys == {id};
    SoloSends(c, t.ss, t.ls, |t.ls|, id);
    assert t.ls[..|t.ls|] == t.ls;
  }
}
