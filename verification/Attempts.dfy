/** How often a notification is handed to SendNotification: at most max_attempts times in a well-delivered run. */
module Attempts {
  import opened Model
  import opened Backoff
  import opened Aggregate
  import opened Rows
  import opened Histories
  import opened Protocol
  import opened Invariants
  import opened Failures
  import opened Drain
  import opened AtMostOnce

  /** Step l hands notification id to SendNotification. */
  ghost predicate HandsOver(s: State, l: Label, id: Id) {
    && l.Move? && l.a.Send? && l.p in s.procs
    && (s.procs[l.p].SendQueued? || s.procs[l.p].RetryReady?) && s.procs[l.p].id == id
  }

  /** How often the first i steps hand id to SendNotification, whatever it returns. */
  ghost function SendSteps(ss: seq<State>, ls: seq<Label>, i: nat, id: Id): nat
    requires i <= |ls| <= |ss|
  {
    if i == 0 then 0 else SendSteps(ss, ls, i - 1, id) + One(HandsOver(ss[i - 1], ls[i - 1], id))
  }

  /** A consumer's outcome is lost before its write. */
  ghost predicate LosesOutcome(s: State, l: Label, id: Id) {
    l.Move? && l.a.Drop? && l.p in s.procs && s.procs[l.p].Done? && s.procs[l.p].id == id
  }

  ghost predicate Unwritten(s: State, id: Id) {
    exists p :: p in s.procs && s.procs[p].Done? && s.procs[p].id == id
  }

  /** n sends so far: each has cost the pending row an attempt, but for one still to be written. */
  ghost predicate Paid(s: State, id: Id, n: nat)
    requires id in s.recs
  {
    var row := s.recs[id].row;
    if row.status == Pending then n == row.attemptCount + One(Unwritten(s, id)) else n <= row.maxAttempts
  }

  /** A move other than id's own write leaves what counts of the row. */
  lemma CountersKept(c: Config, s: State, x: Proc, a: Act, id: Id)
    requires CanMove(c, s, x, a) && id in s.recs && !(a.Write? && x.Done? && x.id == id)
    ensures var r := RecMoved(c, s, x, a, id);
            && r.row.status == s.recs[id].row.status && r.row.attemptCount == s.recs[id].row.attemptCount
            && r.row.maxAttempts == s.recs[id].row.maxAttempts
  {
  }

  /** Only a send leaves an outcome to write. */
  lemma UnwrittenFrom(c: Config, s: State, x: Proc, a: Act, id: Id)
    requires CanMove(c, s, x, a)
    ensures var after := After(c, s, x, a);
            after.Some? && after.value.Done? && after.value.id == id ==>
              a.Send? && (x.SendQueued? || x.RetryReady?) && x.id == id
    ensures var spawn := Spawn(c, s, x, a); spawn.Some? ==> !spawn.value.Done?
  {
  }

  /** What a move does to the outcomes still to be written, when it is neither id's send nor its write. */
  lemma UnwrittenKept(c: Config, s: State, p: nat, a: Act, id: Id)
    requires Inv(c, s) && Enabled(c, s, Move(p, a)) && !HandsOver(s, Move(p, a), id)
    requires !(s.procs[p].Done? && s.procs[p].id == id)
    ensures Unwritten(Apply(c, s, Move(p, a)), id) <==> Unwritten(s, id)
  {
    hide RowsOk, Exclusive, ProcOk, CanMove, After, Spawn, RecsAfter, KeysAfter, MailAfter;
    var s' := Apply(c, s, Move(p, a));
    UnwrittenFrom(c, s, s.procs[p], a, id);
    if Unwritten(s, id) {
      var q :| q in s.procs && s.procs[q].Done? && s.procs[q].id == id;
      StaysPut(c, s, Move(p, a), q);
    }
    if Unwritten(s', id) {
      var q :| q in s'.procs && s'.procs[q].Done? && s'.procs[q].id == id;
      ProcOrigin(c, s, Move(p, a), q);
    }
  }

  /** With one delivery outstanding, its consumer's outcome is the only one. */
  lemma OnlyOutcome(c: Config, s: State, p: nat, id: Id)
    requires id in s.recs && Once(c, s, id) && IsToken(s, p, id)
    ensures Unwritten(s, id) <==> s.procs[p].Done?
    ensures s.recs[id].row.status == Pending
  {
    if Unwritten(s, id) {
      var q :| q in s.procs && s.procs[q].Done? && s.procs[q].id == id;
      assert IsToken(s, q, id);
    }
  }

  lemma SendPaid(c: Config, s: State, p: nat, a: Act, id: Id, n: nat)
    requires Inv(c, s) && Enabled(c, s, Move(p, a)) && HandsOver(s, Move(p, a), id) && id in s.recs && Once(c, s, id)
    requires Paid(s, id, n)
    ensures id in Apply(c, s, Move(p, a)).recs && Paid(Apply(c, s, Move(p, a)), id, n + 1)
  {
    hide RowsOk, Exclusive, ProcOk, CanMove, RecMoved, RecsAfter, KeysAfter, MailAfter, Once;
    var s' := Apply(c, s, Move(p, a));
    OnlyOutcome(c, s, p, id);
    CountersKept(c, s, s.procs[p], a, id);
    MoveState(c, s, p, a, id);
    assert s'.procs[p].Done? && s'.procs[p].id == id;
  }

  /** A recorded outcome settles the row or costs it the attempt. */
  lemma OutcomeCosts(c: Config, r: Rec, clock: Time, x: Proc)
    requires x.Done? && r.row.status == Pending && r.row.attemptCount < r.row.maxAttempts
    requires r.row.maxAttempts == RowMaxAttempts(c) && RecordsFailures(c, clock)
    ensures WriteEvent(c, r.row, clock, x).Some?
    ensures var row := Append(c, r, WriteEvent(c, r.row, clock, x).value).row;
            && row.maxAttempts == r.row.maxAttempts
            && (row.status == Pending ==> row.attemptCount == r.row.attemptCount + 1)
  {
    hide RecordsFailures, SqlRetryAt, BackoffParams, RepoClamp;
    Recorded(c, r.row, clock);
  }

  lemma WritePaid(c: Config, s: State, p: nat, id: Id, n: nat)
    requires Inv(c, s) && Enabled(c, s, Move(p, Write)) && s.procs[p].id == id && id in s.recs && Once(c, s, id)
    requires Paid(s, id, n) && RecordsFailures(c, s.clock)
    ensures id in Apply(c, s, Move(p, Write)).recs && Paid(Apply(c, s, Move(p, Write)), id, n)
  {
    hide RecOk, FromRequest, Exclusive, ProcOk, RecordsFailures, WriteEvent, Append, KeysAfter, MailAfter, Once;
    var s' := Apply(c, s, Move(p, Write));
    WriteToken(c, s, p, id);
    OnlyOutcome(c, s, p, id);
    OneAttempt(c, s.clock);
    PendingRoom(c, s, id);
    MaxOf(c, s, id);
    OutcomeCosts(c, s.recs[id], s.clock, s.procs[p]);
    MoveState(c, s, p, Write, id);
    NothingUnwritten(c, s, p, id);
  }

  lemma WriteToken(c: Config, s: State, p: nat, id: Id)
    requires Enabled(c, s, Move(p, Write)) && s.procs[p].id == id && id in s.recs
    ensures IsToken(s, p, id) && s.procs[p].Done?
  {
  }

  lemma NothingUnwritten(c: Config, s: State, p: nat, id: Id)
    requires Inv(c, s) && Enabled(c, s, Move(p, Write)) && s.procs[p].id == id && id in s.recs && Once(c, s, id)
    ensures !Unwritten(Apply(c, s, Move(p, Write)), id)
  {
    hide RowsOk, Exclusive, ProcOk, RecsAfter, KeysAfter, MailAfter;
    var s' := Apply(c, s, Move(p, Write));
    assert IsToken(s, p, id);
    forall q | q in s'.procs && s'.procs[q].Done? ensures s'.procs[q].id != id {
      assert q in s.procs && s'.procs[q] == s.procs[q] && q != p;
      assert s.procs[q].id == id ==> IsToken(s, q, id);
    }
  }

  lemma OtherPaid(c: Config, s: State, p: nat, a: Act, id: Id, n: nat)
    requires Inv(c, s) && Enabled(c, s, Move(p, a)) && !HandsOver(s, Move(p, a), id) && id in s.recs
    requires !(s.procs[p].Done? && s.procs[p].id == id) && Paid(s, id, n)
    ensures id in Apply(c, s, Move(p, a)).recs && Paid(Apply(c, s, Move(p, a)), id, n)
  {
    hide Inv, CanMove, RecMoved, Apply, Unwritten, HandsOver;
    UnwrittenKept(c, s, p, a, id);
    CountersKept(c, s, s.procs[p], a, id);
    MoveState(c, s, p, a, id);
  }

  lemma StartPaid(c: Config, s: State, l: Label, id: Id, n: nat)
    requires Inv(c, s) && Enabled(c, s, l) && !l.Move? && id in s.recs && Paid(s, id, n)
    ensures id in Apply(c, s, l).recs && Paid(Apply(c, s, l), id, n)
  {
    hide RecOk, FromRequest, Exclusive, ProcOk, NewRow, KeysAfter, MailAfter;
    var s' := Apply(c, s, l);
    assert s'.recs[id] == s.recs[id];
    NextFree(c, s);
    forall q ensures q in s'.procs && s'.procs[q].Done? && s'.procs[q].id == id <==>
                     q in s.procs && s.procs[q].Done? && s.procs[q].id == id {
    }
  }

  lemma NextFree(c: Config, s: State)
    requires Inv(c, s)
    ensures s.next !in s.procs
  {
    hide RowsOk, Exclusive, ProcOk;
  }

  lemma NewPaid(c: Config, s: State, l: Label)
    requires Inv(c, s) && Enabled(c, s, l) && l.Create?
    ensures l.id in Apply(c, s, l).recs && Paid(Apply(c, s, l), l.id, 0)
  {
    hide RowsOk, Exclusive;
    var s' := Apply(c, s, l);
    assert s'.recs[l.id] == Rec(NewRow(c, l.req, l.id), []);
    forall q | q in s'.procs && s'.procs[q].Done? ensures s'.procs[q].id != l.id {
      assert q in s.procs;
      assert ProcOk(c, s, s.procs[q]);
    }
  }

  lemma PaidStep(c: Config, s: State, l: Label, id: Id, n: nat)
    requires Inv(c, s) && Enabled(c, s, l) && id in s.recs && Once(c, s, id) && Paid(s, id, n)
    requires RecordsFailures(c, s.clock) && !LosesOutcome(s, l, id)
    ensures id in Apply(c, s, l).recs && Paid(Apply(c, s, l), id, n + One(HandsOver(s, l, id)))
  {
    hide Inv, Once, Paid, Apply, RecordsFailures, Unwritten;
    if !l.Move? {
      StartPaid(c, s, l, id, n);
    } else if HandsOver(s, l, id) {
      SendPaid(c, s, l.p, l.a, id, n);
    } else if s.procs[l.p].Done? && s.procs[l.p].id == id {
      DoneMoves(c, s, l.p, l.a);
      WritePaid(c, s, l.p, id, n);
    } else {
      OtherPaid(c, s, l.p, l.a, id, n);
    }
  }

  lemma DoneMoves(c: Config, s: State, p: nat, a: Act)
    requires Enabled(c, s, Move(p, a)) && s.procs[p].Done?
    ensures a.Write? || a.Drop?
  {
  }

  /** The assumptions under which an attempt is never given away: id is well delivered and no outcome is lost. */
  ghost predicate NothingLost(c: Config, ss: seq<State>, ls: seq<Label>, n: nat, id: Id)
    requires IsRun(c, ss, ls) && n <= |ls|
  {
    WellDelivered(c, ss, ls, n, id) && forall k :: 0 <= k < n ==> !LosesOutcome(ss[k], ls[k], id)
  }

  lemma HandedExists(c: Config, s: State, l: Label, id: Id)
    requires Inv(c, s)
    ensures HandsOver(s, l, id) ==> id in s.recs
  {
    hide RowsOk, Exclusive;
  }

  /** Nobody hands over a notification that does not exist. */
  lemma {:induction false} NoneBefore(c: Config, ss: seq<State>, ls: seq<Label>, i: nat, id: Id)
    requires IsRun(c, ss, ls) && i <= |ls| && id !in ss[i].recs
    ensures SendSteps(ss, ls, i, id) == 0
  {
    hide Enabled, Apply, RowsOk, Exclusive;
    if i > 0 {
      InvAlways(c, ss, ls, i - 1);
      GrowsBetween(c, ss, ls, i - 1, i);
      NoneBefore(c, ss, ls, i - 1, id);
      HandedExists(c, ss[i - 1], ls[i - 1], id);
    }
  }

  lemma {:induction false} PaidAlways(c: Config, ss: seq<State>, ls: seq<Label>, i: nat, id: Id)
    requires IsRun(c, ss, ls) && i <= |ls| && NothingLost(c, ss, ls, i, id) && RecordsFailures(c, ss[i].clock)
    requires id in ss[i].recs
    ensures Paid(ss[i], id, SendSteps(ss, ls, i, id))
  {
    hide Inv, Enabled, Apply, Once, Paid, Timely, Benign, RecordsFailures, HandsOver;
    if i > 0 {
      InvAlways(c, ss, ls, i - 1);
      GrowsBetween(c, ss, ls, i - 1, i);
      RecordsEarlier(c, ss[i].clock, ss[i - 1].clock);
      if id in ss[i - 1].recs {
        OnceAlways(c, ss, ls, i - 1, id);
        PaidAlways(c, ss, ls, i - 1, id);
        PaidStep(c, ss[i - 1], ls[i - 1], id, SendSteps(ss, ls, i - 1, id));
      } else {
        NoneBefore(c, ss, ls, i - 1, id);
        Appears(c, ss[i - 1], ls[i - 1], id);
        NewPaid(c, ss[i - 1], ls[i - 1]);
      }
    }
  }

  lemma Appears(c: Config, s: State, l: Label, id: Id)
    requires Inv(c, s) && Enabled(c, s, l) && id !in s.recs && id in Apply(c, s, l).recs
    ensures l.Create? && l.id == id && !HandsOver(s, l, id)
  {
    hide Inv, NewRow, RecAfter;
  }

  /**
   In a well-delivered run that records failures and loses no outcome, a notification is handed to
   SendNotification at most max_attempts times, and while it is pending exactly as often as its attempt
   count says, but for a send whose outcome is still to be written.
   */
  lemma SendsBounded(c: Config, ss: seq<State>, ls: seq<Label>, i: nat, id: Id)
    requires IsRun(c, ss, ls) && i <= |ls| && NothingLost(c, ss, ls, i, id) && RecordsFailures(c, ss[i].clock)
    requires id in ss[i].recs
    ensures var row, n := ss[i].recs[id].row, SendSteps(ss, ls, i, id);
            && n <= row.maxAttempts
            && (row.status == Pending ==> n == row.attemptCount + One(Unwritten(ss[i], id)))
  {
    hide Enabled, Apply, Timely, Benign, RecordsFailures, RecOk, FromRequest, ProcsOk, Unwritten;
    PaidAlways(c, ss, ls, i, id);
    InvAlways(c, ss, ls, i);
    OneAttempt(c, ss[i].clock);
    MaxOf(c, ss[i], id);
    PendingRoom(c, ss[i], id);
  }
}
