/** Every recorded outcome uses up attempts, so retries drain; and from every state a drain is possible. */
module Drain {
  import opened Model
  import opened Aggregate
  import opened Rows
  import opened Histories
  import opened Protocol
  import opened Invariants
  import opened RowTheorems
  import opened Failures

  // ---- attempts left ---------------------------------------------------

  /** Attempts a pending row has left. */
  function Left(row: Notification): nat {
    if row.status == Pending && row.attemptCount < row.maxAttempts then row.maxAttempts - row.attemptCount else 0
  }

  ghost function SumLeft(recs: map<Id, Rec>, ids: set<Id>): nat
    requires ids <= recs.Keys
  {
    if ids == {} then 0
    else
      var id :| id in ids;
      Left(recs[id].row) + SumLeft(recs, ids - {id})
  }

  /** The measure: attempts left over all pending rows. */
  ghost function TotalLeft(s: State): nat {
    SumLeft(s.recs, s.recs.Keys)
  }

  lemma {:induction false} SumLeftOut(recs: map<Id, Rec>, ids: set<Id>, id: Id)
    requires ids <= recs.Keys && id in ids
    ensures SumLeft(recs, ids) == Left(recs[id].row) + SumLeft(recs, ids - {id})
    decreases ids
  {
    var pick :| pick in ids && SumLeft(recs, ids) == Left(recs[pick].row) + SumLeft(recs, ids - {pick});
    if pick != id {
      SumLeftOut(recs, ids - {pick}, id);
      SumLeftOut(recs, ids - {id}, pick);
      assert ids - {pick} - {id} == ids - {id} - {pick};
    }
  }

  lemma {:induction false} SumLeftMonotone(recs: map<Id, Rec>, recs': map<Id, Rec>, ids: set<Id>)
    requires ids <= recs.Keys && ids <= recs'.Keys
    requires forall id | id in ids :: Left(recs'[id].row) <= Left(recs[id].row)
    ensures SumLeft(recs', ids) <= SumLeft(recs, ids)
    decreases ids
  {
    if ids != {} {
      var id :| id in ids;
      SumLeftOut(recs, ids, id);
      SumLeftOut(recs', ids, id);
      SumLeftMonotone(recs, recs', ids - {id});
    }
  }

  // ---- one step --------------------------------------------------------

  /** Step l records an outcome of a delivery on a row that was pending. */
  ghost predicate Processes(c: Config, s: State, l: Label) {
    && Enabled(c, s, l) && l.Move? && l.a.Write?
    && s.recs[s.procs[l.p].id].row.status == Pending
    && WriteEvent(c, s.recs[s.procs[l.p].id].row, s.clock, s.procs[l.p]).Some?
  }

  ghost predicate ProcessesRow(c: Config, s: State, l: Label, id: Id) {
    Processes(c, s, l) && s.procs[l.p].id == id
  }

  lemma FailureLeft(c: Config, row: Notification, at: Time)
    requires row.status == Pending
    ensures FailureResult(c, row, at).Some? ==>
              var row' := FailureResult(c, row, at).value;
              Left(row') <= Left(row) && (row.attemptCount < row.maxAttempts ==> Left(row') < Left(row))
  {
  }

  lemma EventLeft(c: Config, clock: Time, r: Rec, e: Event)
    requires EventOk(c, r.row, clock, e)
    ensures Left(RowAfter(c, r.row, e)) <= Left(r.row)
    ensures r.row.status == Pending && r.row.attemptCount < r.row.maxAttempts
            && (e.kind == FailureRecorded || e.kind == CompletedFirst || e.kind == CompletedRetry) ==>
              Left(RowAfter(c, r.row, e)) < Left(r.row)
  {
    hide FailureResult;
    if r.row.status == Pending {
      FailureLeft(c, r.row, e.at);
    } else {
      FailureSettled(c, r.row, e.at);
    }
  }

  lemma FailureSettled(c: Config, row: Notification, at: Time)
    requires row.status != Pending
    ensures FailureResult(c, row, at).Some? ==> FailureResult(c, row, at).value.status != Pending
  {
  }

  lemma LeftStep(c: Config, s: State, l: Label, id: Id)
    requires Inv(c, s) && Enabled(c, s, l) && id in s.recs
    ensures Left(RecAfter(c, s, l, id).row) <= Left(s.recs[id].row)
    ensures ProcessesRow(c, s, l, id) && s.recs[id].row.maxAttempts >= 1 ==>
              Left(RecAfter(c, s, l, id).row) < Left(s.recs[id].row)
  {
    hide RecOk, FromRequest, ProcOk, Exclusive, CanMove, MoveEvent, RowAfter, EventOk, Left;
    if l.Move? {
      assert ProcOk(c, s, s.procs[l.p]);
      EventAllowed(c, s, s.procs[l.p], l.a, id);
      WriteIsEvent(c, s, l, id);
      PendingRoom(c, s, id);
      var e := EventOf(c, s, l, id);
      if e.Some? {
        EventLeft(c, s.clock, s.recs[id], e.value);
      }
    }
  }

  lemma WriteIsEvent(c: Config, s: State, l: Label, id: Id)
    requires Enabled(c, s, l) && l.Move? && id in s.recs
    ensures ProcessesRow(c, s, l, id) ==>
              var e := EventOf(c, s, l, id);
              e.Some? && (e.value.kind == FailureRecorded || e.value.kind == CompletedFirst || e.value.kind == CompletedRetry)
  {
  }

  lemma PendingRoom(c: Config, s: State, id: Id)
    requires RowsOk(c, s) && id in s.recs
    ensures s.recs[id].row.status == Pending && s.recs[id].row.maxAttempts >= 1 ==>
              s.recs[id].row.attemptCount < s.recs[id].row.maxAttempts
  {
    hide FromRequest, Legal;
    assert RowOk(c, s.clock, s.recs[id], id);
  }

  function MaxLeft(c: Config): nat {
    if RowMaxAttempts(c) > 0 then RowMaxAttempts(c) else 0
  }

  /** Only creating a row adds attempts, and recording an outcome on a pending row uses at least one up. */
  lemma TotalLeftStep(c: Config, s: State, l: Label)
    requires Inv(c, s) && Enabled(c, s, l) && RowMaxAttempts(c) >= 1
    ensures TotalLeft(Apply(c, s, l)) + One(Processes(c, s, l)) <= TotalLeft(s) + One(l.Create?) * MaxLeft(c)
  {
    hide Inv, CanMove, Processes, TotalLeft, RecsAfter, KeysAfter, ProcsAfter, MailAfter;
    if l.Create? {
      CreatedLeft(c, s, l);
      CreatesOnly(c, s, l);
    } else if Processes(c, s, l) {
      ProcessedLeft(c, s, l);
    } else {
      UncreatedLeft(c, s, l);
    }
  }

  lemma CreatesOnly(c: Config, s: State, l: Label)
    ensures l.Create? ==> !Processes(c, s, l)
  {
  }

  lemma UncreatedLeft(c: Config, s: State, l: Label)
    requires Inv(c, s) && Enabled(c, s, l) && !l.Create?
    ensures TotalLeft(Apply(c, s, l)) <= TotalLeft(s)
  {
    hide RecOk, FromRequest, ProcOk, Exclusive, CanMove, MoveEvent, RecAfter, Left;
    hide KeysAfter, ProcsAfter, MailAfter;
    var s' := Apply(c, s, l);
    assert s'.recs.Keys == s.recs.Keys;
    forall id | id in s.recs ensures Left(s'.recs[id].row) <= Left(s.recs[id].row) {
      LeftStep(c, s, l, id);
    }
    SumLeftMonotone(s.recs, s'.recs, s.recs.Keys);
  }

  lemma CreatedLeft(c: Config, s: State, l: Label)
    requires Inv(c, s) && Enabled(c, s, l) && l.Create?
    ensures TotalLeft(Apply(c, s, l)) <= TotalLeft(s) + MaxLeft(c)
  {
    hide RecOk, FromRequest, ProcOk, Exclusive, RecAfter, Left, NewRow;
    hide KeysAfter, ProcsAfter, MailAfter;
    var s' := Apply(c, s, l);
    forall id | id in s.recs ensures Left(s'.recs[id].row) <= Left(s.recs[id].row) {
      LeftStep(c, s, l, id);
    }
    SumLeftMonotone(s.recs, s'.recs, s.recs.Keys);
    SumLeftOut(s'.recs, s'.recs.Keys, l.id);
    assert s'.recs.Keys - {l.id} == s.recs.Keys;
    NewLeft(c, l.req, l.id);
  }

  lemma NewLeft(c: Config, req: Request, id: Id)
    ensures Left(NewRow(c, req, id)) <= MaxLeft(c)
  {
  }

  lemma ProcessedLeft(c: Config, s: State, l: Label)
    requires Inv(c, s) && Processes(c, s, l) && RowMaxAttempts(c) >= 1
    ensures TotalLeft(Apply(c, s, l)) < TotalLeft(s)
  {
    hide RecOk, FromRequest, ProcOk, Exclusive, CanMove, MoveEvent, RecAfter, Left, WriteEvent;
    hide KeysAfter, ProcsAfter, MailAfter;
    var s' := Apply(c, s, l);
    var ids := s.recs.Keys;
    assert ProcOk(c, s, s.procs[l.p]);
    ProcessedId(c, s, l);
    var id := s.procs[l.p].id;
    assert s'.recs.Keys == ids;
    forall i | i in ids ensures Left(s'.recs[i].row) <= Left(s.recs[i].row) {
      LeftStep(c, s, l, i);
    }
    MaxOf(c, s, id);
    LeftStep(c, s, l, id);
    SumLeftOut(s.recs, ids, id);
    SumLeftOut(s'.recs, ids, id);
    SumLeftMonotone(s.recs, s'.recs, ids - {id});
  }

  lemma ProcessedId(c: Config, s: State, l: Label)
    requires Processes(c, s, l)
    ensures s.procs[l.p].Done? && s.procs[l.p].id in s.recs
  {
  }

  lemma MaxOf(c: Config, s: State, id: Id)
    requires RowsOk(c, s) && id in s.recs
    ensures s.recs[id].row.maxAttempts == RowMaxAttempts(c)
  {
    hide RecOk;
    var req :| SameBody(s.recs[id].row, NewRow(c, req, s.recs[id].row.id));
  }

  // ---- whole runs ------------------------------------------------------

  ghost function ProcessedCount(c: Config, ss: seq<State>, ls: seq<Label>, i: nat, j: nat): nat
    requires i <= j <= |ls| && |ss| == |ls| + 1
  {
    if i == j then 0 else ProcessedCount(c, ss, ls, i, j - 1) + One(Processes(c, ss[j - 1], ls[j - 1]))
  }

  function CreatedCount(ls: seq<Label>, i: nat, j: nat): nat
    requires i <= j <= |ls|
  {
    if i == j then 0 else CreatedCount(ls, i, j - 1) + One(ls[j - 1].Create?)
  }

  /**
   Over any stretch of any run, the outcomes recorded on pending rows plus the attempts left at its end
   are at most the attempts left at its start plus max_attempts for each notification created in it.
   */
  lemma {:induction false} OutcomesBounded(c: Config, ss: seq<State>, ls: seq<Label>, i: nat, j: nat)
    requires IsRun(c, ss, ls) && i <= j <= |ls| && RowMaxAttempts(c) >= 1
    ensures ProcessedCount(c, ss, ls, i, j) + TotalLeft(ss[j])
            <= TotalLeft(ss[i]) + CreatedCount(ls, i, j) * RowMaxAttempts(c)
  {
    hide Inv, Enabled, Apply, TotalLeft, Processes;
    if i < j {
      OutcomesBounded(c, ss, ls, i, j - 1);
      InvAlways(c, ss, ls, j - 1);
      TotalLeftStep(c, ss[j - 1], ls[j - 1]);
      assert CreatedCount(ls, i, j) * RowMaxAttempts(c)
          == CreatedCount(ls, i, j - 1) * RowMaxAttempts(c) + One(ls[j - 1].Create?) * RowMaxAttempts(c);
    }
  }

  /** A row the retry path still has to deal with. */
  ghost predicate Retryable(s: State, id: Id) {
    id in s.recs && s.recs[id].row.status == Pending && s.recs[id].row.attemptCount >= 1
  }

  ghost predicate Drained(s: State) {
    forall id :: !Retryable(s, id)
  }

  lemma LeftWhenRetryable(c: Config, s: State, id: Id)
    requires RowsOk(c, s) && Retryable(s, id) && RowMaxAttempts(c) >= 1
    ensures TotalLeft(s) >= 1
  {
    hide RecOk, FromRequest;
    MaxOf(c, s, id);
    PendingRoom(c, s, id);
    SumLeftOut(s.recs, s.recs.Keys, id);
  }

  // ---- the retry path of one claim -------------------------------------

  /** x is taking id along the retry path: an open or committed claim, a retry message, or its consumer. */
  predicate Carries(x: Proc, id: Id) {
    match x
    case ClaimOpen(_, _, ids) => id in ids
    case ClaimPublishing(_, ids) => id in ids
    case RetryQueued(i, _) => i == id
    case RetryReady(i, _, _) => i == id
    case Done(i, first, _, _, _) => i == id && !first
    case _ => false
  }

  /** The move gives id up: a rollback, crash, lost message, lost write or failed publication. */
  predicate Loses(x: Proc, a: Act, id: Id) {
    Carries(x, id) && (a.Drop? || (a.SkipRetry? && x.ClaimPublishing? && x.ids[0] == id))
  }

  /** Whoever carries id hands it on, finds its row no longer pending, or writes. */
  lemma CarriesOn(c: Config, s: State, x: Proc, a: Act, id: Id)
    requires ProcOk(c, s, x) && CanMove(c, s, x, a) && Carries(x, id) && !Loses(x, a, id)
    ensures || (After(c, s, x, a).Some? && Carries(After(c, s, x, a).value, id))
            || (Spawn(c, s, x, a).Some? && Carries(Spawn(c, s, x, a).value, id))
            || (a.ReadRow? && id in s.recs && !RetryGuard(s.recs[id].row))
            || (a.Write? && x.Done? && x.id == id)
  {
    if x.ClaimPublishing? && !a.Drop? {
      assert x.ids == [x.ids[0]] + x.ids[1..];
    }
  }

  ghost predicate Carried(s: State, id: Id) {
    exists p :: p in s.procs && Carries(s.procs[p], id)
  }

  lemma CarriedAfter(c: Config, s: State, p: nat, a: Act, id: Id)
    requires Inv(c, s) && Enabled(c, s, Move(p, a))
    requires || (After(c, s, s.procs[p], a).Some? && Carries(After(c, s, s.procs[p], a).value, id))
             || (Spawn(c, s, s.procs[p], a).Some? && Carries(Spawn(c, s, s.procs[p], a).value, id))
    ensures Carried(Apply(c, s, Move(p, a)), id)
  {
    hide RowsOk, Exclusive, ProcOk, CanMove, After, Spawn, Carries, RecsAfter, KeysAfter, MailAfter;
    var s' := Apply(c, s, Move(p, a));
    if After(c, s, s.procs[p], a).Some? && Carries(After(c, s, s.procs[p], a).value, id) {
      assert s'.procs[p] == After(c, s, s.procs[p], a).value;
    } else {
      assert s'.procs[s.next] == Spawn(c, s, s.procs[p], a).value;
    }
  }

  /** An outcome is recorded: the write of a pending row adds its event. */
  lemma WriteRecords(c: Config, s: State, p: nat)
    requires Inv(c, s) && Enabled(c, s, Move(p, Write)) && RecordsFailures(c, s.clock)
    requires s.recs[s.procs[p].id].row.status == Pending
    ensures Processes(c, s, Move(p, Write))
  {
    hide RecordsFailures, FailureResult, ProcOk, Exclusive, FromRequest, RecOk;
    var id := s.procs[p].id;
    MaxOf(c, s, id);
    OneAttempt(c, s.clock);
    PendingRoom(c, s, id);
    if !s.procs[p].ok {
      Recorded(c, s.recs[id].row, s.clock);
    }
  }

  lemma OneAttempt(c: Config, until: Time)
    requires RecordsFailures(c, until)
    ensures RowMaxAttempts(c) >= 1
  {
  }

  lemma SettledLeft(row: Notification)
    ensures row.status != Pending ==> Left(row) == 0
  {
  }

  lemma GuardIsPending(c: Config, s: State, id: Id)
    requires Inv(c, s) && id in s.recs && s.recs[id].row.attemptCount >= 1 && RowMaxAttempts(c) >= 1
    ensures RetryGuard(s.recs[id].row) <==> s.recs[id].row.status == Pending
  {
    hide RecOk, FromRequest, ProcOk, Exclusive;
    MaxOf(c, s, id);
    PendingRoom(c, s, id);
  }

  /** The row has used up an attempt since it had n left, or it is still on its way. */
  ghost predicate UsedOrCarried(s: State, id: Id, n: nat) {
    id in s.recs && s.recs[id].row.attemptCount >= 1 && Left(s.recs[id].row) <= n
    && (Left(s.recs[id].row) < n || Carried(s, id))
  }

  /** Unless something is lost, a claimed row stays on its way until an attempt of it is used up. */
  lemma CarriedStep(c: Config, s: State, l: Label, id: Id, n: nat)
    requires Enabled(c, s, l) && (l.Move? ==> !Loses(s.procs[l.p], l.a, id))
    requires Inv(c, s) && RecordsFailures(c, s.clock) && n >= 1 && UsedOrCarried(s, id, n)
    ensures UsedOrCarried(Apply(c, s, l), id, n)
  {
    hide Inv, CanMove, Apply, RecAfter, Left, Loses, Carries, RecordsFailures, WriteEvent;
    OneAttempt(c, s.clock);
    LeftStep(c, s, l, id);
    OneRowStep(c, s, l, id);
    if Left(s.recs[id].row) == n {
      var p :| p in s.procs && Carries(s.procs[p], id);
      BelowNext(c, s, p);
      if l.Move? && l.p == p {
        MovedCarrier(c, s, p, l.a, id, n);
      } else {
        StaysPut(c, s, l, p);
      }
    }
  }

  /** Process p, which carries id, makes a move that does not lose it. */
  ghost predicate Forwards(s: State, p: nat, a: Act, id: Id) {
    p in s.procs && Carries(s.procs[p], id) && !Loses(s.procs[p], a, id)
  }

  lemma MovedCarrier(c: Config, s: State, p: nat, a: Act, id: Id, n: nat)
    requires Enabled(c, s, Move(p, a)) && Forwards(s, p, a, id)
    requires id in s.recs && s.recs[id].row.attemptCount >= 1 && Left(s.recs[id].row) == n && n >= 1
    requires Inv(c, s) && RecordsFailures(c, s.clock)
    ensures Carried(Apply(c, s, Move(p, a)), id) || Left(RecAfter(c, s, Move(p, a), id).row) < n
  {
    hide Inv, CanMove, Apply, RecAfter, Left, Loses, Carries, RecordsFailures, WriteEvent, Carried;
    OneAttempt(c, s.clock);
    BelowNext(c, s, p);
    CarriesOn(c, s, s.procs[p], a, id);
    SettledLeft(s.recs[id].row);
    GuardIsPending(c, s, id);
    if a.Write? && s.procs[p].Done? && s.procs[p].id == id {
      WriteRecords(c, s, p);
      InvMax(c, s, id);
      LeftStep(c, s, Move(p, a), id);
    } else if !(a.ReadRow? && !RetryGuard(s.recs[id].row)) {
      CarriedAfter(c, s, p, a, id);
    }
  }

  lemma InvMax(c: Config, s: State, id: Id)
    requires Inv(c, s) && id in s.recs
    ensures s.recs[id].row.maxAttempts == RowMaxAttempts(c)
  {
    MaxOf(c, s, id);
  }

  // ---- rounds ----------------------------------------------------------

  ghost predicate NoOpenClaims(s: State) {
    forall p | p in s.procs :: !s.procs[p].ClaimOpen?
  }

  lemma DueBy(c: Config, s: State, id: Id)
    requires Inv(c, s) && Retryable(s, id) && RowMaxAttempts(c) >= 1
    ensures RetryGuard(s.recs[id].row) && DueForRetry(s.recs[id].row, s.clock + Horizon(c))
  {
    hide FromRequest, ProcOk, Exclusive, Legal;
    MaxOf(c, s, id);
    assert RowOk(c, s.clock, s.recs[id], id);
    DueWithin(c, s.recs[id].row.maxAttempts, s.recs[id].hist, s.clock);
  }

  /**
   With no claim open, a claim query that looks max(lease, cap) past the clock finds something as long as a
   row with a recorded failure is pending, whatever rows the unordered LIMIT chooses.
   */
  lemma AnswerNotEmpty(c: Config, s: State, ids: seq<Id>, batch: int, now: Time)
    requires Inv(c, s) && NoOpenClaims(s) && !Drained(s) && RowMaxAttempts(c) >= 1
    requires batch >= 1 && now >= s.clock + Horizon(c) && IsLockResult(TableOf(s), LockedIds(s), ids, batch, now)
    ensures ids != []
  {
    hide Inv, DueForRetry;
    var id :| Retryable(s, id);
    DueBy(c, s, id);
    DueLater(s.recs[id].row, s.clock + Horizon(c), now);
    assert TableOf(s)[id] == s.recs[id].row;
  }

  lemma DueLater(row: Notification, early: Time, late: Time)
    requires DueForRetry(row, early) && early <= late
    ensures DueForRetry(row, late)
  {
  }

  /**
   Steps i to j of a run are a round: max(lease, cap) passes with no claim open, a pass starts and locks
   whatever the query answers, and from then on, between steps of anything else, nothing of that claim is
   lost until none of it is under way any more.
   */
  ghost predicate Round(c: Config, ss: seq<State>, ls: seq<Label>, i: nat, j: nat)
    requires IsPath(c, ss, ls)
  {
    && i + 3 <= j <= |ls|
    && NoOpenClaims(ss[i])
    && ls[i].Tick? && ls[i].t >= ss[i].clock + Horizon(c)
    && ls[i + 1].StartClaim?
    && ls[i + 2].Move? && ls[i + 2].p == ss[i + 1].next && ls[i + 2].a.Lock?
    && (forall k, id :: i + 3 <= k < j && ls[k].Move? && id in ls[i + 2].a.ids ==>
          !Loses(ss[k].procs[ls[k].p], ls[k].a, id))
    && (forall id :: id in ls[i + 2].a.ids ==> !Carried(ss[j], id))
  }

  /** Starting a pass after a tick changes no row and opens no claim. */
  lemma PassStarts(c: Config, s: State, t: Time, batch: int)
    requires NoOpenClaims(s) && Enabled(c, s, Tick(t)) && batch > 0
    ensures Enabled(c, Apply(c, s, Tick(t)), StartClaim(batch))
    ensures var s2 := Apply(c, Apply(c, s, Tick(t)), StartClaim(batch));
            && s2.recs == s.recs && NoOpenClaims(s2) && LockedIds(s2) == {} && LockedIds(s) == {}
            && s2.clock == t && s2.next == s.next + 2
            && s.next + 1 in s2.procs && s2.procs[s.next + 1] == ClaimLocking(t, batch)
  {
    var s1 := Apply(c, s, Tick(t));
    assert s1.recs == s.recs && s1.procs == s.procs;
    var s2 := Apply(c, s1, StartClaim(batch));
    assert s2.recs == s1.recs;
  }

  lemma LockOpens(c: Config, s: State, p: nat, ids: seq<Id>)
    requires Enabled(c, s, Move(p, Lock(ids))) && NoOpenClaims(s)
    ensures var s' := Apply(c, s, Move(p, Lock(ids)));
            && s'.recs == s.recs && s'.clock == s.clock && s'.next == s.next + 1
            && p in s'.procs && s'.procs[p] == ClaimOpen(s.procs[p].now, s.procs[p].batch, ids)
            && (forall q | q in s'.procs && q != p :: !s'.procs[q].ClaimOpen?)
            && forall id | id in ids :: Carried(s', id)
  {
    hide IsLockResult;
    var s' := Apply(c, s, Move(p, Lock(ids)));
    assert s'.recs == s.recs;
    assert s'.procs[p] == ClaimOpen(s.procs[p].now, s.procs[p].batch, ids);
    forall id | id in ids ensures Carried(s', id) {
      assert Carries(s'.procs[p], id);
    }
  }

  /** Every row the query answers has a recorded failure and is pending. */
  lemma AnswerRetryable(s: State, ids: seq<Id>, batch: int, now: Time)
    requires IsLockResult(TableOf(s), LockedIds(s), ids, batch, now)
    ensures DistinctIds(ids) && forall id | id in ids :: Retryable(s, id) && RetryGuard(s.recs[id].row)
  {
    forall id | id in ids ensures Retryable(s, id) && RetryGuard(s.recs[id].row) {
      assert DueForRetry(TableOf(s)[id], now);
    }
  }

  /** What the first three steps of a round lead to, whatever the query answered. */
  lemma RoundOpens(c: Config, s: State, t: Time, batch: int, ids: seq<Id>)
    requires Inv(c, s) && NoOpenClaims(s) && RowMaxAttempts(c) >= 1 && t >= s.clock + Horizon(c) && batch > 0
    requires Enabled(c, s, Tick(t)) && Enabled(c, Apply(c, s, Tick(t)), StartClaim(batch))
    requires Enabled(c, Apply(c, Apply(c, s, Tick(t)), StartClaim(batch)), Move(s.next + 1, Lock(ids)))
    ensures var s3 := Apply(c, Apply(c, Apply(c, s, Tick(t)), StartClaim(batch)), Move(s.next + 1, Lock(ids)));
            s3.recs == s.recs && forall id | id in ids :: Carried(s3, id)
    ensures DistinctIds(ids) && forall id | id in ids :: Retryable(s, id) && RetryGuard(s.recs[id].row)
    ensures !Drained(s) ==> ids != []
  {
    hide Inv, IsLockResult, Apply, Drained, Retryable, NoOpenClaims, Carried;
    PassStarts(c, s, t, batch);
    var s2 := Apply(c, Apply(c, s, Tick(t)), StartClaim(batch));
    LockOpens(c, s2, s.next + 1, ids);
    SameTable(s, s2);
    AnswerRetryable(s, ids, batch, t);
    if !Drained(s) {
      AnswerNotEmpty(c, s, ids, batch, t);
    }
  }

  lemma SameTable(s: State, s': State)
    requires s.recs == s'.recs
    ensures TableOf(s) == TableOf(s')
  {
  }

  /** Rows stay and none gains attempts. */
  lemma {:induction false} LeftBetween(c: Config, ss: seq<State>, ls: seq<Label>, i: nat, j: nat)
    requires IsRun(c, ss, ls) && i <= j <= |ls|
    ensures ss[i].recs.Keys <= ss[j].recs.Keys && ss[i].clock <= ss[j].clock
    ensures forall id | id in ss[i].recs :: id in ss[j].recs && Left(ss[j].recs[id].row) <= Left(ss[i].recs[id].row)
  {
    hide Inv, Enabled, Apply, Left;
    if i < j {
      LeftBetween(c, ss, ls, i, j - 1);
      InvAlways(c, ss, ls, j - 1);
      KeysGrow(c, ss[j - 1], ls[j - 1]);
      forall id | id in ss[i].recs ensures id in ss[j].recs && Left(ss[j].recs[id].row) <= Left(ss[i].recs[id].row) {
        LeftStep(c, ss[j - 1], ls[j - 1], id);
        OneRowStep(c, ss[j - 1], ls[j - 1], id);
      }
    }
  }

  lemma KeysGrow(c: Config, s: State, l: Label)
    requires Enabled(c, s, l)
    ensures Apply(c, s, l).recs.Keys == s.recs.Keys + if l.Create? then {l.id} else {}
    ensures s.clock <= Apply(c, s, l).clock
  {
    hide RecAfter, KeysAfter, ProcsAfter, MailAfter, CanMove;
  }

  ghost function NewIds(s: State, s': State): set<Id> {
    s'.recs.Keys - s.recs.Keys
  }

  /** The rows there are more at j than at i were created in between. */
  lemma {:induction false} CreatedKeys(c: Config, ss: seq<State>, ls: seq<Label>, i: nat, j: nat)
    requires IsPath(c, ss, ls) && i <= j <= |ls|
    ensures |NewIds(ss[i], ss[j])| <= CreatedCount(ls, i, j)
  {
    hide Enabled, Apply, NewIds;
    if i < j {
      CreatedKeys(c, ss, ls, i, j - 1);
      NewIdsStep(c, ss[i], ss[j - 1], ls[j - 1]);
    } else {
      NoNewIds(ss[i]);
    }
  }

  lemma NoNewIds(s: State)
    ensures NewIds(s, s) == {}
  {
  }

  lemma NewIdsStep(c: Config, first: State, s: State, l: Label)
    requires Enabled(c, s, l)
    ensures |NewIds(first, Apply(c, s, l))| <= |NewIds(first, s)| + One(l.Create?)
  {
    hide Enabled, Apply;
    KeysGrow(c, s, l);
    Added(first.recs.Keys, s.recs.Keys, Apply(c, s, l).recs.Keys, l);
  }

  lemma Added(kept: set<Id>, before: set<Id>, after: set<Id>, l: Label)
    requires after == before + if l.Create? then {l.id} else {}
    ensures |after - kept| <= |before - kept| + One(l.Create?)
  {
    Subset(after - kept, (before - kept) + if l.Create? then {l.id} else {});
  }

  lemma {:induction false} Subset(a: set<Id>, b: set<Id>)
    requires a <= b
    ensures |a| <= |b|
  {
    if a != {} {
      var id :| id in a;
      Subset(a - {id}, b - {id});
    }
  }

  lemma {:induction false} SumLeftMore(recs: map<Id, Rec>, all: set<Id>, kept: set<Id>, max: nat)
    requires kept <= all <= recs.Keys && forall id | id in all :: Left(recs[id].row) <= max
    ensures SumLeft(recs, all) <= SumLeft(recs, kept) + |all - kept| * max
    decreases all
  {
    hide Left;
    if all == kept {
      assert all - kept == {};
    } else {
      var id :| id in all && id !in kept;
      SumLeftOut(recs, all, id);
      SumLeftMore(recs, all - {id}, kept, max);
      assert all - {id} - kept == (all - kept) - {id};
      assert |all - kept| * max == (|all - kept| - 1) * max + max;
    }
  }

  /** Rows created since i have at most max_attempts attempts each. */
  lemma LeftOfCreated(c: Config, ss: seq<State>, ls: seq<Label>, i: nat, j: nat)
    requires IsRun(c, ss, ls) && i <= j <= |ls| && RowMaxAttempts(c) >= 1
    ensures ss[i].recs.Keys <= ss[j].recs.Keys
    ensures TotalLeft(ss[j]) <= SumLeft(ss[j].recs, ss[i].recs.Keys) + CreatedCount(ls, i, j) * RowMaxAttempts(c)
  {
    hide Enabled, Apply, RecOk, FromRequest, ProcsOk, Exclusive;
    LeftBetween(c, ss, ls, i, j);
    InvAlways(c, ss, ls, j);
    forall id | id in ss[j].recs ensures Left(ss[j].recs[id].row) <= RowMaxAttempts(c) {
      MaxOf(c, ss[j], id);
    }
    hide Left;
    SumLeftMore(ss[j].recs, ss[j].recs.Keys, ss[i].recs.Keys, RowMaxAttempts(c));
    CreatedKeys(c, ss, ls, i, j);
    Times(|NewIds(ss[i], ss[j])|, CreatedCount(ls, i, j), RowMaxAttempts(c));
  }

  lemma Times(a: int, b: int, k: int)
    requires a <= b && k >= 0
    ensures a * k <= b * k
  {
  }

  /** Each row the round locked is used up or still under way at every later point of it. */
  lemma {:induction false} CarriedThrough(c: Config, ss: seq<State>, ls: seq<Label>, k: nat, j: nat, id: Id, n: nat)
    requires IsRun(c, ss, ls) && k <= j <= |ls| && RecordsFailures(c, ss[j].clock) && n >= 1
    requires UsedOrCarried(ss[k], id, n)
    requires forall m :: k <= m < j && ls[m].Move? ==> !Loses(ss[m].procs[ls[m].p], ls[m].a, id)
    ensures UsedOrCarried(ss[j], id, n)
    decreases j - k
  {
    hide Inv, Apply, UsedOrCarried, Loses, CanMove, RecordsFailures;
    if k < j {
      InvAlways(c, ss, ls, k);
      LeftBetween(c, ss, ls, k, j);
      RecordsEarlier(c, ss[j].clock, ss[k].clock);
      CarriedStep(c, ss[k], ls[k], id, n);
      CarriedThrough(c, ss, ls, k + 1, j, id, n);
    }
  }

  lemma {:induction false} SumLeftDrop(recs: map<Id, Rec>, recs': map<Id, Rec>, all: set<Id>, ids: seq<Id>)
    requires all <= recs.Keys && all <= recs'.Keys && DistinctIds(ids)
    requires forall id | id in all :: Left(recs'[id].row) <= Left(recs[id].row)
    requires forall id | id in ids :: id in all && Left(recs'[id].row) < Left(recs[id].row)
    ensures SumLeft(recs', all) + |ids| <= SumLeft(recs, all)
  {
    hide Left;
    if ids == [] {
      SumLeftMonotone(recs, recs', all);
    } else {
      SumLeftOut(recs, all, ids[0]);
      SumLeftOut(recs', all, ids[0]);
      assert forall k :: 0 <= k < |ids[1..]| ==> ids[1..][k] == ids[k + 1];
      SumLeftDrop(recs, recs', all - {ids[0]}, ids[1..]);
    }
  }

  /** A round uses up an attempt of every row its query answered, and answered some unless all were drained. */
  lemma RoundProgress(c: Config, ss: seq<State>, ls: seq<Label>, i: nat, j: nat)
    requires IsRun(c, ss, ls) && j <= |ls| && Round(c, ss, ls, i, j) && RecordsFailures(c, ss[j].clock)
    ensures var ids := ls[i + 2].a.ids;
            && (forall id | id in ids ::
                  id in ss[i].recs && id in ss[j].recs && Left(ss[j].recs[id].row) < Left(ss[i].recs[id].row))
            && TotalLeft(ss[j]) + |ids| <= TotalLeft(ss[i]) + CreatedCount(ls, i, j) * RowMaxAttempts(c)
            && (!Drained(ss[i]) ==> ids != [])
  {
    hide Inv, Apply, CanMove, Loses, Left, Drained, RecordsFailures, NoOpenClaims, Carried, TotalLeft;
    var ids := ls[i + 2].a.ids;
    OneAttempt(c, ss[j].clock);
    InvAlways(c, ss, ls, i);
    LeftBetween(c, ss, ls, i, j);
    NextIs(c, ss[i], ls[i]);
    RoundOpens(c, ss[i], ls[i].t, ls[i + 1].batch, ids);
    forall id | id in ids
      ensures id in ss[i].recs && id in ss[j].recs && Left(ss[j].recs[id].row) < Left(ss[i].recs[id].row)
    {
      var n := Left(ss[i].recs[id].row);
      GuardLeft(ss[i].recs[id].row);
      CarriedThrough(c, ss, ls, i + 3, j, id, n);
    }
    TotalIs(ss[i]);
    LeftOfCreated(c, ss, ls, i, j);
    SumLeftDrop(ss[i].recs, ss[j].recs, ss[i].recs.Keys, ids);
  }

  lemma TotalIs(s: State)
    ensures TotalLeft(s) == SumLeft(s.recs, s.recs.Keys)
  {
  }

  lemma GuardLeft(row: Notification)
    requires RetryGuard(row)
    ensures Left(row) >= 1
  {
  }

  lemma NextIs(c: Config, s: State, l: Label)
    requires Enabled(c, s, l)
    ensures Apply(c, s, l).next == s.next + 1
  {
    hide RecsAfter, KeysAfter, ProcsAfter, MailAfter, CanMove;
  }

  /** cuts splits part of a run into rounds. */
  ghost predicate Rounds(c: Config, ss: seq<State>, ls: seq<Label>, cuts: seq<nat>)
    requires IsPath(c, ss, ls)
  {
    && (forall k :: 0 <= k < |cuts| ==> cuts[k] <= |ls|)
    && (forall k :: 0 <= k < |cuts| - 1 ==> Round(c, ss, ls, cuts[k], cuts[k + 1]))
  }

  lemma {:induction false} RoundsLeft(c: Config, ss: seq<State>, ls: seq<Label>, cuts: seq<nat>, k: nat)
    requires IsRun(c, ss, ls) && RecordsFailures(c, ss[|ls|].clock) && Rounds(c, ss, ls, cuts) && k < |cuts|
    requires forall j :: 0 <= j < k ==> !Drained(ss[cuts[j]])
    ensures cuts[0] <= cuts[k]
    ensures TotalLeft(ss[cuts[k]]) + k <= TotalLeft(ss[cuts[0]]) + CreatedCount(ls, cuts[0], cuts[k]) * RowMaxAttempts(c)
  {
    hide Enabled, Apply, Drained, TotalLeft, RecordsFailures, Round;
    if k > 0 {
      RoundsLeft(c, ss, ls, cuts, k - 1);
      assert Round(c, ss, ls, cuts[k - 1], cuts[k - 1 + 1]);
      RoundForward(c, ss, ls, cuts[k - 1], cuts[k]);
      ClockGrows(c, ss, ls, cuts[k]);
      RecordsEarlier(c, ss[|ls|].clock, ss[cuts[k]].clock);
      RoundProgress(c, ss, ls, cuts[k - 1], cuts[k]);
      CreatedAdds(ls, cuts[0], cuts[k - 1], cuts[k], RowMaxAttempts(c));
    }
  }

  lemma RoundForward(c: Config, ss: seq<State>, ls: seq<Label>, i: nat, j: nat)
    requires IsPath(c, ss, ls) && Round(c, ss, ls, i, j)
    ensures i <= j <= |ls|
  {
  }

  lemma {:induction false} CreatedAdds(ls: seq<Label>, i: nat, j: nat, k: nat, max: int)
    requires i <= j <= k <= |ls|
    ensures CreatedCount(ls, i, k) == CreatedCount(ls, i, j) + CreatedCount(ls, j, k)
    ensures CreatedCount(ls, i, k) * max == CreatedCount(ls, i, j) * max + CreatedCount(ls, j, k) * max
  {
    if j < k {
      CreatedAdds(ls, i, j, k - 1, 0);
    }
    Distributes(CreatedCount(ls, i, j), CreatedCount(ls, j, k), max);
  }

  lemma Distributes(a: int, b: int, k: int)
    ensures (a + b) * k == a * k + b * k
  {
  }

  lemma ClockGrows(c: Config, ss: seq<State>, ls: seq<Label>, i: nat)
    requires IsRun(c, ss, ls) && i <= |ls|
    ensures ss[i].clock <= ss[|ls|].clock
  {
    hide Enabled, Apply;
    GrowsBetween(c, ss, ls, i, |ls|);
  }

  /** Attempts left after i steps, and those that creations add from then on. */
  ghost function DrainBudget(c: Config, ss: seq<State>, ls: seq<Label>, i: nat): int
    requires i <= |ls| < |ss|
  {
    TotalLeft(ss[i]) + CreatedCount(ls, i, |ls|) * RowMaxAttempts(c)
  }

  lemma BudgetIs(c: Config, ss: seq<State>, ls: seq<Label>, i: nat)
    requires i <= |ls| < |ss| && RowMaxAttempts(c) >= 1
    ensures DrainBudget(c, ss, ls, i) == TotalLeft(ss[i]) + CreatedCount(ls, i, |ls|) * RowMaxAttempts(c) >= 0
  {
    Times(0, CreatedCount(ls, i, |ls|), RowMaxAttempts(c));
  }

  /**
   Draining terminates: however the unordered LIMIT chose, whatever the providers answered, whichever batch
   sizes were used and whatever else ran in between, creations included, within as many rounds as there were
   attempts left, or added by creations, a round starts or ends with no pending row that has a recorded failure.
   */
  lemma DrainTerminates(c: Config, ss: seq<State>, ls: seq<Label>, cuts: seq<nat>)
    requires IsRun(c, ss, ls) && RecordsFailures(c, ss[|ls|].clock) && cuts != [] && Rounds(c, ss, ls, cuts)
    requires |cuts| > DrainBudget(c, ss, ls, cuts[0])
    ensures exists k :: 0 <= k < |cuts| && k <= DrainBudget(c, ss, ls, cuts[0]) && Drained(ss[cuts[k]])
  {
    hide Enabled, Apply, TotalLeft, Round, RecordsFailures, Drained, DrainBudget;
    OneAttempt(c, ss[|ls|].clock);
    BudgetIs(c, ss, ls, cuts[0]);
    var n: nat := DrainBudget(c, ss, ls, cuts[0]);
    if forall j :: 0 <= j < n ==> !Drained(ss[cuts[j]]) {
      RoundsLeft(c, ss, ls, cuts, n);
      CreatedAdds(ls, cuts[0], cuts[n], |ls|, RowMaxAttempts(c));
      Times(0, CreatedCount(ls, cuts[n], |ls|), RowMaxAttempts(c));
      NothingRetryable(c, ss, ls, cuts[n]);
    }
  }

  lemma NothingRetryable(c: Config, ss: seq<State>, ls: seq<Label>, i: nat)
    requires IsRun(c, ss, ls) && i <= |ls| && RowMaxAttempts(c) >= 1 && TotalLeft(ss[i]) == 0
    ensures Drained(ss[i])
  {
    hide Enabled, Apply, TotalLeft, ProcsOk;
    InvAlways(c, ss, ls, i);
    forall id ensures !Retryable(ss[i], id) {
      if Retryable(ss[i], id) {
        LeftWhenRetryable(c, ss[i], id);
      }
    }
  }
}
