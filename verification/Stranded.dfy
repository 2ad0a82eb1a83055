/** A notification whose very first failure the database refuses is never sent again, in any continuation. */
module Stranded {
  import opened Model
  import opened Aggregate
  import opened Delivery
  import opened Rows
  import opened Protocol
  import opened Invariants
  import opened NeverEarly
  import opened Failures
  import opened AtMostOnce
  import opened Solo
  import opened Phases
  import opened Stuck

  /** An unscheduled row on its first attempt that nothing under way concerns. */
  ghost predicate Forgotten(s: State, id: Id) {
    && id in s.recs && s.recs[id].row.status == Pending
    && s.recs[id].row.attemptCount == 0 && s.recs[id].row.scheduledAt <= ZERO_TIME
    && forall p | p in s.procs :: !Concerns(s.procs[p], id)
  }

  /** x may yet do anything to id's row, or publish or send it. */
  ghost predicate Concerns(x: Proc, id: Id) {
    Active(x, id) || (x.EnqChecking? && x.id == id)
  }

  /** Neither query selects such a row, at any time. */
  lemma NeverSelected(row: Notification, notAfter: Time)
    requires row.attemptCount == 0 && row.scheduledAt <= ZERO_TIME
    ensures !DueForRetry(row, notAfter) && !DueScheduled(row, notAfter)
  {
  }

  /** No move makes a process concern it, or adds to its history. */
  ghost predicate Ignores(c: Config, s: State, x: Proc, a: Act, id: Id)
    requires CanMove(c, s, x, a) && id in s.recs
  {
    && MoveEvent(c, s, x, a, id).None?
    && (After(c, s, x, a).Some? ==> !Concerns(After(c, s, x, a).value, id))
    && (Spawn(c, s, x, a).Some? ==> !Concerns(Spawn(c, s, x, a).value, id))
  }

  lemma MoveIgnores(c: Config, s: State, x: Proc, a: Act, id: Id)
    requires CanMove(c, s, x, a) && id in s.recs && !Concerns(x, id)
    requires s.recs[id].row.attemptCount == 0 && s.recs[id].row.scheduledAt <= ZERO_TIME
    ensures Ignores(c, s, x, a, id)
  {
    if x.SchedLooping? {
      LoopIgnores(c, s, x, a, id);
    } else if a.Find? {
      FindsNoForgotten(s, a.found, x.batch, x.now, id);
    } else {
      hide SameBody, Rebuilt, Transit, NewRow;
      if a.Lock? {
        LocksNoWaiting(s, a.ids, x.batch, x.now, id);
      }
    }
  }

  lemma LoopIgnores(c: Config, s: State, x: Proc, a: Act, id: Id)
    requires CanMove(c, s, x, a) && id in s.recs && x.SchedLooping? && !Concerns(x, id)
    ensures Ignores(c, s, x, a, id)
  {
    hide Rebuilt, Transit, NXWins;
    if x.found != [] {
      FoundActive(x, id);
    }
  }

  lemma FindsNoForgotten(s: State, found: seq<Notification>, batch: int, now: Time, id: Id)
    requires IsFirstDue(TableOf(s), found, batch, now)
    requires id in s.recs && s.recs[id].row.scheduledAt <= ZERO_TIME
    ensures forall r | r in found :: r.id != id
  {
    forall r | r in found ensures r.id != id {
      assert TableOf(s)[r.id] == r;
    }
  }

  lemma ForgottenStep(c: Config, s: State, l: Label, id: Id)
    requires Inv(c, s) && Enabled(c, s, l) && Forgotten(s, id)
    ensures Forgotten(Apply(c, s, l), id) && Apply(c, s, l).recs[id] == s.recs[id]
    ensures !(l.Move? && l.p in s.procs && Delivers(s.procs[l.p], l.a, id))
  {
    hide RowsOk, Exclusive, ProcOk, CanMove, MoveEvent, After, Spawn, KeysAfter, MailAfter, Active, Delivers;
    var s' := Apply(c, s, l);
    if l.Move? {
      MoveIgnores(c, s, s.procs[l.p], l.a, id);
      if Delivers(s.procs[l.p], l.a, id) {
        DeliversActive(s.procs[l.p], l.a, id);
      }
    }
    forall q | q in s'.procs ensures !Concerns(s'.procs[q], id) {
      ProcOrigin(c, s, l, q);
      if !l.Move? && q !in s.procs {
        StartedInactive(s, l, s'.procs[q], id);
      }
    }
  }

  /** From then on, in every run: its record never changes, no step publishes or sends it, and no query selects it. */
  lemma {:induction false} ForgottenForever(c: Config, ss: seq<State>, ls: seq<Label>, i: nat, j: nat, id: Id)
    requires IsRun(c, ss, ls) && i <= j <= |ls| && Forgotten(ss[i], id)
    ensures Forgotten(ss[j], id) && ss[j].recs[id] == ss[i].recs[id]
    ensures forall at :: !DueForRetry(ss[j].recs[id].row, at) && !DueScheduled(ss[j].recs[id].row, at)
    ensures j < |ls| ==> !(ls[j].Move? && ls[j].p in ss[j].procs && Delivers(ss[j].procs[ls[j].p], ls[j].a, id))
  {
    hide Inv, Enabled, Apply, Delivers, Forgotten, DueForRetry, DueScheduled;
    if i < j {
      ForgottenForever(c, ss, ls, i, j - 1, id);
      InvAlways(c, ss, ls, j - 1);
      ForgottenStep(c, ss[j - 1], ls[j - 1], id);
    }
    InvAlways(c, ss, ls, j);
    if j < |ls| {
      ForgottenStep(c, ss[j], ls[j], id);
    }
    NeverFound(ss[j], id);
  }

  lemma NeverFound(s: State, id: Id)
    requires Forgotten(s, id)
    ensures id in s.recs && forall at :: !DueForRetry(s.recs[id].row, at) && !DueScheduled(s.recs[id].row, at)
  {
    forall at ensures !DueForRetry(s.recs[id].row, at) && !DueScheduled(s.recs[id].row, at) {
      NeverSelected(s.recs[id].row, at);
    }
  }

  /** The five steps: create, check, publish, send without success, write. */
  function FirstFailureLabels(id: Id, req: Request): seq<Label> {
    [Create(id, req), Move(0, Check), Move(0, PublishNow), Move(0, Send(false)), Move(0, Write)]
  }

  /**
   Exactly when the first failure cannot be recorded, an unscheduled notification that is enqueued, sent
   without success and written is left PENDING with no attempt and nothing under way.
   */
  lemma ForgottenExactly(c: Config, s: State, id: Id, req: Request) returns (t: Trace)
    requires Initial(s) && Deliverable(c, id, req) && req.scheduledAt.None?
    ensures IsRun(c, t.ss, t.ls) && t.ss[0] == s && t.ls == FirstFailureLabels(id, req)
    ensures WellDelivered(c, t.ss, t.ls, 5, id)
    ensures Forgotten(t.ss[5], id) <==> !FirstRecorded(c, s.clock)
  {
    hide Enabled, Apply, Benign, Timely, Shows, KeptBut, Refused, Validated, NewRow, Transit, FirstRecorded, FailureResult;
    var row := NewRow(c, req, id);
    NewRowIs(c, id, req);
    FirstRecordedIs(c, row, s.clock);
    var t1, v1 := Enqueued(c, s, id, req);
    var v: View;
    if FirstRecorded(c, s.clock) {
      t, v := Fails(c, s, t1, id, v1, 0);
      FailureCounts(c, row, s.clock);
    } else {
      t, v := LosesFailure(c, s, t1, id, v1, {}, 0);
    }
    AllKept(c, t, id);
    Unscheduled(c, id, req);
    ForgottenView(t.Last(), id, v);
  }

  lemma FailureCounts(c: Config, row: Notification, at: Time)
    requires FailureResult(c, row, at).Some?
    ensures FailureResult(c, row, at).value.attemptCount == row.attemptCount + 1
  {
  }

  lemma Unscheduled(c: Config, id: Id, req: Request)
    ensures req.scheduledAt.None? ==> NewRow(c, req, id).scheduledAt == ZERO_TIME
  {
  }

  lemma ForgottenView(s: State, id: Id, v: View)
    requires Shows(s, id, v) && v.procs.Keys == {}
    ensures Forgotten(s, id) <==>
            v.rec.row.status == Pending && v.rec.row.attemptCount == 0 && v.rec.row.scheduledAt <= ZERO_TIME
  {
  }
}
