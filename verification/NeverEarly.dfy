/** No notification is published, retried or sent before its scheduled_at, in any run. */
module NeverEarly {
  import opened Json
  import opened Aggregate
  import opened Model
  import opened Rows
  import opened Histories
  import opened Protocol
  import opened Invariants

  /** x may yet publish or send notification id. */
  ghost predicate Active(x: Proc, id: Id) {
    match x
    case EnqPublishing(i, _) => i == id
    case SchedLooping(found, _, _) => exists r :: r in found && r.id == id
    case ClaimOpen(_, _, ids) => id in ids
    case ClaimPublishing(_, ids) => id in ids
    case SendQueued(i, _, _) => i == id
    case RetryQueued(i, _) => i == id
    case RetryReady(i, _, _) => i == id
    case Done(i, _, _, _, _) => i == id
    case _ => false
  }

  /** Nothing under way concerns id, and its first attempt is still to come. */
  ghost predicate Quiet(s: State, id: Id)
    requires id in s.recs
  {
    s.recs[id].row.attemptCount == 0 && forall p | p in s.procs :: !Active(s.procs[p], id)
  }

  /** The row's time is still to come. */
  ghost predicate Waiting(s: State, id: Id) {
    id in s.recs && s.recs[id].row.scheduledAt > s.clock
  }

  ghost predicate WaitingIsQuiet(s: State) {
    forall id | Waiting(s, id) :: Quiet(s, id)
  }

  /** What a move of x may not do to a waiting notification: touch its row, or make a process concern it. */
  ghost predicate LeavesAlone(c: Config, s: State, x: Proc, a: Act, id: Id)
    requires CanMove(c, s, x, a) && id in s.recs
  {
    && (MoveEvent(c, s, x, a, id).None? || a.Check?)
    && (After(c, s, x, a).Some? ==> !Active(After(c, s, x, a).value, id))
    && (Spawn(c, s, x, a).Some? ==> !Active(Spawn(c, s, x, a).value, id))
  }

  lemma StaysQuiet(c: Config, s: State, x: Proc, a: Act, id: Id)
    requires ProcOk(c, s, x) && CanMove(c, s, x, a) && id in s.recs && !Active(x, id)
    requires s.recs[id].row.attemptCount == 0 && s.recs[id].row.scheduledAt > s.clock > ZERO_TIME
    ensures LeavesAlone(c, s, x, a, id)
  {
    if x.SchedLooping? {
      LoopLeavesAlone(c, s, x, a, id);
    } else if a.Check? {
      if x.id == id {
        SameSchedule(c, s.recs[id].row, x.req, id);
      }
    } else if a.Find? {
      FindsNoWaiting(s, a.found, x.batch, x.now, id);
    } else {
      hide SameBody, Rebuilt, Transit, NewRow;
      if a.Lock? {
        LocksNoWaiting(s, a.ids, x.batch, x.now, id);
      }
    }
  }

  lemma LoopLeavesAlone(c: Config, s: State, x: Proc, a: Act, id: Id)
    requires CanMove(c, s, x, a) && id in s.recs && x.SchedLooping? && !Active(x, id)
    ensures LeavesAlone(c, s, x, a, id)
  {
    hide Rebuilt, Transit, NXWins, MarshalableParams;
    if x.found != [] {
      FoundActive(x, id);
    }
  }

  /** The check of a future scheduled_at defers. */
  lemma SameSchedule(c: Config, row: Notification, req: Request, id: Id)
    requires SameBody(row, NewRow(c, req, id)) && row.scheduledAt > ZERO_TIME
    ensures req.scheduledAt.Some? && req.scheduledAt.value == row.scheduledAt
  {
  }

  lemma LocksNoWaiting(s: State, ids: seq<Id>, batch: int, now: Time, id: Id)
    requires IsLockResult(TableOf(s), LockedIds(s), ids, batch, now)
    requires id in s.recs && s.recs[id].row.attemptCount == 0
    ensures id !in ids
  {
    assert TableOf(s)[id].attemptCount == 0;
  }

  lemma FindsNoWaiting(s: State, found: seq<Notification>, batch: int, now: Time, id: Id)
    requires IsFirstDue(TableOf(s), found, batch, now) && now <= s.clock
    requires id in s.recs && s.recs[id].row.scheduledAt > s.clock
    ensures forall r | r in found :: r.id != id
  {
    forall r | r in found ensures r.id != id {
      assert TableOf(s)[r.id] == r;
    }
  }

  lemma FoundActive(x: Proc, id: Id)
    requires x.SchedLooping? && x.found != [] && !Active(x, id)
    ensures x.found[0].id != id && forall until :: !Active(SchedLooping(x.found[1..], false, until), id)
  {
    assert x.found[0] in x.found;
    assert forall r :: r in x.found[1..] ==> r in x.found;
  }

  /** One step keeps a waiting notification untouched. */
  lemma WaitingStep(c: Config, s: State, l: Label, id: Id)
    requires Inv(c, s) && Enabled(c, s, l) && WaitingIsQuiet(s) && Waiting(Apply(c, s, l), id)
    ensures Quiet(Apply(c, s, l), id)
  {
    hide RecOk, FromRequest, CanMove, MoveEvent, After, Spawn, ProcOk, RowAfter, Active;
    var s' := Apply(c, s, l);
    if id in s.recs {
      OneRowStep(c, s, l, id);
      assert Waiting(s, id) && Quiet(s, id);
      if l.Move? {
        assert ProcOk(c, s, s.procs[l.p]);
        StaysQuiet(c, s, s.procs[l.p], l.a, id);
        CheckKeepsRow(c, s, s.procs[l.p], id, l);
      }
    }
    forall q | q in s'.procs ensures !Active(s'.procs[q], id) {
      ProcOrigin(c, s, l, q);
      if id !in s.recs {
        NewIdInactive(c, s, l, id, q);
      } else if !l.Move? && q !in s.procs {
        StartedInactive(s, l, s'.procs[q], id);
      }
    }
  }

  lemma CheckKeepsRow(c: Config, s: State, x: Proc, id: Id, l: Label)
    requires Enabled(c, s, l) && l.Move? && id in s.recs && x == s.procs[l.p]
    requires MoveEvent(c, s, x, l.a, id).None? || l.a.Check?
    ensures RecAfter(c, s, l, id).row == s.recs[id].row
  {
    if l.a.Check? {
      RowKept(c, s, x, l.a, id);
    }
  }

  lemma StartedInactive(s: State, l: Label, x: Proc, id: Id)
    requires StartedBy(s, l, x)
    ensures !Active(x, id)
  {
  }

  /** No process concerns a row that does not exist yet. */
  lemma NewIdInactive(c: Config, s: State, l: Label, id: Id, q: nat)
    requires Inv(c, s) && Enabled(c, s, l) && l.Create? && id !in s.recs && q in Apply(c, s, l).procs
    ensures !Active(Apply(c, s, l).procs[q], id)
  {
    hide RecOk, FromRequest, RecsAfter;
    if q in s.procs {
      assert ProcOk(c, s, s.procs[q]);
    }
  }

  lemma {:induction false} EarlyAlways(c: Config, ss: seq<State>, ls: seq<Label>, i: nat)
    requires IsRun(c, ss, ls) && i <= |ls|
    ensures WaitingIsQuiet(ss[i])
  {
    hide Inv, Enabled, Apply, Quiet;
    if i > 0 {
      EarlyAlways(c, ss, ls, i - 1);
      InvAlways(c, ss, ls, i - 1);
      forall id | Waiting(ss[i], id) ensures Quiet(ss[i], id) {
        WaitingStep(c, ss[i - 1], ls[i - 1], id);
      }
    }
  }

  /** The notification a step publishes or hands to SendNotification. */
  ghost predicate Delivers(x: Proc, a: Act, id: Id) {
    match a
    case PublishNow => x.EnqPublishing? && x.id == id
    case PublishScheduled => x.SchedLooping? && x.found != [] && x.found[0].id == id
    case PublishRetry => x.ClaimPublishing? && x.ids != [] && x.ids[0] == id
    case Send(_) => (x.SendQueued? || x.RetryReady?) && x.id == id
    case _ => false
  }

  /**
   Never early: every step of every run that publishes a notification to either queue or sends it,
   successfully or not, happens at or after the row's scheduled_at.
   */
  lemma NeverBeforeSchedule(c: Config, ss: seq<State>, ls: seq<Label>, i: nat, id: Id)
    requires IsRun(c, ss, ls) && i < |ls|
    requires ls[i].Move? && ls[i].p in ss[i].procs && Delivers(ss[i].procs[ls[i].p], ls[i].a, id)
    ensures id in ss[i].recs && ss[i].clock >= ss[i].recs[id].row.scheduledAt
  {
    hide Enabled, Apply, RowsOk, Exclusive;
    EarlyAlways(c, ss, ls, i);
    InvAlways(c, ss, ls, i);
    DeliversActive(ss[i].procs[ls[i].p], ls[i].a, id);
    assert ProcOk(c, ss[i], ss[i].procs[ls[i].p]);
    assert Waiting(ss[i], id) ==> Quiet(ss[i], id);
  }

  lemma DeliversActive(x: Proc, a: Act, id: Id)
    requires Delivers(x, a, id)
    ensures Active(x, id)
  {
    if x.SchedLooping? {
      assert x.found[0] in x.found;
    }
  }
}
