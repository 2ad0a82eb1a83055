/** What every reachable state satisfies, with redelivery, loss, crashes and concurrent consumers allowed. */
module Invariants {
  import opened Wrappers
  import opened Model
  import opened Aggregate
  import opened Rows
  import opened Histories
  import opened Protocol

  /** The row was created for some request. */
  ghost predicate FromRequest(c: Config, row: Notification) {
    exists req :: SameBody(row, NewRow(c, req, row.id))
  }

  ghost predicate Attempted(s: State, id: Id) {
    id in s.recs && s.recs[id].row.attemptCount >= 1
  }

  ghost predicate ProcOk(c: Config, s: State, x: Proc) {
    match x
    case EnqChecking(id, req) => id in s.recs && SameBody(s.recs[id].row, NewRow(c, req, id))
    case EnqPublishing(id, req) => id in s.recs && SameBody(s.recs[id].row, NewRow(c, req, id))
    case SchedFinding(now, _) => now <= s.clock
    case SchedLooping(found, won, _) =>
      && DistinctIds(IdsOf(found))
      && (won ==> found != [])
      && forall r | r in found ::
           r.id in s.recs && SameBody(r, s.recs[r.id].row) && ZERO_TIME < r.scheduledAt <= s.clock
    case ClaimLocking(now, _) => now <= s.clock
    case ClaimOpen(now, batch, ids) =>
      && now <= s.clock && DistinctIds(ids) && |ids| <= batch
      && forall id | id in ids :: id in s.recs && DueForRetry(s.recs[id].row, now)
    case ClaimPublishing(_, ids) => DistinctIds(ids) && forall id | id in ids :: Attempted(s, id)
    case SendQueued(id, req, _) => id in s.recs && Delivered(req) == Delivered(Rebuilt(s.recs[id].row))
    case RetryQueued(id, _) => Attempted(s, id)
    case RetryReady(id, req, _) => Attempted(s, id) && req == Rebuilt(s.recs[id].row)
    case Done(id, first, _, at, _) => id in s.recs && ZERO_TIME < at <= s.clock && (!first ==> Attempted(s, id))
  }

  /** Open claim transactions hold disjoint row sets. */
  ghost predicate Exclusive(s: State) {
    forall p, q, id ::
      (p in s.procs && q in s.procs && s.procs[p].ClaimOpen? && s.procs[q].ClaimOpen?
       && id in s.procs[p].ids && id in s.procs[q].ids) ==> p == q
  }

  ghost predicate RowsOk(c: Config, s: State) {
    forall id | id in s.recs ::
      s.recs[id].row.id == id && FromRequest(c, s.recs[id].row) && RecOk(c, s.clock, s.recs[id])
  }

  ghost predicate ProcsOk(c: Config, s: State) {
    forall p | p in s.procs :: p < s.next && ProcOk(c, s, s.procs[p])
  }

  ghost predicate Inv(c: Config, s: State) {
    s.clock > ZERO_TIME && RowsOk(c, s) && ProcsOk(c, s) && Exclusive(s)
  }

  // ---- rows ------------------------------------------------------------

  /** Every event a step adds was allowed. */
  lemma EventAllowed(c: Config, s: State, x: Proc, a: Act, id: Id)
    requires s.clock > ZERO_TIME && ProcOk(c, s, x) && CanMove(c, s, x, a) && id in s.recs
    ensures var e := MoveEvent(c, s, x, a, id); e.Some? ==> EventOk(c, s.recs[id].row, s.clock, e.value)
  {
  }

  /** How rows and the clock may move. */
  ghost predicate RowGrows(row: Notification, row': Notification) {
    && SameBody(row, row')
    && (row.attemptCount >= 1 ==> row'.attemptCount >= 1)
    && (row.status != Pending ==> row'.status != Pending)
  }

  ghost predicate Grows(s: State, s': State) {
    && s.clock <= s'.clock
    && forall id | id in s.recs :: id in s'.recs && RowGrows(s.recs[id].row, s'.recs[id].row)
  }

  ghost predicate RowOk(c: Config, clock: Time, r: Rec, id: Id) {
    r.row.id == id && FromRequest(c, r.row) && RecOk(c, clock, r)
  }

  lemma RowOkAppend(c: Config, clock: Time, r: Rec, id: Id, e: Event)
    requires RowOk(c, clock, r, id) && EventOk(c, r.row, clock, e)
    ensures RowOk(c, clock, Append(c, r, e), id) && RowGrows(r.row, Append(c, r, e).row)
  {
    RecStep(c, clock, r, e);
    var req :| SameBody(r.row, NewRow(c, req, r.row.id));
    assert SameBody(Append(c, r, e).row, NewRow(c, req, r.row.id));
  }

  lemma RowOkTick(c: Config, clock: Time, clock': Time, r: Rec, id: Id)
    requires RowOk(c, clock, r, id) && clock <= clock'
    ensures RowOk(c, clock', r, id)
  {
  }

  lemma RowOkNew(c: Config, clock: Time, req: Request, id: Id)
    ensures RowOk(c, clock, Rec(NewRow(c, req, id), []), id)
  {
    assert SameBody(NewRow(c, req, id), NewRow(c, req, id));
  }

  lemma OneRowStep(c: Config, s: State, l: Label, id: Id)
    requires Inv(c, s) && Enabled(c, s, l) && id in s.recs
    ensures var s' := Apply(c, s, l);
            && id in s'.recs && s'.recs[id] == RecAfter(c, s, l, id)
            && RowOk(c, s'.clock, s'.recs[id], id) && RowGrows(s.recs[id].row, s'.recs[id].row)
  {
    hide RecOk, FromRequest, NewRow, CanMove, MoveEvent, EventOk, RowAfter, ProcOk, Exclusive;
    hide KeysAfter, ProcsAfter, MailAfter;
    var s' := Apply(c, s, l);
    if l.Move? {
      EventAllowed(c, s, s.procs[l.p], l.a, id);
      var e := EventOf(c, s, l, id);
      if e.Some? {
        RowOkAppend(c, s.clock, s.recs[id], id, e.value);
      }
    } else {
      RowOkTick(c, s.clock, s'.clock, s.recs[id], id);
    }
  }

  /** How a step changes the number of events of one kind. */
  lemma EventCounts(c: Config, s: State, l: Label, id: Id, k: Kind)
    requires Enabled(c, s, l) && id in s.recs
    ensures var e := EventOf(c, s, l, id);
            Count(RecAfter(c, s, l, id).hist, k) ==
            Count(s.recs[id].hist, k) + (if e.Some? && e.value.kind == k then 1 else 0)
  {
    hide CanMove, MoveEvent, RowAfter;
    var e := EventOf(c, s, l, id);
    if e.Some? {
      CountAppend(s.recs[id].hist, e.value, k);
    }
  }

  lemma RowsStep(c: Config, s: State, l: Label)
    requires Inv(c, s) && Enabled(c, s, l)
    ensures RowsOk(c, Apply(c, s, l)) && Grows(s, Apply(c, s, l))
  {
    hide RecOk, FromRequest, NewRow, CanMove, RecAfter, ProcOk, Exclusive, RowGrows;
    hide KeysAfter, ProcsAfter, MailAfter;
    var s' := Apply(c, s, l);
    forall id | id in s'.recs
      ensures RowOk(c, s'.clock, s'.recs[id], id)
      ensures id in s.recs ==> RowGrows(s.recs[id].row, s'.recs[id].row)
    {
      if id in s.recs {
        OneRowStep(c, s, l, id);
      } else {
        RowOkNew(c, s.clock, l.req, id);
      }
    }
  }

  // ---- processes -------------------------------------------------------

  /** Only a commit or a consumer's write changes a row. */
  lemma RowKept(c: Config, s: State, x: Proc, a: Act, id: Id)
    requires CanMove(c, s, x, a) && id in s.recs && !a.Commit? && !a.Write?
    ensures var e := MoveEvent(c, s, x, a, id); e.Some? ==> RowAfter(c, s.recs[id].row, e.value) == s.recs[id].row
  {
  }

  /** A row an open transaction holds is not written by anyone else. */
  lemma LockedRowKept(c: Config, s: State, l: Label, p: nat, id: Id)
    requires Inv(c, s) && Enabled(c, s, l) && id in s.recs
    requires p in s.procs && s.procs[p].ClaimOpen? && id in s.procs[p].ids && l != Move(p, Commit)
    ensures RecAfter(c, s, l, id).row == s.recs[id].row
  {
    hide RecOk, FromRequest, ProcOk, EventOk, RowAfter;
    assert Locked(s, id);
    if l.Move? && !l.a.Commit? && !l.a.Write? {
      RowKept(c, s, s.procs[l.p], l.a, id);
    }
  }

  /** A process that did not move stays well-formed. */
  lemma ProcKept(c: Config, s: State, s': State, x: Proc)
    requires ProcOk(c, s, x) && Grows(s, s')
    requires x.ClaimOpen? ==> forall id | id in x.ids :: id in s'.recs && s'.recs[id].row == s.recs[id].row
    ensures ProcOk(c, s', x)
  {
  }

  ghost predicate OptOk(c: Config, s: State, x: Option<Proc>) {
    x.Some? ==> ProcOk(c, s, x.value)
  }

  lemma CheckOk(c: Config, s: State, s': State, x: Proc)
    requires ProcOk(c, s, x) && CanMove(c, s, x, Check) && Grows(s, s')
    ensures OptOk(c, s', After(c, s, x, Check))
  {
  }

  lemma PublishNowOk(c: Config, s: State, s': State, x: Proc)
    requires ProcOk(c, s, x) && CanMove(c, s, x, PublishNow) && Grows(s, s')
    ensures OptOk(c, s', After(c, s, x, PublishNow))
  {
    PathsAgree(c, x.req, x.id, s.recs[x.id].row);
  }

  lemma FindOk(c: Config, s: State, s': State, x: Proc, found: seq<Notification>)
    requires ProcOk(c, s, x) && CanMove(c, s, x, Find(found)) && Grows(s, s')
    ensures OptOk(c, s', After(c, s, x, Find(found)))
  {
    forall r | r in found
      ensures r.id in s'.recs && SameBody(r, s'.recs[r.id].row) && ZERO_TIME < r.scheduledAt <= s'.clock
    {
      assert TableOf(s)[r.id] == r;
    }
  }

  lemma TailOk(c: Config, s: State, s': State, x: Proc)
    requires x.SchedLooping? && x.found != [] && ProcOk(c, s, x) && Grows(s, s')
    ensures ProcOk(c, s', SchedLooping(x.found[1..], false, None))
    ensures forall until :: ProcOk(c, s', SchedLooping(x.found, true, until))
    ensures x.found[0].id in s.recs && SameBody(x.found[0], s.recs[x.found[0].id].row)
  {
    hide SameBody, Rebuilt;
    forall r | r in x.found
      ensures r.id in s'.recs && SameBody(r, s'.recs[r.id].row) && ZERO_TIME < r.scheduledAt <= s'.clock
    {
      assert RowGrows(s.recs[r.id].row, s'.recs[r.id].row);
      SameBodyTrans(r, s.recs[r.id].row, s'.recs[r.id].row);
    }
    var ids, tail := IdsOf(x.found), IdsOf(x.found[1..]);
    assert forall i :: 0 <= i < |tail| ==> tail[i] == ids[i + 1];
    assert x.found[0] in x.found;
  }

  lemma SameBodyTrans(a: Notification, b: Notification, d: Notification)
    requires SameBody(a, b) && SameBody(b, d)
    ensures SameBody(a, d)
  {
  }

  lemma ScheduledRequest(c: Config, r: Notification, row: Notification)
    requires SameBody(r, row) && FromRequest(c, row) && row.id == r.id
    ensures Transit(Rebuilt(r), r.id) == Rebuilt(row)
  {
    var req :| SameBody(row, NewRow(c, req, row.id));
    RowRoundTrip(c, req, r.id, row);
  }

  lemma RebuiltSame(r: Notification, row: Notification)
    requires SameBody(r, row)
    ensures Rebuilt(r) == Rebuilt(row)
  {
  }

  lemma PublishScheduledOk(c: Config, s: State, s': State, x: Proc)
    requires ProcOk(c, s, x) && CanMove(c, s, x, PublishScheduled) && Grows(s, s') && RowsOk(c, s)
    ensures OptOk(c, s', After(c, s, x, PublishScheduled)) && OptOk(c, s', Spawn(c, s, x, PublishScheduled))
  {
    hide RecOk, SameBody, Rebuilt, FromRequest, Transit;
    TailOk(c, s, s', x);
    var r := x.found[0];
    ScheduledRequest(c, r, s.recs[r.id].row);
    assert RowGrows(s.recs[r.id].row, s'.recs[r.id].row);
    RebuiltSame(s.recs[r.id].row, s'.recs[r.id].row);
  }

  lemma CommitOk(c: Config, s: State, s': State, x: Proc)
    requires ProcOk(c, s, x) && CanMove(c, s, x, Commit) && Grows(s, s')
    ensures OptOk(c, s', After(c, s, x, Commit))
  {
    forall id | id in x.ids ensures Attempted(s', id) {
      assert DueForRetry(s.recs[id].row, x.now);
    }
  }

  lemma RetryTailOk(c: Config, s: State, s': State, x: Proc)
    requires ProcOk(c, s, x) && x.ClaimPublishing? && x.ids != [] && Grows(s, s')
    ensures ProcOk(c, s', ClaimPublishing(x.until, x.ids[1..]))
    ensures ProcOk(c, s', RetryQueued(x.ids[0], x.until))
  {
    ProcKept(c, s, s', x);
    assert x.ids[0] in x.ids;
  }

  lemma LockOk(c: Config, s: State, s': State, x: Proc, ids: seq<Id>)
    requires ProcOk(c, s, x) && CanMove(c, s, x, Lock(ids)) && s'.clock == s.clock
    requires forall id | id in s.recs :: id in s'.recs && s'.recs[id].row == s.recs[id].row
    ensures OptOk(c, s', After(c, s, x, Lock(ids)))
  {
  }

  lemma ReadRowOk(c: Config, s: State, s': State, x: Proc)
    requires ProcOk(c, s, x) && CanMove(c, s, x, ReadRow) && Grows(s, s')
    ensures OptOk(c, s', After(c, s, x, ReadRow))
  {
  }

  lemma SendOk(c: Config, s: State, s': State, x: Proc, ok: bool)
    requires ProcOk(c, s, x) && CanMove(c, s, x, Send(ok)) && Grows(s, s') && s.clock > ZERO_TIME
    ensures OptOk(c, s', After(c, s, x, Send(ok)))
  {
    hide SameBody, Rebuilt;
  }

  /** What a moving process becomes and starts is well-formed afterwards. */
  lemma MovedOk(c: Config, s: State, p: nat, a: Act)
    requires Inv(c, s) && Enabled(c, s, Move(p, a)) && Grows(s, Apply(c, s, Move(p, a)))
    ensures var s' := Apply(c, s, Move(p, a));
            OptOk(c, s', After(c, s, s.procs[p], a)) && OptOk(c, s', Spawn(c, s, s.procs[p], a))
  {
    hide RecOk, FromRequest, RowAfter, EventOk, Grows, ProcOk;
    hide ProcsAfter, KeysAfter, MailAfter, Apply;
    var s' := Apply(c, s, Move(p, a));
    var x := s.procs[p];
    match a
    case Check => CheckOk(c, s, s', x);
    case PublishNow => PublishNowOk(c, s, s', x);
    case Find(found) => FindOk(c, s, s', x, found);
    case SetNX => TailOk(c, s, s', x);
    case PublishScheduled => PublishScheduledOk(c, s, s', x);
    case SkipScheduled => TailOk(c, s, s', x);
    case Lock(ids) => LockStepOk(c, s, p, ids);
    case Commit => CommitOk(c, s, s', x);
    case PublishRetry => RetryTailOk(c, s, s', x);
    case SkipRetry => RetryTailOk(c, s, s', x);
    case ReadRow => ReadRowOk(c, s, s', x);
    case Send(ok) => SendOk(c, s, s', x, ok);
    case Write =>
    case Drop =>
    case Redeliver => ProcKept(c, s, s', x);
  }

  lemma LockStepOk(c: Config, s: State, p: nat, ids: seq<Id>)
    requires Inv(c, s) && Enabled(c, s, Move(p, Lock(ids)))
    ensures OptOk(c, Apply(c, s, Move(p, Lock(ids))), After(c, s, s.procs[p], Lock(ids)))
  {
    hide RecOk, FromRequest, RowAfter;
    LockOk(c, s, Apply(c, s, Move(p, Lock(ids))), s.procs[p], ids);
  }

  // ---- exclusivity -----------------------------------------------------

  lemma ExclusiveStep(c: Config, s: State, l: Label)
    requires Inv(c, s) && Enabled(c, s, l)
    ensures Exclusive(Apply(c, s, l))
  {
    hide RecOk, FromRequest, ProcOk, RecsAfter, KeysAfter, MailAfter;
    assert l.Move? && l.a.Lock? ==> forall id :: id in l.a.ids ==> !Locked(s, id);
  }

  lemma InvStep(c: Config, s: State, l: Label)
    requires Inv(c, s) && Enabled(c, s, l)
    ensures Inv(c, Apply(c, s, l)) && Grows(s, Apply(c, s, l))
  {
    hide RecOk, FromRequest, ProcOk, Exclusive, Grows, CanMove, RecAfter;
    var s' := Apply(c, s, l);
    RowsStep(c, s, l);
    ExclusiveStep(c, s, l);
    if l.Move? {
      MovedOk(c, s, l.p, l.a);
    }
    forall q | q in s'.procs ensures q < s'.next && ProcOk(c, s', s'.procs[q]) {
      if q in s.procs && s'.procs[q] == s.procs[q] {
        UnmovedOk(c, s, l, q);
      } else if !l.Move? {
        StartedOk(c, s, l);
      }
    }
  }

  lemma UnmovedOk(c: Config, s: State, l: Label, q: nat)
    requires Inv(c, s) && Enabled(c, s, l) && Grows(s, Apply(c, s, l))
    requires q in s.procs && q in Apply(c, s, l).procs && Apply(c, s, l).procs[q] == s.procs[q]
    ensures ProcOk(c, Apply(c, s, l), s.procs[q])
  {
    hide RecOk, FromRequest, Exclusive, Grows, RecAfter;
    var s' := Apply(c, s, l);
    var x := s.procs[q];
    if x.ClaimOpen? {
      forall id | id in x.ids ensures id in s'.recs && s'.recs[id].row == s.recs[id].row {
        LockedRowKept(c, s, l, q, id);
      }
    }
    ProcKept(c, s, s', x);
  }

  lemma StartedOk(c: Config, s: State, l: Label)
    requires Inv(c, s) && Enabled(c, s, l) && (l.Create? || l.StartScheduled? || l.StartClaim?)
    ensures s.next in Apply(c, s, l).procs && ProcOk(c, Apply(c, s, l), Apply(c, s, l).procs[s.next])
  {
    hide RecOk, FromRequest;
  }

  // ---- whole runs ------------------------------------------------------

  /** The invariant holds in every state of every run. */
  lemma {:induction false} InvAlways(c: Config, ss: seq<State>, ls: seq<Label>, i: nat)
    requires IsRun(c, ss, ls) && i <= |ls|
    ensures Inv(c, ss[i])
  {
    if i > 0 {
      InvAlways(c, ss, ls, i - 1);
      InvStep(c, ss[i - 1], ls[i - 1]);
    }
  }

  lemma {:induction false} GrowsBetween(c: Config, ss: seq<State>, ls: seq<Label>, i: nat, j: nat)
    requires IsRun(c, ss, ls) && i <= j <= |ls|
    ensures Grows(ss[i], ss[j])
  {
    hide Inv, Enabled, Apply, RowGrows;
    if i < j {
      GrowsBetween(c, ss, ls, i, j - 1);
      InvAlways(c, ss, ls, j - 1);
      InvStep(c, ss[j - 1], ls[j - 1]);
      forall id | id in ss[i].recs ensures id in ss[j].recs && RowGrows(ss[i].recs[id].row, ss[j].recs[id].row) {
        RowGrowsTrans(ss[i].recs[id].row, ss[j - 1].recs[id].row, ss[j].recs[id].row);
      }
    } else {
      forall id | id in ss[i].recs ensures RowGrows(ss[i].recs[id].row, ss[i].recs[id].row) {
        RowGrowsTrans(ss[i].recs[id].row, ss[i].recs[id].row, ss[i].recs[id].row);
      }
    }
  }

  lemma RowGrowsTrans(a: Notification, b: Notification, d: Notification)
    ensures RowGrows(a, a)
    ensures RowGrows(a, b) && RowGrows(b, d) ==> RowGrows(a, d)
  {
  }

  // ---- where processes come from ---------------------------------------

  datatype Origin = Unmoved | Moved | Spawned | Started

  /** How process q of the next state came about. */
  ghost function OriginOf(s: State, l: Label, q: nat): Origin {
    if l.Move? && q == l.p then Moved
    else if q in s.procs then Unmoved
    else if l.Move? then Spawned
    else Started
  }

  ghost predicate StartedBy(s: State, l: Label, x: Proc) {
    match l
    case Create(id, req) => x == EnqChecking(id, req)
    case StartScheduled(batch) => x == SchedFinding(s.clock, batch)
    case StartClaim(batch) => x == ClaimLocking(s.clock, batch)
    case _ => false
  }

  lemma ProcOrigin(c: Config, s: State, l: Label, q: nat)
    requires Enabled(c, s, l) && q in Apply(c, s, l).procs && forall p | p in s.procs :: p < s.next
    ensures var x' := Apply(c, s, l).procs[q];
            match OriginOf(s, l, q)
            case Unmoved => q in s.procs && x' == s.procs[q]
            case Moved => After(c, s, s.procs[l.p], l.a) == Some(x')
            case Spawned => q == s.next && Spawn(c, s, s.procs[l.p], l.a) == Some(x')
            case Started => q == s.next && StartedBy(s, l, x')
  {
    hide RecsAfter, KeysAfter, MailAfter, CanMove, After, Spawn;
  }

  lemma StaysPut(c: Config, s: State, l: Label, p: nat)
    requires Enabled(c, s, l) && p in s.procs && p < s.next && (l.Move? ==> l.p != p)
    ensures p in Apply(c, s, l).procs && p < Apply(c, s, l).next && Apply(c, s, l).procs[p] == s.procs[p]
  {
    hide CanMove, After, Spawn, RecsAfter, KeysAfter, MailAfter;
  }

  lemma BelowNext(c: Config, s: State, p: nat)
    requires Inv(c, s) && p in s.procs
    ensures p < s.next && ProcOk(c, s, s.procs[p])
  {
    hide RowsOk, Exclusive, ProcOk;
  }
}
