/**
 Runs of a system with one notification, built step by step: a view of the state, one lemma for each
 kind of step, and traces that record which delivery assumptions they have kept.
 */
module Solo {
  import opened Wrappers
  import opened Json
  import opened Model
  import opened Backoff
  import opened Aggregate
  import opened Delivery
  import opened Cache
  import opened Rows
  import opened Histories
  import opened Protocol
  import opened AtMostOnce

  // ---- states ----------------------------------------------------------

  /** All of a state with a single row but its mailboxes. */
  datatype View = View(clock: Time, rec: Rec, keys: Keys, procs: map<nat, Proc>, next: nat)

  ghost predicate Shows(s: State, id: Id, v: View) {
    && s.clock == v.clock > ZERO_TIME && s.recs == map[id := v.rec] && s.keys == v.keys && s.procs == v.procs
    && s.next == v.next && v.rec.row.id == id
    && forall p | p in v.procs :: p < v.next
  }

  lemma ViewBelow(s: State, id: Id, v: View)
    requires Shows(s, id, v)
    ensures forall p | p in v.procs :: p < v.next
  {
  }

  /** Process p becomes x; the step adds an event that leaves n accepted sends and the given row. */
  ghost predicate Follows(v: View, v': View, p: nat, x: Proc, row: Notification, n: nat) {
    && v'.clock == v.clock && v'.keys == v.keys && v'.procs == v.procs[p := x] && v'.next == v.next + 1
    && v'.rec.row == row && Sends(v'.rec) == n
  }

  function Now(k: Kind, v: View): Event {
    Event(k, v.clock, v.clock)
  }

  function Logged(c: Config, v: View, e: Event): Rec {
    Append(c, v.rec, e)
  }

  lemma LoggedSends(c: Config, v: View, e: Event)
    ensures Sends(Logged(c, v, e)) == Sends(v.rec) + One(e.kind == Rows.Accepted)
  {
    CountAppend(v.rec.hist, e, Rows.Accepted);
  }

  // ---- enqueueing ------------------------------------------------------

  lemma CreateStep(c: Config, s: State, id: Id, req: Request) returns (v: View)
    requires Initial(s) && id != "" && InInt4(RowMaxAttempts(c))
    ensures Enabled(c, s, Create(id, req)) && Shows(Apply(c, s, Create(id, req)), id, v)
    ensures v.clock == s.clock && v.rec.row == NewRow(c, req, id) && Sends(v.rec) == 0 && v.keys == map[]
    ensures v.procs == map[0 := EnqChecking(id, req)] && v.next == 1
  {
    v := View(s.clock, Rec(NewRow(c, req, id), []), map[], map[0 := EnqChecking(id, req)], 1);
    hide NewRow;
    NewRowId(c, req, id);
  }

  lemma NewRowId(c: Config, req: Request, id: Id)
    ensures NewRow(c, req, id).id == id
  {
  }

  lemma TickStep(c: Config, s: State, id: Id, v: View, t: Time) returns (v': View)
    requires Shows(s, id, v) && t >= v.clock
    ensures Enabled(c, s, Tick(t)) && Benign(c, s, Tick(t), id) && Shows(Apply(c, s, Tick(t)), id, v')
    ensures v' == v.(clock := t, next := v.next + 1)
  {
    v' := v.(clock := t, next := v.next + 1);
  }

  lemma CheckStep(c: Config, s: State, id: Id, v: View, p: nat, req: Request) returns (v': View)
    requires Shows(s, id, v) && p in v.procs && v.procs[p] == EnqChecking(id, req) && !InFuture(req, v.clock)
    ensures Enabled(c, s, Move(p, Check)) && Shows(Apply(c, s, Move(p, Check)), id, v')
    ensures req.scheduledAt.None? ==> Benign(c, s, Move(p, Check), id)
    ensures Follows(v, v', p, EnqPublishing(id, req), v.rec.row, Sends(v.rec))
  {
    v' := v.(rec := Logged(c, v, Now(SendNow, v)), procs := v.procs[p := EnqPublishing(id, req)], next := v.next + 1);
    LoggedSends(c, v, Now(SendNow, v));
  }

  lemma DeferStep(c: Config, s: State, id: Id, v: View, p: nat, req: Request) returns (v': View)
    requires Shows(s, id, v) && p in v.procs && v.procs[p] == EnqChecking(id, req) && InFuture(req, v.clock)
    ensures Enabled(c, s, Move(p, Check)) && Benign(c, s, Move(p, Check), id) && Shows(Apply(c, s, Move(p, Check)), id, v')
    ensures v' == v.(rec := v'.rec, procs := v.procs - {p}, next := v.next + 1)
    ensures v'.rec.row == v.rec.row && Sends(v'.rec) == Sends(v.rec)
  {
    v' := v.(rec := Logged(c, v, Now(Deferred, v)), procs := v.procs - {p}, next := v.next + 1);
    LoggedSends(c, v, Now(Deferred, v));
  }

  lemma PublishStep(c: Config, s: State, id: Id, v: View, p: nat, req: Request) returns (v': View)
    requires Shows(s, id, v) && p in v.procs && v.procs[p] == EnqPublishing(id, req) && MarshalableParams(req.params)
    ensures Enabled(c, s, Move(p, PublishNow)) && Benign(c, s, Move(p, PublishNow), id)
    ensures Shows(Apply(c, s, Move(p, PublishNow)), id, v')
    ensures Follows(v, v', p, SendQueued(id, Transit(req, id), None), v.rec.row, Sends(v.rec))
  {
    hide Transit;
    v' := v.(rec := Logged(c, v, Now(Published, v)), procs := v.procs[p := SendQueued(id, Transit(req, id), None)],
             next := v.next + 1);
    LoggedSends(c, v, Now(Published, v));
  }

  // ---- consumers -------------------------------------------------------

  lemma SendStep(c: Config, s: State, id: Id, v: View, p: nat, ok: bool) returns (v': View)
    requires Shows(s, id, v) && p in v.procs && (v.procs[p].SendQueued? || v.procs[p].RetryReady?) && v.procs[p].id == id
    requires ok ==> !Refused(v.procs[p].req, true)
    ensures Enabled(c, s, Move(p, Send(ok))) && Benign(c, s, Move(p, Send(ok)), id)
    ensures Shows(Apply(c, s, Move(p, Send(ok))), id, v')
    ensures var x := v.procs[p];
            Follows(v, v', p, Done(id, x.SendQueued?, ok, v.clock, x.until), v.rec.row, Sends(v.rec) + One(ok))
  {
    hide Refused;
    var x := Done(id, v.procs[p].SendQueued?, ok, v.clock, v.procs[p].until);
    v' := v.(rec := if ok then Logged(c, v, Now(Rows.Accepted, v)) else v.rec, procs := v.procs[p := x], next := v.next + 1);
    LoggedSends(c, v, Now(Rows.Accepted, v));
  }

  /** No open claim holds the row. */
  predicate Unclaimed(v: View) {
    forall p | p in v.procs :: !v.procs[p].ClaimOpen?
  }

  lemma WriteStep(c: Config, s: State, id: Id, v: View, p: nat) returns (v': View)
    requires Shows(s, id, v) && Unclaimed(v) && p in v.procs && v.procs[p].Done? && v.procs[p].id == id
    requires WriteEvent(c, v.rec.row, v.clock, v.procs[p]).Some?
    ensures Enabled(c, s, Move(p, Write)) && Benign(c, s, Move(p, Write), id) && Shows(Apply(c, s, Move(p, Write)), id, v')
    ensures v' == v.(rec := v'.rec, procs := v.procs - {p}, next := v.next + 1)
    ensures v'.rec.row == RowAfter(c, v.rec.row, WriteEvent(c, v.rec.row, v.clock, v.procs[p]).value)
    ensures Sends(v'.rec) == Sends(v.rec)
  {
    hide FailureResult;
    var e := WriteEvent(c, v.rec.row, v.clock, v.procs[p]).value;
    v' := v.(rec := Logged(c, v, e), procs := v.procs - {p}, next := v.next + 1);
    LoggedSends(c, v, e);
    KeepsId(c, v.rec.row, e);
  }

  /** A write the database refuses. */
  lemma RefusedWriteStep(c: Config, s: State, id: Id, v: View, p: nat) returns (v': View)
    requires Shows(s, id, v) && Unclaimed(v) && p in v.procs && v.procs[p].Done? && v.procs[p].id == id
    requires WriteEvent(c, v.rec.row, v.clock, v.procs[p]).None?
    ensures Enabled(c, s, Move(p, Write)) && Benign(c, s, Move(p, Write), id) && Shows(Apply(c, s, Move(p, Write)), id, v')
    ensures v' == v.(procs := v.procs - {p}, next := v.next + 1)
  {
    hide FailureResult;
    v' := v.(procs := v.procs - {p}, next := v.next + 1);
  }

  lemma KeepsId(c: Config, row: Notification, e: Event)
    ensures RowAfter(c, row, e).id == row.id
  {
  }

  /** A lost write; harmless to the assumptions unless the send was accepted. */
  lemma DropStep(c: Config, s: State, id: Id, v: View, p: nat) returns (v': View)
    requires Shows(s, id, v) && p in v.procs
    ensures Enabled(c, s, Move(p, Drop)) && Shows(Apply(c, s, Move(p, Drop)), id, v')
    ensures v' == v.(procs := v.procs - {p}, next := v.next + 1)
  {
    v' := v.(procs := v.procs - {p}, next := v.next + 1);
  }

  lemma RedeliverStep(c: Config, s: State, id: Id, v: View, p: nat) returns (v': View)
    requires Shows(s, id, v) && p in v.procs && v.procs[p].SendQueued?
    ensures Enabled(c, s, Move(p, Redeliver)) && Shows(Apply(c, s, Move(p, Redeliver)), id, v')
    ensures v' == v.(procs := v.procs[v.next := v.procs[p]], next := v.next + 1)
  {
    v' := v.(procs := v.procs[v.next := v.procs[p]], next := v.next + 1);
  }

  // ---- the retry claim -------------------------------------------------

  lemma StartClaimStep(c: Config, s: State, id: Id, v: View, batch: int) returns (v': View)
    requires Shows(s, id, v) && batch >= 1
    ensures Enabled(c, s, StartClaim(batch)) && Benign(c, s, StartClaim(batch), id)
    ensures Shows(Apply(c, s, StartClaim(batch)), id, v')
    ensures v' == v.(procs := v.procs[v.next := ClaimLocking(v.clock, batch)], next := v.next + 1)
  {
    v' := v.(procs := v.procs[v.next := ClaimLocking(v.clock, batch)], next := v.next + 1);
  }

  /** The locking query has one row to answer, and answers it. */
  lemma LockStep(c: Config, s: State, id: Id, v: View, p: nat, batch: int, now: Time) returns (v': View)
    requires Shows(s, id, v) && Unclaimed(v) && p in v.procs && v.procs[p] == ClaimLocking(now, batch) && batch >= 1
    requires DueForRetry(v.rec.row, now)
    ensures Enabled(c, s, Move(p, Lock([id]))) && Benign(c, s, Move(p, Lock([id])), id)
    ensures Shows(Apply(c, s, Move(p, Lock([id]))), id, v')
    ensures v' == v.(procs := v.procs[p := ClaimOpen(now, batch, [id])], next := v.next + 1)
  {
    hide DueForRetry;
    assert TableOf(s) == map[id := v.rec.row];
    assert LockedIds(s) == {};
    v' := v.(procs := v.procs[p := ClaimOpen(now, batch, [id])], next := v.next + 1);
  }

  lemma CommitStep(c: Config, s: State, id: Id, v: View, p: nat, batch: int, now: Time) returns (v': View)
    requires Shows(s, id, v) && p in v.procs && v.procs[p] == ClaimOpen(now, batch, [id]) && LeaseFits(c, now)
    ensures Enabled(c, s, Move(p, Commit)) && Benign(c, s, Move(p, Commit), id) && Shows(Apply(c, s, Move(p, Commit)), id, v')
    ensures var until := Some(now + PublishLease(c));
            Follows(v, v', p, ClaimPublishing(until, [id]), v.rec.row.(nextRetryAt := until), Sends(v.rec))
  {
    var e := Event(Claimed, v.clock, now);
    var x := ClaimPublishing(Some(now + PublishLease(c)), [id]);
    v' := v.(rec := Logged(c, v, e), procs := v.procs[p := x], next := v.next + 1);
    LoggedSends(c, v, e);
  }

  lemma PublishRetryStep(c: Config, s: State, id: Id, v: View, p: nat, until: Option<Time>) returns (v': View)
    requires Shows(s, id, v) && p in v.procs && v.procs[p] == ClaimPublishing(until, [id])
    ensures Enabled(c, s, Move(p, PublishRetry)) && Benign(c, s, Move(p, PublishRetry), id)
    ensures Shows(Apply(c, s, Move(p, PublishRetry)), id, v')
    ensures v' == v.(rec := v'.rec, next := v.next + 1,
                     procs := v.procs[p := ClaimPublishing(until, [])][v.next := RetryQueued(id, until)])
    ensures v'.rec.row == v.rec.row && Sends(v'.rec) == Sends(v.rec)
  {
    hide FailureResult, PublishLease;
    assert [id][1..] == [];
    v' := v.(rec := Logged(c, v, Now(RetryPublished, v)), next := v.next + 1,
             procs := v.procs[p := ClaimPublishing(until, [])][v.next := RetryQueued(id, until)]);
    LoggedSends(c, v, Now(RetryPublished, v));
  }

  lemma ReadStep(c: Config, s: State, id: Id, v: View, p: nat, until: Option<Time>) returns (v': View)
    requires Shows(s, id, v) && p in v.procs && v.procs[p] == RetryQueued(id, until) && RetryGuard(v.rec.row)
    ensures Enabled(c, s, Move(p, ReadRow)) && Benign(c, s, Move(p, ReadRow), id) && Shows(Apply(c, s, Move(p, ReadRow)), id, v')
    ensures v' == v.(procs := v.procs[p := RetryReady(id, Rebuilt(v.rec.row), until)], next := v.next + 1)
  {
    hide Rebuilt;
    v' := v.(procs := v.procs[p := RetryReady(id, Rebuilt(v.rec.row), until)], next := v.next + 1);
  }

  // ---- the scheduled pass ----------------------------------------------

  lemma StartScheduledStep(c: Config, s: State, id: Id, v: View, batch: int) returns (v': View)
    requires Shows(s, id, v) && batch >= 1
    ensures Enabled(c, s, StartScheduled(batch)) && Benign(c, s, StartScheduled(batch), id)
    ensures Shows(Apply(c, s, StartScheduled(batch)), id, v')
    ensures v' == v.(procs := v.procs[v.next := SchedFinding(v.clock, batch)], next := v.next + 1)
  {
    v' := v.(procs := v.procs[v.next := SchedFinding(v.clock, batch)], next := v.next + 1);
  }

  lemma FindStep(c: Config, s: State, id: Id, v: View, p: nat, batch: int, now: Time) returns (v': View)
    requires Shows(s, id, v) && p in v.procs && v.procs[p] == SchedFinding(now, batch) && batch >= 1
    requires DueScheduled(v.rec.row, now)
    ensures Enabled(c, s, Move(p, Find([v.rec.row]))) && Benign(c, s, Move(p, Find([v.rec.row])), id)
    ensures Shows(Apply(c, s, Move(p, Find([v.rec.row]))), id, v')
    ensures v' == v.(procs := v.procs[p := SchedLooping([v.rec.row], false, None)], next := v.next + 1)
  {
    hide DueScheduled;
    assert TableOf(s) == map[id := v.rec.row];
    v' := v.(procs := v.procs[p := SchedLooping([v.rec.row], false, None)], next := v.next + 1);
  }

  lemma WinStep(c: Config, s: State, id: Id, v: View, p: nat, row: Notification) returns (v': View)
    requires Shows(s, id, v) && p in v.procs && v.procs[p] == SchedLooping([row], false, None) && row.id == id
    requires DedupTTL(c) >= 0 && !Live(v.keys, DedupKey(c, id), v.clock)
    ensures Enabled(c, s, Move(p, SetNX)) && Shows(Apply(c, s, Move(p, SetNX)), id, v')
    ensures DueScheduled(v.rec.row, v.clock) ==> Benign(c, s, Move(p, SetNX), id)
    ensures var until := Expiry(v.clock, DedupTTL(c));
            v' == v.(rec := v'.rec, keys := v.keys[DedupKey(c, id) := until], next := v.next + 1,
                     procs := v.procs[p := SchedLooping([row], true, until)])
    ensures v'.rec.row == v.rec.row && Sends(v'.rec) == Sends(v.rec)
  {
    hide DedupKey, DedupTTL, Live, DueScheduled;
    var until := Expiry(v.clock, DedupTTL(c));
    v' := v.(rec := Logged(c, v, Now(Won, v)), keys := v.keys[DedupKey(c, id) := until], next := v.next + 1,
             procs := v.procs[p := SchedLooping([row], true, until)]);
    LoggedSends(c, v, Now(Won, v));
  }

  lemma PublishScheduledStep(c: Config, s: State, id: Id, v: View, p: nat, row: Notification, until: Option<Time>)
    returns (v': View)
    requires Shows(s, id, v) && p in v.procs && v.procs[p] == SchedLooping([row], true, until) && row.id == id
    requires MarshalableParams(Rebuilt(row).params)
    ensures Enabled(c, s, Move(p, PublishScheduled)) && Benign(c, s, Move(p, PublishScheduled), id)
    ensures Shows(Apply(c, s, Move(p, PublishScheduled)), id, v')
    ensures v' == v.(rec := v'.rec, next := v.next + 1,
                     procs := v.procs[p := SchedLooping([], false, None)]
                              [v.next := SendQueued(id, Transit(Rebuilt(row), id), until)])
    ensures v'.rec.row == v.rec.row && Sends(v'.rec) == Sends(v.rec)
  {
    hide Rebuilt, Transit, MarshalableParams;
    assert [row][1..] == [];
    v' := v.(rec := Logged(c, v, Now(SchedPublished, v)), next := v.next + 1,
             procs := v.procs[p := SchedLooping([], false, None)]
                      [v.next := SendQueued(id, Transit(Rebuilt(row), id), until)]);
    LoggedSends(c, v, Now(SchedPublished, v));
  }

  lemma EvictStep(c: Config, s: State, id: Id, v: View, key: string) returns (v': View)
    requires Shows(s, id, v) && key in v.keys
    ensures Enabled(c, s, Evict(key)) && Shows(Apply(c, s, Evict(key)), id, v')
    ensures v' == v.(keys := v.keys - {key}, next := v.next + 1)
  {
    v' := v.(keys := v.keys - {key}, next := v.next + 1);
  }

  // ---- traces ----------------------------------------------------------

  datatype Trace = Trace(ss: seq<State>, ls: seq<Label>) {
    ghost function Last(): State
      requires |ss| == |ls| + 1
    {
      ss[|ls|]
    }
  }

  /** Every delivery other than those in late is within its lock or lease. */
  ghost predicate TimelyBut(s: State, late: set<nat>) {
    forall p | p in s.procs && p !in late && Deadline(s.procs[p]).Some? :: s.clock < Deadline(s.procs[p]).value
  }

  /** A path that keeps all assumptions but at the labels numbered in bad and for the deliveries in late. */
  ghost predicate KeptBut(c: Config, t: Trace, id: Id, bad: set<nat>, late: set<nat>) {
    && IsPath(c, t.ss, t.ls)
    && (forall k :: 0 <= k < |t.ls| && k !in bad ==> Benign(c, t.ss[k], t.ls[k], id))
    && (forall k :: 0 <= k < |t.ss| ==> TimelyBut(t.ss[k], late))
  }

  /** The trace so far: from s0 to a state that v shows. */
  ghost predicate So(c: Config, s0: State, t: Trace, id: Id, v: View, bad: set<nat>, late: set<nat>) {
    |t.ss| == |t.ls| + 1 && KeptBut(c, t, id, bad, late) && t.ss[0] == s0 && Shows(t.Last(), id, v)
  }

  /** All deliveries of a view but those in late are in time. */
  ghost predicate InTime(v: View, late: set<nat>) {
    forall p | p in v.procs && p !in late && Deadline(v.procs[p]).Some? :: v.clock < Deadline(v.procs[p]).value
  }

  lemma Then(c: Config, s0: State, t: Trace, id: Id, v: View, bad: set<nat>, late: set<nat>, l: Label, v': View)
    returns (t': Trace)
    requires So(c, s0, t, id, v, bad, late) && Enabled(c, t.Last(), l) && Shows(Apply(c, t.Last(), l), id, v')
    requires InTime(v', late) && (Benign(c, t.Last(), l, id) || |t.ls| in bad)
    ensures So(c, s0, t', id, v', bad, late) && t'.ls == t.ls + [l] && t.ss <= t'.ss
  {
    hide Enabled, Apply, Benign;
    var s' := Apply(c, t.Last(), l);
    t' := Trace(t.ss + [s'], t.ls + [l]);
    assert TimelyBut(s', late);
    forall k | 0 <= k < |t'.ls| ensures Enabled(c, t'.ss[k], t'.ls[k]) && t'.ss[k + 1] == Apply(c, t'.ss[k], t'.ls[k]) {
      if k < |t.ls| {
        assert t'.ss[k] == t.ss[k] && t'.ss[k + 1] == t.ss[k + 1] && t'.ls[k] == t.ls[k];
      }
    }
  }

  lemma Excuse(c: Config, s0: State, t: Trace, id: Id, v: View, bad: set<nat>, late: set<nat>, k: nat, q: nat)
    requires So(c, s0, t, id, v, bad, late)
    ensures So(c, s0, t, id, v, bad + {k}, late) && So(c, s0, t, id, v, bad, late + {q})
  {
    hide IsPath, Benign, Shows;
    forall k | 0 <= k < |t.ss| ensures TimelyBut(t.ss[k], late + {q}) {
      assert TimelyBut(t.ss[k], late);
    }
  }

  /** A run that keeps everything is well delivered. */
  lemma AllKept(c: Config, t: Trace, id: Id)
    requires KeptBut(c, t, id, {}, {}) && Initial(t.ss[0])
    ensures IsRun(c, t.ss, t.ls) && WellDelivered(c, t.ss, t.ls, |t.ls|, id)
  {
    hide Enabled, Apply, Benign;
    forall k | 0 <= k < |t.ls| ensures Timely(t.ss[k], id) && Benign(c, t.ss[k], t.ls[k], id) {
      assert TimelyBut(t.ss[k], {});
    }
  }
}
