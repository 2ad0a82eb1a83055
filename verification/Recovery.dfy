/** From every state the retry path can take pending rows further, and so drain the table. */
module Recovery {
  import opened Wrappers
  import opened Model
  import opened Backoff
  import opened Aggregate
  import opened Delivery
  import opened Rows
  import opened Histories
  import opened Protocol
  import opened Invariants
  import opened RowTheorems
  import opened Failures
  import opened Drain

  // ---- one message, step by step ---------------------------------------

  /** Process p is x, and row id is as given. */
  ghost predicate At(s: State, p: nat, x: Proc, id: Id, row: Notification) {
    p in s.procs && s.procs[p] == x && id in s.recs && s.recs[id].row == row
  }

  /** A step by q about row id leaves the clock, the other processes and the other rows as they are. */
  ghost predicate Elsewhere(s: State, s': State, q: nat, id: Id) {
    && s'.clock == s.clock && s'.next == s.next + 1
    && (NoOpenClaims(s) ==> NoOpenClaims(s'))
    && (forall k | k in s.recs && k != id :: k in s'.recs && s'.recs[k].row == s.recs[k].row)
    && (forall p | p in s.procs && p != q :: p in s'.procs && s'.procs[p] == s.procs[p])
  }

  lemma TakeStep(c: Config, s: State, p: nat, rest: seq<Id>, until: Option<Time>, row: Notification)
    requires rest != [] && At(s, p, ClaimPublishing(until, rest), rest[0], row) && Inv(c, s)
    ensures Enabled(c, s, Move(p, PublishRetry))
    ensures var s' := Apply(c, s, Move(p, PublishRetry));
            && At(s', s.next, RetryQueued(rest[0], until), rest[0], row) && Elsewhere(s, s', p, rest[0])
            && p != s.next && p in s'.procs && s'.procs[p] == ClaimPublishing(until, rest[1..])
  {
    hide Inv, ProcOk, KeysAfter, MailAfter;
    BelowNext(c, s, p);
    NextFree(c, s);
    assert s.procs[p].ClaimPublishing?;
  }

  lemma NextFree(c: Config, s: State)
    requires Inv(c, s)
    ensures s.next !in s.procs
  {
    hide RowsOk, Exclusive, ProcOk;
  }

  lemma ReadStep(c: Config, s: State, p: nat, id: Id, row: Notification, until: Option<Time>)
    requires Inv(c, s) && At(s, p, RetryQueued(id, until), id, row) && RetryGuard(row)
    ensures Enabled(c, s, Move(p, ReadRow))
    ensures var s' := Apply(c, s, Move(p, ReadRow));
            At(s', p, RetryReady(id, Rebuilt(row), until), id, row) && Elsewhere(s, s', p, id)
  {
    hide Inv, Rebuilt;
  }

  lemma SendStep(c: Config, s: State, p: nat, id: Id, row: Notification, until: Option<Time>, ok: bool)
    requires Inv(c, s) && At(s, p, RetryReady(id, Rebuilt(row), until), id, row)
    requires ok ==> !Refused(Rebuilt(row), true)
    ensures Enabled(c, s, Move(p, Send(ok)))
    ensures var s' := Apply(c, s, Move(p, Send(ok)));
            At(s', p, Done(id, false, ok, s.clock, until), id, row) && Elsewhere(s, s', p, id)
  {
    hide Inv, Rebuilt, Refused;
  }

  /** The row after the retry consumer's write. */
  function Outcome(c: Config, row: Notification, ok: bool, at: Time): Notification {
    if ok then RetrySuccess(row, at)
    else if FailureResult(c, row, at).Some? then FailureResult(c, row, at).value else row
  }

  lemma WriteStep(c: Config, s: State, p: nat, id: Id, row: Notification, until: Option<Time>, ok: bool)
    requires Inv(c, s) && At(s, p, Done(id, false, ok, s.clock, until), id, row) && NoOpenClaims(s)
    requires RecordsFailures(c, s.clock) && RetryGuard(row)
    ensures Processes(c, s, Move(p, Write))
    ensures var s' := Apply(c, s, Move(p, Write));
            Elsewhere(s, s', p, id) && id in s'.recs && s'.recs[id].row == Outcome(c, row, ok, s.clock)
  {
    hide Inv, Elsewhere, RecordsFailures, Outcome, Processes, Apply;
    WriteAlone(c, s, p, id, row, until, ok);
    WriteRecords(c, s, p);
  }

  lemma WriteAlone(c: Config, s: State, p: nat, id: Id, row: Notification, until: Option<Time>, ok: bool)
    requires At(s, p, Done(id, false, ok, s.clock, until), id, row) && NoOpenClaims(s)
    ensures Enabled(c, s, Move(p, Write))
    ensures var s' := Apply(c, s, Move(p, Write));
            Elsewhere(s, s', p, id) && id in s'.recs && s'.recs[id].row == Outcome(c, row, ok, s.clock)
  {
    hide FailureResult, RetrySuccess, KeysAfter, MailAfter;
    OtherRows(c, s, p, id);
  }

  lemma OtherRows(c: Config, s: State, p: nat, id: Id)
    requires Enabled(c, s, Move(p, Write)) && s.procs[p].id == id
    ensures forall k | k in s.recs && k != id :: RecAfter(c, s, Move(p, Write), k) == s.recs[k]
  {
  }

  /** The four steps from publication to outcome. */
  function MessageLabels(p: nat, q: nat, ok: bool): seq<Label> {
    [Move(p, PublishRetry), Move(q, ReadRow), Move(q, Send(ok)), Move(q, Write)]
  }

  /** Publishing the first row of a committed claim and processing its message. */
  lemma MessagePath(c: Config, s: State, p: nat, rest: seq<Id>, until: Option<Time>, row: Notification, ok: bool)
    returns (ss: seq<State>, ls: seq<Label>)
    requires Inv(c, s) && NoOpenClaims(s) && RecordsFailures(c, s.clock) && RetryGuard(row)
    requires rest != [] && At(s, p, ClaimPublishing(until, rest), rest[0], row)
    requires ok ==> !Refused(Rebuilt(row), true)
    ensures |ss| == 5 && ls == MessageLabels(p, s.next, ok) && IsPath(c, ss, ls) && ss[0] == s
    ensures Inv(c, ss[4]) && NoOpenClaims(ss[4]) && ss[4].clock == s.clock && p < ss[4].next
    ensures p in ss[4].procs && ss[4].procs[p] == ClaimPublishing(until, rest[1..])
    ensures rest[0] in ss[4].recs && ss[4].recs[rest[0]].row == Outcome(c, row, ok, s.clock)
    ensures forall k | k in s.recs && k != rest[0] :: k in ss[4].recs && ss[4].recs[k].row == s.recs[k].row
    ensures TotalLeft(ss[4]) < TotalLeft(s)
  {
    hide Inv, Enabled, Apply, At, RetryGuard, Rebuilt, Refused, RecordsFailures, Outcome, NoOpenClaims, TotalLeft;
    hide Processes;
    var id, q := rest[0], s.next;
    OneAttempt(c, s.clock);
    TakeStep(c, s, p, rest, until, row);
    var s1 := Apply(c, s, Move(p, PublishRetry));
    InvStep(c, s, Move(p, PublishRetry));
    TotalLeftStep(c, s, Move(p, PublishRetry));
    ReadStep(c, s1, q, id, row, until);
    var s2 := Apply(c, s1, Move(q, ReadRow));
    InvStep(c, s1, Move(q, ReadRow));
    TotalLeftStep(c, s1, Move(q, ReadRow));
    SendStep(c, s2, q, id, row, until, ok);
    var s3 := Apply(c, s2, Move(q, Send(ok)));
    InvStep(c, s2, Move(q, Send(ok)));
    TotalLeftStep(c, s2, Move(q, Send(ok)));
    WriteStep(c, s3, q, id, row, until, ok);
    ProcessesEnabled(c, s3, Move(q, Write));
    var s4 := Apply(c, s3, Move(q, Write));
    InvStep(c, s3, Move(q, Write));
    TotalLeftStep(c, s3, Move(q, Write));
    BelowNext(c, s4, p);
    ss, ls := [s, s1, s2, s3, s4], MessageLabels(p, q, ok);
  }

  lemma ProcessesEnabled(c: Config, s: State, l: Label)
    requires Processes(c, s, l)
    ensures Enabled(c, s, l)
  {
  }

  // ---- one round -------------------------------------------------------

  /** The row a committed claim leaves. */
  function Leased(row: Notification, until: Time): Notification {
    row.(nextRetryAt := Some(until))
  }

  lemma LeaseKeeps(row: Notification, until: Time)
    ensures Rebuilt(Leased(row, until)) == Rebuilt(row) && RetryGuard(Leased(row, until)) == RetryGuard(row)
  {
  }

  lemma CommitStep(c: Config, s: State, p: nat, ids: seq<Id>, batch: int, now: Time)
    requires Inv(c, s) && p in s.procs && s.procs[p] == ClaimOpen(now, batch, ids)
    requires forall q | q in s.procs && q != p :: !s.procs[q].ClaimOpen?
    requires LeaseFits(c, now)
    ensures Enabled(c, s, Move(p, Commit))
    ensures var s', until := Apply(c, s, Move(p, Commit)), now + PublishLease(c);
            && NoOpenClaims(s') && s'.clock == s.clock && s'.next == s.next + 1
            && p in s'.procs && s'.procs[p] == ClaimPublishing(Some(until), ids)
            && forall id | id in ids :: id in s.recs && id in s'.recs && s'.recs[id].row == Leased(s.recs[id].row, until)
  {
    hide Inv, KeysAfter, MailAfter, RecAfter, Leased;
    ClaimedRows(c, s, p);
    forall id | id in ids ensures RecAfter(c, s, Move(p, Commit), id).row == Leased(s.recs[id].row, now + PublishLease(c)) {
      CommitLeases(c, s, p, id);
    }
  }

  lemma ClaimedRows(c: Config, s: State, p: nat)
    requires Inv(c, s) && p in s.procs && s.procs[p].ClaimOpen?
    ensures forall id | id in s.procs[p].ids :: id in s.recs
  {
    hide RecOk, FromRequest, Exclusive;
    BelowNext(c, s, p);
  }

  lemma CommitLeases(c: Config, s: State, p: nat, id: Id)
    requires p in s.procs && s.procs[p].ClaimOpen? && id in s.procs[p].ids && id in s.recs && LeaseFits(c, s.procs[p].now)
    ensures Enabled(c, s, Move(p, Commit))
    ensures RecAfter(c, s, Move(p, Commit), id).row == Leased(s.recs[id].row, s.procs[p].now + PublishLease(c))
  {
  }

  /** Tick, start, lock, commit. */
  function ClaimLabels(t: Time, batch: int, p: nat, ids: seq<Id>): seq<Label> {
    [Tick(t), StartClaim(batch), Move(p, Lock(ids)), Move(p, Commit)]
  }

  /** A claim of whatever the query answers, up to its commit. */
  lemma ClaimPath(c: Config, s: State, t: Time, batch: int, ids: seq<Id>) returns (ss: seq<State>, ls: seq<Label>)
    requires Inv(c, s) && NoOpenClaims(s) && batch >= 1 && t >= s.clock && LeaseFits(c, t)
    requires IsLockResult(TableOf(s), {}, ids, batch, t) && RowMaxAttempts(c) >= 1
    ensures |ss| == 5 && ls == ClaimLabels(t, batch, s.next + 1, ids) && IsPath(c, ss, ls) && ss[0] == s
    ensures Inv(c, ss[4]) && NoOpenClaims(ss[4]) && ss[4].clock == t && TotalLeft(ss[4]) <= TotalLeft(s)
    ensures var p, until := s.next + 1, t + PublishLease(c);
            && p in ss[4].procs && p < ss[4].next && ss[4].procs[p] == ClaimPublishing(Some(until), ids)
            && DistinctIds(ids)
            && forall id | id in ids ::
                 && id in s.recs && RetryGuard(s.recs[id].row)
                 && id in ss[4].recs && ss[4].recs[id].row == Leased(s.recs[id].row, until)
  {
    hide Inv, Enabled, Apply, IsLockResult, NoOpenClaims, TotalLeft, Processes, Retryable, RetryGuard, Leased;
    var p := s.next + 1;
    TickEnabled(c, s, t);
    PassStarts(c, s, t, batch);
    var s1 := Apply(c, s, Tick(t));
    var s2 := Apply(c, s1, StartClaim(batch));
    SameTable(s, s2);
    LockEnabled(c, s2, p, ids, batch, t);
    InvStep(c, s, Tick(t));
    InvStep(c, s1, StartClaim(batch));
    InvStep(c, s2, Move(p, Lock(ids)));
    LockOpens(c, s2, p, ids);
    var s3 := Apply(c, s2, Move(p, Lock(ids)));
    CommitStep(c, s3, p, ids, batch, t);
    InvStep(c, s3, Move(p, Commit));
    var s4 := Apply(c, s3, Move(p, Commit));
    AnswerRetryable(s, ids, batch, t);
    BelowNext(c, s4, p);
    ss, ls := [s, s1, s2, s3, s4], ClaimLabels(t, batch, p, ids);
    LeftPath(c, ss, ls, 4);
  }

  lemma TickEnabled(c: Config, s: State, t: Time)
    requires t >= s.clock
    ensures Enabled(c, s, Tick(t))
  {
  }

  lemma LockEnabled(c: Config, s: State, p: nat, ids: seq<Id>, batch: int, now: Time)
    requires p in s.procs && s.procs[p] == ClaimLocking(now, batch)
    requires IsLockResult(TableOf(s), LockedIds(s), ids, batch, now)
    ensures Enabled(c, s, Move(p, Lock(ids)))
  {
    hide IsLockResult;
  }

  ghost predicate CreatesNothing(ls: seq<Label>) {
    forall k :: 0 <= k < |ls| ==> !ls[k].Create?
  }

  lemma {:induction false} LeftPath(c: Config, ss: seq<State>, ls: seq<Label>, n: nat)
    requires IsPath(c, ss, ls) && Inv(c, ss[0]) && RowMaxAttempts(c) >= 1 && n <= |ls|
    requires CreatesNothing(ls)
    ensures Inv(c, ss[n]) && TotalLeft(ss[n]) <= TotalLeft(ss[0])
  {
    hide Inv, Enabled, Apply, TotalLeft, Processes;
    if n > 0 {
      LeftPath(c, ss, ls, n - 1);
      InvStep(c, ss[n - 1], ls[n - 1]);
      TotalLeftStep(c, ss[n - 1], ls[n - 1]);
    }
  }

  /** The providers refuse at least what SendNotification refuses by itself. */
  ghost predicate Answers(s: State, ids: seq<Id>, oks: seq<bool>) {
    && |ids| <= |oks|
    && forall k :: 0 <= k < |ids| && oks[k] ==> ids[k] in s.recs && !Refused(Rebuilt(s.recs[ids[k]].row), true)
  }

  /** From s, process p has published and seen through the first n rows of its claim. */
  ghost predicate Processed(c: Config, s: State, s': State, p: nat, ids: seq<Id>, oks: seq<bool>, n: nat)
    requires n <= |ids| <= |oks| && forall id | id in ids :: id in s.recs
  {
    var until := s.clock + PublishLease(c);
    && Inv(c, s') && NoOpenClaims(s') && s'.clock == s.clock
    && p in s'.procs && p < s'.next && s'.procs[p] == ClaimPublishing(Some(until), ids[n..])
    && (forall k :: 0 <= k < n ==>
          ids[k] in s'.recs && s'.recs[ids[k]].row == Outcome(c, s.recs[ids[k]].row, oks[k], s.clock))
    && (forall k :: n <= k < |ids| ==> ids[k] in s'.recs && s'.recs[ids[k]].row == s.recs[ids[k]].row)
    && TotalLeft(s') + n <= TotalLeft(s)
  }

  lemma ProcessedNext(c: Config, s: State, s': State, s'': State, p: nat, ids: seq<Id>, oks: seq<bool>, n: nat)
    requires n < |ids| <= |oks| && DistinctIds(ids) && forall id | id in ids :: id in s.recs
    requires Processed(c, s, s', p, ids, oks, n)
    requires Inv(c, s'') && NoOpenClaims(s'') && s''.clock == s'.clock && p in s''.procs && p < s''.next
    requires s''.procs[p] == ClaimPublishing(Some(s.clock + PublishLease(c)), ids[n..][1..])
    requires ids[n] in s''.recs && s''.recs[ids[n]].row == Outcome(c, s.recs[ids[n]].row, oks[n], s.clock)
    requires forall k | k in s'.recs && k != ids[n] :: k in s''.recs && s''.recs[k].row == s'.recs[k].row
    requires TotalLeft(s'') < TotalLeft(s')
    ensures Processed(c, s, s'', p, ids, oks, n + 1)
  {
    hide Inv, NoOpenClaims, TotalLeft, Outcome;
    assert ids[n..][1..] == ids[n + 1..];
  }

  /** Publishing the claim's rows and processing their messages one after the other. */
  lemma {:induction false} MessagesPath(c: Config, s: State, p: nat, ids: seq<Id>, oks: seq<bool>, n: nat)
    returns (ss: seq<State>, ls: seq<Label>)
    requires Inv(c, s) && NoOpenClaims(s) && RecordsFailures(c, s.clock) && DistinctIds(ids)
    requires p in s.procs && p < s.next && s.procs[p] == ClaimPublishing(Some(s.clock + PublishLease(c)), ids)
    requires forall id | id in ids :: id in s.recs && RetryGuard(s.recs[id].row)
    requires Answers(s, ids, oks) && n <= |ids|
    ensures IsPath(c, ss, ls) && ss[0] == s && |ls| == 4 * n && CreatesNothing(ls)
    ensures Processed(c, s, ss[|ls|], p, ids, oks, n)
    decreases n
  {
    hide Inv, Enabled, Apply, NoOpenClaims, RetryGuard, Rebuilt, Refused, RecordsFailures, Outcome, TotalLeft;
    if n == 0 {
      ss, ls := [s], [];
      assert ids[0..] == ids;
    } else {
      var m := n - 1;
      var ts, ms := MessagesPath(c, s, p, ids, oks, m);
      var s' := ts[|ms|];
      var id := ids[m];
      assert ids[m..][0] == id && id in ids;
      Located(s', p, s'.procs[p], id, s.recs[id].row);
      var us, ks := MessagePath(c, s', p, ids[m..], Some(s.clock + PublishLease(c)), s.recs[id].row, oks[m]);
      ProcessedNext(c, s, s', us[4], p, ids, oks, m);
      PathConcat(c, ts, ms, us, ks);
      ss, ls := ts + us[1..], ms + ks;
      assert ss[|ls|] == us[4];
    }
  }

  lemma Located(s: State, p: nat, x: Proc, id: Id, row: Notification)
    requires p in s.procs && s.procs[p] == x && id in s.recs && s.recs[id].row == row
    ensures At(s, p, x, id, row)
  {
  }

  /**
   Whatever was lost or crashed before, and whatever rows the locking query answers, they can be claimed,
   published, sent and their outcomes recorded, with any batch size and any answers of the providers.
   */
  lemma RoundPossible(c: Config, s: State, t: Time, batch: int, ids: seq<Id>, oks: seq<bool>)
    returns (ss: seq<State>, ls: seq<Label>)
    requires Inv(c, s) && NoOpenClaims(s) && batch >= 1 && t >= s.clock && RecordsFailures(c, t) && LeaseFits(c, t)
    requires IsLockResult(TableOf(s), {}, ids, batch, t) && Answers(s, ids, oks)
    ensures IsPath(c, ss, ls) && ss[0] == s && |ls| == 4 + 4 * |ids| && CreatesNothing(ls)
    ensures ls[..4] == ClaimLabels(t, batch, s.next + 1, ids)
    ensures var s', until := ss[|ls|], t + PublishLease(c);
            && Inv(c, s') && NoOpenClaims(s') && s'.clock == t && TotalLeft(s') + |ids| <= TotalLeft(s)
            && (forall k :: 0 <= k < |ids| ==>
                  && ids[k] in s.recs && ids[k] in s'.recs
                  && s'.recs[ids[k]].row == Outcome(c, Leased(s.recs[ids[k]].row, until), oks[k], t))
  {
    hide Inv, Enabled, Apply, NoOpenClaims, RetryGuard, Rebuilt, Refused, RecordsFailures, Outcome, TotalLeft;
    hide IsLockResult, Leased;
    OneAttempt(c, t);
    var ts, ms := ClaimPath(c, s, t, batch, ids);
    forall id | id in ids ensures id in ts[4].recs && RetryGuard(ts[4].recs[id].row)
                                  && Rebuilt(ts[4].recs[id].row) == Rebuilt(s.recs[id].row) {
      LeaseKeeps(s.recs[id].row, t + PublishLease(c));
    }
    assert Answers(ts[4], ids, oks) by {
      forall k | 0 <= k < |ids| && oks[k] ensures !Refused(Rebuilt(ts[4].recs[ids[k]].row), true) {
        assert ids[k] in ids;
      }
    }
    var us, ks := MessagesPath(c, ts[4], s.next + 1, ids, oks, |ids|);
    PathConcat(c, ts, ms, us, ks);
    ss, ls := ts + us[1..], ms + ks;
    assert ss[|ls|] == us[|ks|];
  }

  // ---- draining --------------------------------------------------------

  /** An answer to a query with a limit, with first in front. */
  lemma {:induction false} Picked(due: set<Id>, limit: nat, first: Id) returns (ids: seq<Id>)
    requires first in due && limit >= 1
    ensures DistinctIds(ids) && ids != [] && ids[0] == first && |ids| <= limit
    ensures forall id | id in ids :: id in due
    ensures |ids| == limit || forall id | id in due :: id in ids
    decreases due
  {
    ids := [first];
    var others := due - {first};
    assert forall id | id in due :: id == first || id in others;
    if limit > 1 && others != {} {
      var second :| second in others;
      var rest := Picked(others, limit - 1, second);
      ids := [first] + rest;
      assert first !in rest;
    }
  }

  /** Among the answers the locking query may give, one that has row id. */
  lemma AnswerWith(s: State, id: Id, batch: int, t: Time) returns (ids: seq<Id>)
    requires batch >= 1 && id in s.recs && DueForRetry(s.recs[id].row, t)
    ensures IsLockResult(TableOf(s), {}, ids, batch, t) && ids != [] && ids[0] == id
  {
    hide DueForRetry;
    var due := set k | k in s.recs && DueForRetry(s.recs[k].row, t);
    ids := Picked(due, batch, id);
    forall k | k in TableOf(s) && DueForRetry(TableOf(s)[k], t) && k !in ids ensures |ids| == batch {
      assert k in due;
    }
  }

  lemma HorizonPositive(c: Config)
    ensures Horizon(c) > 0
  {
    DelayMonotone(c, 0, 0);
  }

  /** A pending row with a recorded failure can be taken to its next outcome, either one, with any batch size. */
  lemma RetryPossible(c: Config, s: State, id: Id, batch: int, ok: bool) returns (ss: seq<State>, ls: seq<Label>)
    requires Inv(c, s) && NoOpenClaims(s) && Retryable(s, id) && batch >= 1
    requires RecordsFailures(c, s.clock + Horizon(c)) && LeaseFits(c, s.clock + Horizon(c))
    requires ok ==> !Refused(Rebuilt(s.recs[id].row), true)
    ensures IsPath(c, ss, ls) && ss[0] == s && CreatesNothing(ls) && ls != []
    ensures var t, s' := s.clock + Horizon(c), ss[|ls|];
            && Inv(c, s') && NoOpenClaims(s') && s'.clock == t && TotalLeft(s') < TotalLeft(s)
            && |ls| <= 8 * (TotalLeft(s) - TotalLeft(s'))
            && id in s'.recs
            && s'.recs[id].row == Outcome(c, Leased(s.recs[id].row, t + PublishLease(c)), ok, t)
  {
    hide Inv, Enabled, Apply, NoOpenClaims, TotalLeft, RetryGuard, DueForRetry, Rebuilt, Refused, RecordsFailures;
    hide Outcome, Leased, IsLockResult;
    var t := s.clock + Horizon(c);
    HorizonPositive(c);
    OneAttempt(c, t);
    DueBy(c, s, id);
    var ids := AnswerWith(s, id, batch, t);
    var oks := seq(|ids|, k => k == 0 && ok);
    ss, ls := RoundPossible(c, s, t, batch, ids, oks);
  }

  /**
   From every state with no claim transaction open there is a continuation, of at most eight steps for each
   attempt left, after which no row with a recorded failure is pending.
   */
  lemma {:induction false} DrainPossible(c: Config, s: State, batch: int) returns (ss: seq<State>, ls: seq<Label>)
    requires Inv(c, s) && NoOpenClaims(s) && batch >= 1
    requires RecordsFailures(c, s.clock + TotalLeft(s) * Horizon(c)) && LeaseFits(c, s.clock + TotalLeft(s) * Horizon(c))
    ensures IsPath(c, ss, ls) && ss[0] == s && Drained(ss[|ls|]) && |ls| <= 8 * TotalLeft(s)
    decreases TotalLeft(s)
  {
    hide Inv, Enabled, Apply, NoOpenClaims, TotalLeft, Retryable, RecordsFailures, Outcome, Leased;
    if Drained(s) {
      ss, ls := [s], [];
    } else {
      var id :| Retryable(s, id);
      var left, t := TotalLeft(s), s.clock + Horizon(c);
      HorizonPositive(c);
      OneAttempt(c, s.clock + left * Horizon(c));
      LeftPositive(c, s, id);
      Budget(left, 1, Horizon(c));
      RecordsEarlier(c, s.clock + left * Horizon(c), t);
      var ts, ms := RetryPossible(c, s, id, batch, false);
      var s' := ts[|ms|];
      Budget(left, 1 + TotalLeft(s'), Horizon(c));
      RecordsEarlier(c, s.clock + left * Horizon(c), s'.clock + TotalLeft(s') * Horizon(c));
      var us, ks := DrainPossible(c, s', batch);
      PathConcat(c, ts, ms, us, ks);
      ss, ls := ts + us[1..], ms + ks;
      assert ss[|ls|] == us[|ks|];
    }
  }

  lemma LeftPositive(c: Config, s: State, id: Id)
    requires Inv(c, s) && Retryable(s, id) && RowMaxAttempts(c) >= 1
    ensures TotalLeft(s) >= 1
  {
    hide ProcsOk, Exclusive, TotalLeft;
    LeftWhenRetryable(c, s, id);
  }

  lemma Budget(n: nat, k: nat, h: int)
    requires k <= n && h > 0
    ensures k * h <= n * h && (k >= 1 ==> k * h == h + (k - 1) * h)
  {
  }

  /** Open transactions can end: rolling them back leads to a state without any. */
  lemma {:induction false} CloseClaims(c: Config, s: State) returns (ss: seq<State>, ls: seq<Label>)
    requires Inv(c, s)
    ensures IsPath(c, ss, ls) && ss[0] == s && Inv(c, ss[|ls|]) && NoOpenClaims(ss[|ls|])
    ensures ss[|ls|].clock == s.clock && CreatesNothing(ls)
    decreases |s.procs|
  {
    hide Inv;
    if NoOpenClaims(s) {
      ss, ls := [s], [];
    } else {
      var p :| p in s.procs && s.procs[p].ClaimOpen?;
      DropStep(c, s, p);
      InvStep(c, s, Move(p, Drop));
      var s' := Apply(c, s, Move(p, Drop));
      var ts, ms := CloseClaims(c, s');
      PathConcat(c, [s, s'], [Move(p, Drop)], ts, ms);
      ss, ls := [s, s'] + ts[1..], [Move(p, Drop)] + ms;
    }
  }

  lemma DropStep(c: Config, s: State, p: nat)
    requires p in s.procs
    ensures Enabled(c, s, Move(p, Drop)) && |Apply(c, s, Move(p, Drop)).procs| < |s.procs|
  {
    var procs := Apply(c, s, Move(p, Drop)).procs;
    assert procs.Keys == s.procs.Keys - {p};
    assert |procs| == |procs.Keys| && |s.procs| == |s.procs.Keys|;
  }

  /** Every run, however it went so far, can be continued until no row with a recorded failure is pending. */
  lemma EveryRunCanDrain(c: Config, ss: seq<State>, ls: seq<Label>, batch: int)
    returns (ts: seq<State>, ms: seq<Label>)
    requires IsRun(c, ss, ls) && batch >= 1
    requires RecordsFailures(c, ss[|ls|].clock + TotalLeft(ss[|ls|]) * Horizon(c))
    requires LeaseFits(c, ss[|ls|].clock + TotalLeft(ss[|ls|]) * Horizon(c))
    ensures IsRun(c, ts, ms) && ls <= ms && Drained(ts[|ms|])
  {
    hide Inv, Enabled, Apply, Drained, NoOpenClaims, RecordsFailures, TotalLeft;
    var end := ss[|ls|];
    InvAlways(c, ss, ls, |ls|);
    OneAttempt(c, end.clock + TotalLeft(end) * Horizon(c));
    HorizonPositive(c);
    var us, ks := CloseClaims(c, end);
    LeftPath(c, us, ks, |ks|);
    Budget(TotalLeft(end), TotalLeft(us[|ks|]), Horizon(c));
    RecordsEarlier(c, end.clock + TotalLeft(end) * Horizon(c), end.clock + TotalLeft(us[|ks|]) * Horizon(c));
    PathConcat(c, ss, ls, us, ks);
    var vs, js := DrainPossible(c, us[|ks|], batch);
    PathConcat(c, ss + us[1..], ls + ks, vs, js);
    ts, ms := ss + us[1..] + vs[1..], ls + ks + js;
  }
}
