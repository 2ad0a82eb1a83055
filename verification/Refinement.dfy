/**
 The service's methods against the transition system: what each method's contract says about the
 table, the key store, the mailboxes and the topics is what some path of steps produces.
 */
module Refinement {
  import opened Wrappers
  import opened Json
  import opened Model
  import opened Backoff
  import opened Aggregate
  import opened Delivery
  import opened Cache
  import opened Rows
  import opened Protocol
  import opened Invariants
  import opened Repository
  import opened Service

  /** What has been published to the two queues, in order. */
  datatype Topics = Topics(send: seq<Request>, retry: seq<Id>)

  ghost function TopicsAfter(c: Config, s: State, l: Label, t: Topics): Topics
    requires Enabled(c, s, l)
  {
    match l
    case Move(p, PublishNow) => t.(send := t.send + [Transit(s.procs[p].req, s.procs[p].id)])
    case Move(p, PublishScheduled) =>
      var row := s.procs[p].found[0];
      t.(send := t.send + [Transit(Rebuilt(row), row.id)])
    case Move(p, PublishRetry) => t.(retry := t.retry + [s.procs[p].ids[0]])
    case _ => t
  }

  ghost function TopicsAlong(c: Config, ss: seq<State>, ls: seq<Label>, t: Topics): Topics
    requires IsPath(c, ss, ls)
  {
    if ls == [] then t
    else
      var n := |ls| - 1;
      TopicsAfter(c, ss[n], ls[n], TopicsAlong(c, ss[..n + 1], ls[..n], t))
  }

  /** Everything outside the processes. */
  datatype World = World(clock: Time, table: Table, keys: Keys, mailboxes: seq<Mailbox>, topics: Topics)

  /** The steps ls lead from s to s', with t on the topics before and the rest of w true afterwards. */
  ghost predicate Leads(c: Config, s: State, ss: seq<State>, ls: seq<Label>, t: Topics, w: World) {
    && IsPath(c, ss, ls) && ss[0] == s
    && w == WorldOf(ss[|ls|], TopicsAlong(c, ss, ls, t))
  }

  ghost function WorldOf(s: State, t: Topics): World {
    World(s.clock, TableOf(s), s.keys, s.mailboxes, t)
  }

  lemma Snoc(c: Config, s: State, ss: seq<State>, ls: seq<Label>, t: Topics, w: World, l: Label)
    requires Leads(c, s, ss, ls, t, w) && Enabled(c, ss[|ls|], l)
    ensures var s' := Apply(c, ss[|ls|], l);
            Leads(c, s, ss + [s'], ls + [l], t, WorldOf(s', TopicsAfter(c, ss[|ls|], l, w.topics)))
  {
    hide Enabled, Apply, TopicsAfter, TableOf;
    var s' := Apply(c, ss[|ls|], l);
    var us, ms := ss + [s'], ls + [l];
    forall i | 0 <= i < |ms| ensures Enabled(c, us[i], ms[i]) && us[i + 1] == Apply(c, us[i], ms[i]) {
      if i < |ls| {
        assert us[i] == ss[i] && us[i + 1] == ss[i + 1] && ms[i] == ls[i];
      }
    }
    assert us[..|ls| + 1] == ss && ms[..|ls|] == ls;
  }

  predicate Publishes(l: Label) {
    l.Move? && (l.a.PublishNow? || l.a.PublishScheduled? || l.a.PublishRetry?)
  }

  /** A path without publications leaves the topics alone. */
  lemma {:induction false} Unpublished(c: Config, ss: seq<State>, ls: seq<Label>, t: Topics)
    requires IsPath(c, ss, ls) && forall i :: 0 <= i < |ls| ==> !Publishes(ls[i])
    ensures TopicsAlong(c, ss, ls, t) == t
    decreases |ls|
  {
    hide Enabled, Apply;
    if ls != [] {
      var n := |ls| - 1;
      Unpublished(c, ss[..n + 1], ls[..n], t);
      assert !Publishes(ls[n]);
    }
  }

  // ---- what single steps do to the table -------------------------------

  predicate Rewrites(l: Label) {
    l.Create? || (l.Move? && (l.a.Commit? || l.a.Write?))
  }

  lemma QuietStep(c: Config, s: State, l: Label)
    requires Enabled(c, s, l) && !Rewrites(l)
    ensures TableOf(Apply(c, s, l)) == TableOf(s)
  {
    forall id | id in s.recs ensures RecAfter(c, s, l, id).row == s.recs[id].row {
    }
  }

  /** A committed claim is the bump of next_retry_at on its rows. */
  lemma CommitStep(c: Config, s: State, p: nat)
    requires p in s.procs && s.procs[p].ClaimOpen? && (s.procs[p].ids == [] || LeaseFits(c, s.procs[p].now))
    ensures var x := s.procs[p];
            TableOf(Apply(c, s, Move(p, Commit))) == ClaimedTable(TableOf(s), x.ids, x.now + PublishLease(c))
  {
  }

  /** A consumer's write is the update of its one row. */
  lemma WriteStep(c: Config, s: State, p: nat)
    requires Enabled(c, s, Move(p, Write))
    ensures var x := s.procs[p];
            TableOf(Apply(c, s, Move(p, Write))) == Written(c, TableOf(s), x.id, x.first, x.ok, x.at, s.clock)
  {
    hide Written, RecAfter, KeysAfter, ProcsAfter, MailAfter;
    var x := s.procs[p];
    WrittenKeys(c, TableOf(s), x.id, x.first, x.ok, x.at, s.clock);
    forall id | id in s.recs
      ensures RecAfter(c, s, Move(p, Write), id).row
           == Written(c, TableOf(s), s.procs[p].id, s.procs[p].first, s.procs[p].ok, s.procs[p].at, s.clock)[id]
    {
      WriteRow(c, s, p, id);
    }
  }

  lemma WrittenKeys(c: Config, rows: Table, id: Id, first: bool, ok: bool, sentAt: Time, at: Time)
    ensures Written(c, rows, id, first, ok, sentAt, at).Keys == rows.Keys
  {
  }

  lemma WriteRow(c: Config, s: State, p: nat, id: Id)
    requires Enabled(c, s, Move(p, Write)) && id in s.recs
    ensures var x := s.procs[p];
            RecAfter(c, s, Move(p, Write), id).row
            == Written(c, TableOf(s), x.id, x.first, x.ok, x.at, s.clock)[id]
  {
    hide FirstSuccess, RetrySuccess, FailureUpdate;
  }

  lemma CreateStep(c: Config, s: State, id: Id, req: Request)
    requires Enabled(c, s, Create(id, req))
    ensures TableOf(Apply(c, s, Create(id, req))) == TableOf(s)[id := NewRow(c, req, id)]
  {
    hide NewRow;
    forall k | k in s.recs ensures RecAfter(c, s, Create(id, req), k) == s.recs[k] {
    }
  }

  // ---- the retry claim pass --------------------------------------------

  lemma StartClaimStep(c: Config, s: State, batch: int, ids: seq<Id>)
    requires s.next !in s.procs && batch > 0
    requires IsLockResult(TableOf(s), LockedIds(s), ids, batch, s.clock)
    ensures Enabled(c, s, StartClaim(batch))
    ensures var s' := Apply(c, s, StartClaim(batch));
            && s.next in s'.procs && s'.procs[s.next] == ClaimLocking(s.clock, batch)
            && Enabled(c, s', Move(s.next, Lock(ids)))
            && WorldOf(s', Topics([], [])) == WorldOf(s, Topics([], []))
  {
    hide IsLockResult;
    var s' := Apply(c, s, StartClaim(batch));
    QuietStep(c, s, StartClaim(batch));
    assert s'.recs == s.recs by {
      forall id | id in s.recs ensures RecAfter(c, s, StartClaim(batch), id) == s.recs[id] {
      }
    }
    forall id | id in s.recs ensures Locked(s', id) <==> Locked(s, id) {
      if Locked(s, id) {
        var q :| q in s.procs && s.procs[q].ClaimOpen? && id in s.procs[q].ids;
        assert s'.procs[q] == s.procs[q];
      }
    }
    assert LockedIds(s') == LockedIds(s);
  }

  lemma LockStep(c: Config, s: State, p: nat, ids: seq<Id>)
    requires p in s.procs && Enabled(c, s, Move(p, Lock(ids)))
    ensures var s' := Apply(c, s, Move(p, Lock(ids)));
            && p in s'.procs && s'.procs[p] == ClaimOpen(s.procs[p].now, s.procs[p].batch, ids)
            && WorldOf(s', Topics([], [])) == WorldOf(s, Topics([], []))
  {
    hide IsLockResult;
    QuietStep(c, s, Move(p, Lock(ids)));
  }

  /** Opening the transaction changes nothing outside. */
  lemma OpenClaim(c: Config, s: State, batch: int, ids: seq<Id>, t: Topics) returns (ss: seq<State>, ls: seq<Label>)
    requires s.next !in s.procs && batch > 0
    requires IsLockResult(TableOf(s), LockedIds(s), ids, batch, s.clock)
    ensures Leads(c, s, ss, ls, t, WorldOf(s, t))
    ensures s.next in ss[|ls|].procs && ss[|ls|].procs[s.next] == ClaimOpen(s.clock, batch, ids)
    ensures s.next < ss[|ls|].next
  {
    hide IsLockResult, Enabled, RecsAfter, KeysAfter, ProcsAfter, MailAfter, TableOf;
    StartClaimStep(c, s, batch, ids);
    var s1 := Apply(c, s, StartClaim(batch));
    LockStep(c, s1, s.next, ids);
    var s2 := Apply(c, s1, Move(s.next, Lock(ids)));
    ss, ls := [s, s1, s2], [StartClaim(batch), Move(s.next, Lock(ids))];
    Unpublished(c, ss, ls, t);
  }

  /** What a pass that committed does, after publishing for the first n rows. */
  ghost function Claimed(c: Config, s: State, ids: seq<Id>, oks: seq<bool>, n: nat, t: Topics): World
    requires n <= |ids| <= |oks|
  {
    WorldOf(s, t).(table := ClaimedTable(TableOf(s), ids, s.clock + PublishLease(c)),
                   topics := t.(retry := t.retry + Kept(ids[..n], oks)))
  }

  lemma CommitWorld(c: Config, s: State, p: nat, ids: seq<Id>, batch: int)
    requires p in s.procs && s.procs[p] == ClaimOpen(s.clock, batch, ids) && (ids == [] || LeaseFits(c, s.clock))
    ensures Enabled(c, s, Move(p, Commit))
    ensures var s' := Apply(c, s, Move(p, Commit));
            && p in s'.procs && s'.procs[p] == ClaimPublishing(Some(s.clock + PublishLease(c)), ids)
            && s'.clock == s.clock && s'.keys == s.keys && s'.mailboxes == s.mailboxes
  {
    hide ClaimedTable, TableOf;
  }

  lemma PublishStep(c: Config, s: State, p: nat, ok: bool)
    requires p in s.procs && s.procs[p].ClaimPublishing? && s.procs[p].ids != [] && p < s.next
    ensures var l := Move(p, if ok then PublishRetry else SkipRetry);
            && Enabled(c, s, l)
            && var s' := Apply(c, s, l);
               && p in s'.procs && s'.procs[p] == ClaimPublishing(s.procs[p].until, s.procs[p].ids[1..])
               && WorldOf(s', Topics([], [])) == WorldOf(s, Topics([], []))
  {
    QuietStep(c, s, Move(p, if ok then PublishRetry else SkipRetry));
  }

  lemma KeptNext(ids: seq<Id>, oks: seq<bool>, n: nat)
    requires n < |ids| <= |oks|
    ensures Kept(ids[..n + 1], oks) == Kept(ids[..n], oks) + (if oks[n] then [ids[n]] else [])
  {
    assert ids[..n + 1][..n] == ids[..n];
  }

  /** Process p has committed the claim on ids and published for the first n. */
  ghost predicate Publishing(c: Config, s: State, ids: seq<Id>, n: nat, now: State, p: nat)
    requires n <= |ids|
  {
    p in now.procs && p < now.next && now.procs[p] == ClaimPublishing(Some(s.clock + PublishLease(c)), ids[n..])
  }

  lemma CommitPath(c: Config, s: State, ss: seq<State>, ls: seq<Label>, batch: int, ids: seq<Id>, oks: seq<bool>, t: Topics)
    returns (us: seq<State>, ms: seq<Label>)
    requires |ids| <= |oks| && Leads(c, s, ss, ls, t, WorldOf(s, t)) && s.next < ss[|ls|].next
    requires s.next in ss[|ls|].procs && ss[|ls|].procs[s.next] == ClaimOpen(s.clock, batch, ids)
    requires ids == [] || LeaseFits(c, s.clock)
    ensures Leads(c, s, us, ms, t, Claimed(c, s, ids, oks, 0, t)) && Publishing(c, s, ids, 0, us[|ms|], s.next)
  {
    hide Enabled, RecsAfter, KeysAfter, ProcsAfter, MailAfter, TableOf, ClaimedTable, Kept;
    var last := ss[|ls|];
    CommitWorld(c, last, s.next, ids, batch);
    CommitStep(c, last, s.next);
    Snoc(c, s, ss, ls, t, WorldOf(s, t), Move(s.next, Commit));
    us, ms := ss + [Apply(c, last, Move(s.next, Commit))], ls + [Move(s.next, Commit)];
    KeptNone(ids, oks);
    assert ids[0..] == ids;
  }

  lemma PublishOne(c: Config, s: State, ss: seq<State>, ls: seq<Label>, ids: seq<Id>, oks: seq<bool>, n: nat, t: Topics)
    returns (us: seq<State>, ms: seq<Label>)
    requires n < |ids| <= |oks|
    requires Leads(c, s, ss, ls, t, Claimed(c, s, ids, oks, n, t)) && Publishing(c, s, ids, n, ss[|ls|], s.next)
    ensures Leads(c, s, us, ms, t, Claimed(c, s, ids, oks, n + 1, t)) && Publishing(c, s, ids, n + 1, us[|ms|], s.next)
  {
    hide Enabled, RecsAfter, KeysAfter, ProcsAfter, MailAfter, TableOf, ClaimedTable, Kept;
    var last := ss[|ls|];
    var l := Move(s.next, if oks[n] then PublishRetry else SkipRetry);
    PublishStep(c, last, s.next, oks[n]);
    Snoc(c, s, ss, ls, t, Claimed(c, s, ids, oks, n, t), l);
    us, ms := ss + [Apply(c, last, l)], ls + [l];
    KeptNext(ids, oks, n);
    assert ids[n..][1..] == ids[n + 1..];
  }

  lemma {:induction false} PublishPath(c: Config, s: State, ss: seq<State>, ls: seq<Label>, ids: seq<Id>, oks: seq<bool>,
                                       n: nat, t: Topics)
    returns (us: seq<State>, ms: seq<Label>)
    requires n <= |ids| <= |oks|
    requires Leads(c, s, ss, ls, t, Claimed(c, s, ids, oks, 0, t)) && Publishing(c, s, ids, 0, ss[|ls|], s.next)
    ensures Leads(c, s, us, ms, t, Claimed(c, s, ids, oks, n, t)) && Publishing(c, s, ids, n, us[|ms|], s.next)
    decreases n
  {
    hide IsPath, WorldOf, TopicsAlong, Claimed, Publishing;
    us, ms := ss, ls;
    if n > 0 {
      us, ms := PublishPath(c, s, ss, ls, ids, oks, n - 1, t);
      us, ms := PublishOne(c, s, us, ms, ids, oks, n - 1, t);
    }
  }

  lemma KeptNone(ids: seq<Id>, oks: seq<bool>)
    requires |ids| <= |oks|
    ensures Kept(ids[..0], oks) == []
  {
  }

  /**
   The pass of EnqueuePendingRetries is a path: whatever the locking query may answer, the table and the
   topic it leaves behind are those of opening, committing and publishing, or of rolling back. It rolls back
   when commit is false and when the lease ends past the last timestamp.
   */
  lemma ClaimPassIsPath(c: Config, s: State, batch: int, ids: seq<Id>, commit: bool, oks: seq<bool>, t: Topics)
    returns (ss: seq<State>, ls: seq<Label>)
    requires Inv(c, s) && batch > 0 && |ids| <= |oks|
    requires IsLockResult(TableOf(s), LockedIds(s), ids, batch, s.clock)
    ensures var commits := commit && (ids == [] || LeaseFits(c, s.clock));
            Leads(c, s, ss, ls, t, if commits then Claimed(c, s, ids, oks, |ids|, t) else WorldOf(s, t))
  {
    hide IsLockResult, Enabled, RecsAfter, KeysAfter, ProcsAfter, MailAfter, Claimed, TableOf, RowsOk, ProcOk, Exclusive;
    var us, ms := OpenClaim(c, s, batch, ids, t);
    if commit && (ids == [] || LeaseFits(c, s.clock)) {
      ss, ls := CommitPath(c, s, us, ms, batch, ids, oks, t);
      ss, ls := PublishPath(c, s, ss, ls, ids, oks, |ids|, t);
    } else {
      var last := us[|ms|];
      DropWorld(c, last, s.next);
      Snoc(c, s, us, ms, t, WorldOf(s, t), Move(s.next, Drop));
      ss, ls := us + [Apply(c, last, Move(s.next, Drop))], ms + [Move(s.next, Drop)];
    }
  }

  lemma DropWorld(c: Config, s: State, p: nat)
    requires p in s.procs
    ensures Enabled(c, s, Move(p, Drop))
    ensures WorldOf(Apply(c, s, Move(p, Drop)), Topics([], [])) == WorldOf(s, Topics([], []))
  {
    QuietStep(c, s, Move(p, Drop));
  }

  // ---- the two consumers -----------------------------------------------

  lemma TickStep(c: Config, s: State, now: Time)
    requires now >= s.clock
    ensures Enabled(c, s, Tick(now))
    ensures var s' := Apply(c, s, Tick(now));
            && s'.procs == s.procs && s'.recs == s.recs && s'.next == s.next + 1
            && WorldOf(s', Topics([], [])) == WorldOf(s, Topics([], [])).(clock := now)
            && forall id :: Locked(s', id) <==> Locked(s, id)
  {
    var s' := Apply(c, s, Tick(now));
    forall id | id in s.recs ensures RecAfter(c, s, Tick(now), id) == s.recs[id] {
    }
    assert s'.procs == s.procs;
    forall id ensures Locked(s', id) <==> Locked(s, id) {
    }
  }

  predicate Sendable(x: Proc) {
    x.SendQueued? || x.RetryReady?
  }

  lemma SendStep(c: Config, s: State, p: nat, ok: bool)
    requires p in s.procs && Sendable(s.procs[p]) && (ok ==> !Refused(s.procs[p].req, s.procs[p].id in s.recs))
    ensures Enabled(c, s, Move(p, Send(ok)))
    ensures var s', x := Apply(c, s, Move(p, Send(ok))), s.procs[p];
            && p in s'.procs && s'.procs[p] == Done(x.id, x.SendQueued?, ok, s.clock, x.until)
            && s'.recs.Keys == s.recs.Keys
            && WorldOf(s', Topics([], [])) ==
               WorldOf(s, Topics([], [])).(mailboxes := s.mailboxes + if ok then MailboxesOf(x.req) else [])
            && forall id :: Locked(s', id) ==> Locked(s, id)
  {
    hide Refused, MailboxesOf;
    var s' := Apply(c, s, Move(p, Send(ok)));
    QuietStep(c, s, Move(p, Send(ok)));
    forall id | Locked(s', id) ensures Locked(s, id) {
      var q :| q in s'.procs && s'.procs[q].ClaimOpen? && id in s'.procs[q].ids;
      assert s.procs[q] == s'.procs[q];
    }
  }

  lemma WriteWorld(c: Config, s: State, p: nat, write: bool)
    requires p in s.procs && s.procs[p].Done? && s.procs[p].id in s.recs && !Locked(s, s.procs[p].id)
    ensures var l, x := Move(p, if write then Write else Drop), s.procs[p];
            && Enabled(c, s, l)
            && WorldOf(Apply(c, s, l), Topics([], [])) ==
               WorldOf(s, Topics([], [])).(
                 table := if write then Written(c, TableOf(s), x.id, x.first, x.ok, x.at, s.clock) else TableOf(s))
  {
    if write {
      WriteStep(c, s, p);
    } else {
      DropWorld(c, s, p);
    }
  }

  /** The world after a delivery that answered ok at now and reached the database at dbNow. */
  ghost function Consumed(c: Config, s: State, x: Proc, ok: bool, now: Time, dbNow: Time, write: bool, t: Topics): World
    requires Sendable(x)
  {
    WorldOf(s, t).(
      clock := dbNow,
      table := if write then Written(c, TableOf(s), x.id, x.SendQueued?, ok, now, dbNow) else TableOf(s),
      mailboxes := s.mailboxes + if ok then MailboxesOf(x.req) else [])
  }

  /** Tick, send, tick, write. */
  lemma DeliverPath(c: Config, s: State, p: nat, ok: bool, now: Time, dbNow: Time, write: bool, t: Topics)
    returns (ss: seq<State>, ls: seq<Label>)
    requires p in s.procs && Sendable(s.procs[p]) && s.procs[p].id in s.recs && !Locked(s, s.procs[p].id)
    requires ok ==> !Refused(s.procs[p].req, true)
    requires s.clock <= now <= dbNow
    ensures Leads(c, s, ss, ls, t, Consumed(c, s, s.procs[p], ok, now, dbNow, write, t))
  {
    hide Enabled, Apply, TableOf, Locked, Written, Refused, MailboxesOf;
    var empty := Topics([], []);
    TickStep(c, s, now);
    var s1 := Apply(c, s, Tick(now));
    SendStep(c, s1, p, ok);
    var s2 := Apply(c, s1, Move(p, Send(ok)));
    TickStep(c, s2, dbNow);
    var s3 := Apply(c, s2, Tick(dbNow));
    WriteWorld(c, s3, p, write);
    var l := Move(p, if write then Write else Drop);
    var s4 := Apply(c, s3, l);
    ss, ls := [s, s1, s2, s3, s4], [Tick(now), Move(p, Send(ok)), Tick(dbNow), l];
    Unpublished(c, ss, ls, t);
  }

  lemma QueuedMessage(c: Config, s: State, p: nat)
    requires Inv(c, s) && p in s.procs && (Sendable(s.procs[p]) || s.procs[p].RetryQueued?)
    ensures s.procs[p].id in s.recs
    ensures Sendable(s.procs[p]) ==> s.procs[p].req.notificationID == s.procs[p].id
    ensures Rebuilt(s.recs[s.procs[p].id].row).notificationID == s.procs[p].id
  {
    hide FromRequest, Exclusive, MarshalParams;
    assert ProcOk(c, s, s.procs[p]);
    assert Delivered(Rebuilt(s.recs[s.procs[p].id].row)).notificationID == s.procs[p].id;
  }

  /** ProcessNotificationFromQueue on a queued message is a path, whatever the providers answer. */
  lemma SendConsumerIsPath(c: Config, s: State, p: nat, providers: Providers, now: Time, dbNow: Time, write: bool, t: Topics)
    returns (ss: seq<State>, ls: seq<Label>)
    requires Inv(c, s) && p in s.procs && s.procs[p].SendQueued? && !Locked(s, s.procs[p].id)
    requires EnoughReplies(providers, s.procs[p].req) && s.clock <= now <= dbNow
    ensures var x := s.procs[p];
            var ok := DeliveredBy(providers, x.req, x.req.notificationID in TableOf(s));
            Leads(c, s, ss, ls, t, Consumed(c, s, x, ok, now, dbNow, write, t))
  {
    hide Leads, Inv, Consumed, Refused, Accepts, EnoughReplies, Locked;
    QueuedMessage(c, s, p);
    ss, ls := DeliverPath(c, s, p, DeliveredBy(providers, s.procs[p].req, true), now, dbNow, write, t);
  }

  /** The world after ProcessNotificationRetryFromQueue on message id. */
  ghost function Retried(c: Config, s: State, id: Id, providers: Providers, now: Time, dbNow: Time, write: bool,
                         t: Topics): World
    requires id in s.recs && EnoughReplies(providers, Rebuilt(s.recs[id].row))
  {
    var row := s.recs[id].row;
    var req := Rebuilt(row);
    if RetryGuard(row) then
      Consumed(c, s, RetryReady(id, req, None), DeliveredBy(providers, req, true), now, dbNow, write, t)
    else WorldOf(s, t)
  }

  lemma ReadRowStep(c: Config, s: State, p: nat)
    requires p in s.procs && s.procs[p].RetryQueued? && s.procs[p].id in s.recs
    ensures Enabled(c, s, Move(p, ReadRow))
    ensures var s', x := Apply(c, s, Move(p, ReadRow)), s.procs[p];
            && s'.recs.Keys == s.recs.Keys
            && WorldOf(s', Topics([], [])) == WorldOf(s, Topics([], []))
            && (RetryGuard(s.recs[x.id].row) ==>
                  p in s'.procs && s'.procs[p] == RetryReady(x.id, Rebuilt(s.recs[x.id].row), x.until))
            && forall id :: Locked(s', id) ==> Locked(s, id)
  {
    hide Rebuilt;
    var s' := Apply(c, s, Move(p, ReadRow));
    QuietStep(c, s, Move(p, ReadRow));
    forall id | Locked(s', id) ensures Locked(s, id) {
      var q :| q in s'.procs && s'.procs[q].ClaimOpen? && id in s'.procs[q].ids;
      assert s.procs[q] == s'.procs[q];
    }
  }

  /** ProcessNotificationRetryFromQueue on a queued message is a path. */
  lemma RetryConsumerIsPath(c: Config, s: State, p: nat, providers: Providers, now: Time, dbNow: Time, write: bool, t: Topics)
    returns (ss: seq<State>, ls: seq<Label>)
    requires Inv(c, s) && p in s.procs && s.procs[p].RetryQueued? && !Locked(s, s.procs[p].id)
    requires s.procs[p].id in s.recs && EnoughReplies(providers, Rebuilt(s.recs[s.procs[p].id].row))
    requires s.clock <= now <= dbNow
    ensures Leads(c, s, ss, ls, t, Retried(c, s, s.procs[p].id, providers, now, dbNow, write, t))
  {
    hide Inv, Refused, Accepts, EnoughReplies, Locked, Enabled, Apply, Rebuilt, MailboxesOf, Written, TableOf;
    var x := s.procs[p];
    ReadRowStep(c, s, p);
    var s1 := Apply(c, s, Move(p, ReadRow));
    if RetryGuard(s.recs[x.id].row) {
      var us, ms := DeliverPath(c, s1, p, DeliveredBy(providers, Rebuilt(s.recs[x.id].row), true), now, dbNow, write, t);
      ss, ls := Prepend(c, s, Move(p, ReadRow), us, ms, t);
    } else {
      ss, ls := [s, s1], [Move(p, ReadRow)];
      Unpublished(c, ss, ls, t);
    }
  }

  lemma {:induction false} Prepend(c: Config, s: State, l: Label, us: seq<State>, ms: seq<Label>, t: Topics)
    returns (ss: seq<State>, ls: seq<Label>)
    requires Enabled(c, s, l) && !Publishes(l) && IsPath(c, us, ms) && us[0] == Apply(c, s, l)
    ensures ss == [s] + us && ls == [l] + ms && IsPath(c, ss, ls)
    ensures TopicsAlong(c, ss, ls, t) == TopicsAlong(c, us, ms, t)
    decreases |ms|
  {
    hide Enabled, Apply;
    ss, ls := [s] + us, [l] + ms;
    assert IsPath(c, ss, ls) by {
      PathConcat(c, [s, us[0]], [l], us, ms);
      assert [s, us[0]] + us[1..] == ss;
    }
    if ms == [] {
      Unpublished(c, ss, ls, t);
    } else {
      var n := |ms| - 1;
      var us', ms' := Prepend(c, s, l, us[..n + 1], ms[..n], t);
      assert ss[..|ls|] == us' && ls[..|ls| - 1] == ms';
      assert ss[|ls| - 1] == us[n] && ls[|ls| - 1] == ms[n];
    }
  }

  // ---- enqueueing ------------------------------------------------------

  lemma CreateWorld(c: Config, s: State, id: Id, req: Request)
    requires Enabled(c, s, Create(id, req))
    ensures var s' := Apply(c, s, Create(id, req));
            && s.next in s'.procs && s'.procs[s.next] == EnqChecking(id, req)
            && WorldOf(s', Topics([], [])) ==
               WorldOf(s, Topics([], [])).(table := TableOf(s)[id := NewRow(c, req, id)])
  {
    hide NewRow;
    CreateStep(c, s, id, req);
  }

  lemma CheckStep(c: Config, s: State, p: nat)
    requires p in s.procs && s.procs[p].EnqChecking?
    ensures Enabled(c, s, Move(p, Check))
    ensures var s', x := Apply(c, s, Move(p, Check)), s.procs[p];
            && WorldOf(s', Topics([], [])) == WorldOf(s, Topics([], []))
            && (!InFuture(x.req, s.clock) ==> p in s'.procs && s'.procs[p] == EnqPublishing(x.id, x.req))
  {
    QuietStep(c, s, Move(p, Check));
  }

  lemma PublishNowStep(c: Config, s: State, p: nat)
    requires p in s.procs && s.procs[p].EnqPublishing? && MarshalableParams(s.procs[p].req.params)
    ensures Enabled(c, s, Move(p, PublishNow))
    ensures WorldOf(Apply(c, s, Move(p, PublishNow)), Topics([], [])) == WorldOf(s, Topics([], []))
  {
    hide MarshalableParams, Transit;
    QuietStep(c, s, Move(p, PublishNow));
  }

  /** The world after EnqueueNotification created row id and looked at the clock at now. */
  ghost function Enqueued(c: Config, s: State, req: Request, id: Id, now: Time, publishes: bool, t: Topics): World {
    WorldOf(s, t).(clock := now, table := TableOf(s)[id := NewRow(c, req, id)],
                   topics := t.(send := t.send + if publishes then [Transit(req, id)] else []))
  }

  /** EnqueueNotification is a path, whether or not the request is valid and its Create succeeds. */
  lemma EnqueueIsPath(c: Config, s: State, req: Request, id: Id, created: bool, now: Time, publishOk: bool, t: Topics)
    returns (ss: seq<State>, ls: seq<Label>)
    requires created ==> Enabled(c, s, Create(id, req)) && now >= s.clock
    ensures var publishes := !InFuture(req, now) && MarshalableParams(req.params) && publishOk;
            Leads(c, s, ss, ls, t, if created then Enqueued(c, s, req, id, now, publishes, t) else WorldOf(s, t))
  {
    hide Enabled, Apply, TableOf, NewRow, Transit, InFuture, MarshalableParams;
    if created {
      ss, ls := CreatedPath(c, s, req, id, now, publishOk, t);
    } else {
      ss, ls := [s], [];
    }
  }

  lemma CreatedPath(c: Config, s: State, req: Request, id: Id, now: Time, publishOk: bool, t: Topics)
    returns (ss: seq<State>, ls: seq<Label>)
    requires Enabled(c, s, Create(id, req)) && now >= s.clock
    ensures var publishes := !InFuture(req, now) && MarshalableParams(req.params) && publishOk;
            Leads(c, s, ss, ls, t, Enqueued(c, s, req, id, now, publishes, t))
  {
    hide Enabled, Apply, TableOf, NewRow, Transit, InFuture, MarshalableParams;
    var p := s.next;
    CreateWorld(c, s, id, req);
    var s1 := Apply(c, s, Create(id, req));
    TickStep(c, s1, now);
    var s2 := Apply(c, s1, Tick(now));
    CheckStep(c, s2, p);
    var s3 := Apply(c, s2, Move(p, Check));
    ss, ls := [s, s1, s2, s3], [Create(id, req), Tick(now), Move(p, Check)];
    Unpublished(c, ss, ls, t);
    if !InFuture(req, now) && MarshalableParams(req.params) && publishOk {
      PublishNowStep(c, s3, p);
      Snoc(c, s, ss, ls, t, WorldOf(s3, t), Move(p, PublishNow));
      ss, ls := ss + [Apply(c, s3, Move(p, PublishNow))], ls + [Move(p, PublishNow)];
    }
  }

  // ---- the scheduled pass ----------------------------------------------

  /** Process p has found still to go and no lock in hand. */
  ghost predicate Looping(s: State, p: nat, found: seq<Notification>) {
    p in s.procs && p < s.next && s.procs[p] == SchedLooping(found, false, None)
  }

  ghost predicate Holding(s: State, p: nat, found: seq<Notification>) {
    p in s.procs && p < s.next && s.procs[p].SchedLooping? && s.procs[p].won && s.procs[p].found == found
  }

  lemma FindSteps(c: Config, s: State, batch: int, found: seq<Notification>)
    requires batch > 0 && IsFirstDue(TableOf(s), found, batch, s.clock)
    ensures Enabled(c, s, StartScheduled(batch))
    ensures var s1 := Apply(c, s, StartScheduled(batch));
            && WorldOf(s1, Topics([], [])) == WorldOf(s, Topics([], []))
            && Enabled(c, s1, Move(s.next, Find(found)))
            && var s2 := Apply(c, s1, Move(s.next, Find(found)));
               WorldOf(s2, Topics([], [])) == WorldOf(s, Topics([], [])) && Looping(s2, s.next, found)
  {
    hide IsFirstDue, TableOf;
    QuietStep(c, s, StartScheduled(batch));
    QuietStep(c, Apply(c, s, StartScheduled(batch)), Move(s.next, Find(found)));
  }

  lemma SkipStep(c: Config, s: State, p: nat)
    requires p in s.procs && p < s.next && s.procs[p].SchedLooping? && s.procs[p].found != []
    ensures Enabled(c, s, Move(p, SkipScheduled))
    ensures var s' := Apply(c, s, Move(p, SkipScheduled));
            WorldOf(s', Topics([], [])) == WorldOf(s, Topics([], [])) && Looping(s', p, s.procs[p].found[1..])
  {
    QuietStep(c, s, Move(p, SkipScheduled));
  }

  lemma NXStep(c: Config, s: State, p: nat, found: seq<Notification>)
    requires Looping(s, p, found) && found != [] && DedupTTL(c) >= 0
    ensures Enabled(c, s, Move(p, SetNX))
    ensures var s' := Apply(c, s, Move(p, SetNX));
            var key := DedupKey(c, found[0].id);
            if Live(s.keys, key, s.clock) then
              WorldOf(s', Topics([], [])) == WorldOf(s, Topics([], [])) && Looping(s', p, found[1..])
            else
              && WorldOf(s', Topics([], [])) ==
                 WorldOf(s, Topics([], [])).(keys := s.keys[key := Expiry(s.clock, DedupTTL(c))])
              && Holding(s', p, found)
  {
    hide DedupKey, DedupTTL;
    QuietStep(c, s, Move(p, SetNX));
  }

  lemma SchedPublishStep(c: Config, s: State, p: nat, found: seq<Notification>)
    requires Holding(s, p, found) && found != [] && MarshalableParams(Rebuilt(found[0]).params)
    ensures Enabled(c, s, Move(p, PublishScheduled))
    ensures var s' := Apply(c, s, Move(p, PublishScheduled));
            && WorldOf(s', Topics([], [])) == WorldOf(s, Topics([], [])) && Looping(s', p, found[1..])
            && s.next in s'.procs && s'.procs[s.next] ==
               SendQueued(found[0].id, Transit(Rebuilt(found[0]), found[0].id), s.procs[p].until)
  {
    hide MarshalableParams, Rebuilt, Transit;
    QuietStep(c, s, Move(p, PublishScheduled));
  }

  /** The world after one more row of a scheduled pass. */
  ghost function RowDone(c: Config, w: World, row: Notification, e: ScheduledStep): World {
    var (keys, send) := ScheduledRow(c, w.keys, w.topics.send, row, e);
    w.(clock := e.now, keys := keys, topics := w.topics.(send := send))
  }

  /** After SetNX is won: publish, or not. */
  lemma HeldPath(c: Config, s: State, ss: seq<State>, ls: seq<Label>, t: Topics, w: World, p: nat,
                 found: seq<Notification>, published: bool)
    returns (us: seq<State>, ms: seq<Label>)
    requires Leads(c, s, ss, ls, t, w) && Holding(ss[|ls|], p, found) && found != []
    ensures var row := found[0];
            var out := published && MarshalableParams(Rebuilt(row).params);
            && Leads(c, s, us, ms, t, w.(topics := w.topics.(
                 send := if out then w.topics.send + [Transit(Rebuilt(row), row.id)] else w.topics.send)))
            && Looping(us[|ms|], p, found[1..])
  {
    hide Enabled, Apply, TableOf, MarshalableParams, Rebuilt, Transit;
    var last := ss[|ls|];
    var l: Label;
    if published && MarshalableParams(Rebuilt(found[0]).params) {
      SchedPublishStep(c, last, p, found);
      l := Move(p, PublishScheduled);
    } else {
      SkipStep(c, last, p);
      l := Move(p, SkipScheduled);
    }
    Snoc(c, s, ss, ls, t, w, l);
    us, ms := ss + [Apply(c, last, l)], ls + [l];
  }

  lemma RowPath(c: Config, s: State, ss: seq<State>, ls: seq<Label>, t: Topics, w: World, p: nat,
                found: seq<Notification>, e: ScheduledStep)
    returns (us: seq<State>, ms: seq<Label>)
    requires Leads(c, s, ss, ls, t, w) && Looping(ss[|ls|], p, found) && found != [] && e.now >= w.clock
    ensures Leads(c, s, us, ms, t, RowDone(c, w, found[0], e)) && Looping(us[|ms|], p, found[1..])
  {
    hide Enabled, Apply, TableOf, MarshalableParams, Rebuilt, Transit, DedupKey, DedupTTL, Live;
    TickStep(c, ss[|ls|], e.now);
    Snoc(c, s, ss, ls, t, w, Tick(e.now));
    var last := Apply(c, ss[|ls|], Tick(e.now));
    var ticked := w.(clock := e.now);
    us, ms := ss + [last], ls + [Tick(e.now)];
    if !e.reachable || DedupTTL(c) < 0 {
      SkipStep(c, last, p);
      Snoc(c, s, us, ms, t, ticked, Move(p, SkipScheduled));
      us, ms := us + [Apply(c, last, Move(p, SkipScheduled))], ms + [Move(p, SkipScheduled)];
    } else {
      NXStep(c, last, p, found);
      Snoc(c, s, us, ms, t, ticked, Move(p, SetNX));
      us, ms := us + [Apply(c, last, Move(p, SetNX))], ms + [Move(p, SetNX)];
      var key := DedupKey(c, found[0].id);
      if !Live(w.keys, key, e.now) {
        var won := ticked.(keys := w.keys[key := Expiry(e.now, DedupTTL(c))]);
        us, ms := HeldPath(c, s, us, ms, t, won, p, found, e.published);
      }
    }
  }

  /** The clock readings of a pass never go back. */
  ghost predicate Forward(clock: Time, env: seq<ScheduledStep>) {
    && (forall i :: 0 <= i < |env| ==> env[i].now >= clock)
    && (forall i, j :: 0 <= i < j < |env| ==> env[i].now <= env[j].now)
  }

  /** The world after the first n rows of a scheduled pass. */
  ghost function Passed(c: Config, s: State, found: seq<Notification>, env: seq<ScheduledStep>, n: nat, t: Topics): World
    requires n <= |found| <= |env|
  {
    var (keys, out) := ScheduledPass(c, s.keys, found, env, n);
    WorldOf(s, t).(clock := if n == 0 then s.clock else env[n - 1].now, keys := keys,
                   topics := t.(send := t.send + out))
  }

  lemma PassedNext(c: Config, s: State, found: seq<Notification>, env: seq<ScheduledStep>, n: nat, t: Topics)
    requires n < |found| <= |env|
    ensures Passed(c, s, found, env, n + 1, t) == RowDone(c, Passed(c, s, found, env, n, t), found[n], env[n])
  {
    hide ScheduledRow, TableOf;
    var (keys, out) := ScheduledPass(c, s.keys, found, env, n);
    ScheduledRowAppends(c, keys, t.send, out, found[n], env[n]);
  }

  /** The pass of EnqueueDueScheduledNotifications is a path, row by row. */
  lemma {:induction false} ScheduledPassIsPath(c: Config, s: State, batch: int, found: seq<Notification>,
                                               env: seq<ScheduledStep>, n: nat, t: Topics)
    returns (ss: seq<State>, ls: seq<Label>)
    requires batch > 0 && IsFirstDue(TableOf(s), found, batch, s.clock)
    requires n <= |found| <= |env| && Forward(s.clock, env)
    ensures Leads(c, s, ss, ls, t, Passed(c, s, found, env, n, t)) && Looping(ss[|ls|], s.next, found[n..])
    decreases n
  {
    hide IsFirstDue, TableOf, Enabled, Apply, RowDone;
    if n == 0 {
      FindSteps(c, s, batch, found);
      var s1 := Apply(c, s, StartScheduled(batch));
      ss, ls := [s, s1, Apply(c, s1, Move(s.next, Find(found)))], [StartScheduled(batch), Move(s.next, Find(found))];
      FindPath(c, ss, ls, t);
      assert found[0..] == found;
    } else {
      ss, ls := ScheduledPassIsPath(c, s, batch, found, env, n - 1, t);
      PassedNext(c, s, found, env, n - 1, t);
      ss, ls := RowPath(c, s, ss, ls, t, Passed(c, s, found, env, n - 1, t), s.next, found[n - 1..], env[n - 1]);
      assert found[n - 1..][1..] == found[n..];
    }
  }

  lemma FindPath(c: Config, ss: seq<State>, ls: seq<Label>, t: Topics)
    requires |ss| == 3 && |ls| == 2 && !Publishes(ls[0]) && !Publishes(ls[1])
    requires Enabled(c, ss[0], ls[0]) && ss[1] == Apply(c, ss[0], ls[0])
    requires Enabled(c, ss[1], ls[1]) && ss[2] == Apply(c, ss[1], ls[1])
    ensures Leads(c, ss[0], ss, ls, t, WorldOf(ss[2], t))
  {
    hide Enabled, Apply;
    Unpublished(c, ss, ls, t);
  }
}
