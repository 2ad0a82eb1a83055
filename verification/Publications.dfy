/**
 Publications against the locks behind them: the scheduler publishes no more often than SetNX is won,
 the retry pass no more often than a claim commits, and SetNX wins are a TTL apart.
 */
module Publications {
  import opened Wrappers
  import opened Model
  import opened Backoff
  import opened Cache
  import opened Rows
  import opened Histories
  import opened Protocol
  import opened Invariants

  // ---- publications never outnumber locks ------------------------------

  datatype Pass = Scheduled | Retry

  /** The event that takes the lock, and the event that spends it. */
  function Taken(k: Pass): Kind {
    if k == Scheduled then Won else Claimed
  }

  function Spent(k: Pass): Kind {
    if k == Scheduled then SchedPublished else RetryPublished
  }

  /** x has taken the lock on id and has yet to spend it. */
  predicate Holds(k: Pass, x: Proc, id: Id) {
    match k
    case Scheduled => x.SchedLooping? && x.won && x.found != [] && x.found[0].id == id
    case Retry => x.ClaimPublishing? && id in x.ids
  }

  function Holders(k: Pass, procs: map<nat, Proc>, id: Id): set<nat> {
    set p | p in procs && Holds(k, procs[p], id)
  }

  ghost predicate Balanced(k: Pass, s: State, id: Id)
    requires id in s.recs
  {
    Count(s.recs[id].hist, Spent(k)) + |Holders(k, s.procs, id)| <= Count(s.recs[id].hist, Taken(k))
  }

  /** A move takes the lock when it logs so, and gives it up when it publishes. */
  lemma MoveBalance(c: Config, s: State, k: Pass, x: Proc, a: Act, id: Id)
    requires ProcOk(c, s, x) && CanMove(c, s, x, a) && id in s.recs
    ensures var e := MoveEvent(c, s, x, a, id);
            var after := After(c, s, x, a);
            One(e.Some? && e.value.kind == Spent(k)) + One(after.Some? && Holds(k, after.value, id))
            <= One(Holds(k, x, id)) + One(e.Some? && e.value.kind == Taken(k))
    ensures Spawn(c, s, x, a).Some? ==> !Holds(k, Spawn(c, s, x, a).value, id)
  {
    hide ProcOk, CanMove, MoveEvent, After, Spawn, Holds;
    if k == Scheduled {
      ScheduledBalance(c, s, x, a, id);
    } else {
      RetryBalance(c, s, x, a, id);
    }
  }

  lemma ScheduledBalance(c: Config, s: State, x: Proc, a: Act, id: Id)
    requires ProcOk(c, s, x) && CanMove(c, s, x, a) && id in s.recs
    ensures var e := MoveEvent(c, s, x, a, id);
            var after := After(c, s, x, a);
            One(e.Some? && e.value.kind == SchedPublished) + One(after.Some? && Holds(Scheduled, after.value, id))
            <= One(Holds(Scheduled, x, id)) + One(e.Some? && e.value.kind == Won)
    ensures Spawn(c, s, x, a).Some? ==> !Holds(Scheduled, Spawn(c, s, x, a).value, id)
  {
    hide ProcOk, SameBody, IsFirstDue, IsLockResult, DedupKey;
  }

  lemma RetryBalance(c: Config, s: State, x: Proc, a: Act, id: Id)
    requires ProcOk(c, s, x) && CanMove(c, s, x, a) && id in s.recs
    ensures var e := MoveEvent(c, s, x, a, id);
            var after := After(c, s, x, a);
            One(e.Some? && e.value.kind == RetryPublished) + One(after.Some? && Holds(Retry, after.value, id))
            <= One(Holds(Retry, x, id)) + One(e.Some? && e.value.kind == Claimed)
    ensures Spawn(c, s, x, a).Some? ==> !Holds(Retry, Spawn(c, s, x, a).value, id)
  {
    hide SameBody, IsFirstDue, IsLockResult, DedupKey;
    if a.PublishRetry? {
      assert forall j :: 0 <= j < |x.ids[1..]| ==> x.ids[1..][j] == x.ids[j + 1];
    }
  }

  lemma HoldersMoved(k: Pass, procs: map<nat, Proc>, procs': map<nat, Proc>, p: nat, id: Id)
    requires p in procs
    requires forall q | q != p :: q in procs' && Holds(k, procs'[q], id) <==> q in procs && Holds(k, procs[q], id)
    ensures |Holders(k, procs', id)| + One(Holds(k, procs[p], id))
            == |Holders(k, procs, id)| + One(p in procs' && Holds(k, procs'[p], id))
  {
    hide Holds;
    var a, b := Holders(k, procs, id), Holders(k, procs', id);
    assert a - {p} == b - {p};
    CardinalityWithout(a, p);
    CardinalityWithout(b, p);
  }

  lemma CardinalityWithout(a: set<nat>, p: nat)
    ensures |a| == |a - {p}| + One(p in a)
  {
    if p in a {
      assert a == (a - {p}) + {p};
    } else {
      assert a == a - {p};
    }
  }

  lemma HoldersSame(k: Pass, procs: map<nat, Proc>, procs': map<nat, Proc>, id: Id)
    requires forall q :: q in procs' && Holds(k, procs'[q], id) <==> q in procs && Holds(k, procs[q], id)
    ensures Holders(k, procs', id) == Holders(k, procs, id)
  {
  }

  /** Only the moved process may change hands. */
  lemma OthersHold(c: Config, s: State, l: Label, k: Pass, id: Id)
    requires Inv(c, s) && Enabled(c, s, l) && id in s.recs
    ensures forall q | !(l.Move? && q == l.p) ::
              q in Apply(c, s, l).procs && Holds(k, Apply(c, s, l).procs[q], id) <==>
              q in s.procs && Holds(k, s.procs[q], id)
  {
    hide RecOk, FromRequest, CanMove, MoveEvent, After, Spawn, Exclusive, ProcOk, RecsAfter, KeysAfter, MailAfter;
    if l.Move? {
      assert ProcOk(c, s, s.procs[l.p]);
      MoveBalance(c, s, k, s.procs[l.p], l.a, id);
    }
  }

  lemma BalancedStep(c: Config, s: State, l: Label, k: Pass, id: Id)
    requires Inv(c, s) && Enabled(c, s, l) && id in Apply(c, s, l).recs
    requires id in s.recs ==> Balanced(k, s, id)
    ensures Balanced(k, Apply(c, s, l), id)
  {
    hide RecOk, FromRequest, CanMove, MoveEvent, After, Spawn, RowAfter, Exclusive, ProcOk, Holds, Holders;
    hide KeysAfter, MailAfter, Taken, Spent;
    var s' := Apply(c, s, l);
    if id !in s.recs {
      NobodyHolds(c, s, l, k, id);
    } else {
      EventCounts(c, s, l, id, Taken(k));
      EventCounts(c, s, l, id, Spent(k));
      OthersHold(c, s, l, k, id);
      if l.Move? {
        assert ProcOk(c, s, s.procs[l.p]);
        MoveBalance(c, s, k, s.procs[l.p], l.a, id);
        HoldersMoved(k, s.procs, s'.procs, l.p, id);
      } else {
        HoldersSame(k, s.procs, s'.procs, id);
      }
    }
  }

  lemma NobodyHolds(c: Config, s: State, l: Label, k: Pass, id: Id)
    requires Inv(c, s) && Enabled(c, s, l) && l.Create? && id == l.id
    ensures Holders(k, Apply(c, s, l).procs, id) == {}
  {
    hide RecOk, FromRequest, RecsAfter;
    forall q | q in s.procs ensures !Holds(k, s.procs[q], id) {
      assert ProcOk(c, s, s.procs[q]);
    }
  }

  lemma {:induction false} BalancedAlways(c: Config, ss: seq<State>, ls: seq<Label>, i: nat, k: Pass, id: Id)
    requires IsRun(c, ss, ls) && i <= |ls| && id in ss[i].recs
    ensures Balanced(k, ss[i], id)
  {
    hide Inv, Enabled, Apply, Balanced;
    if i > 0 {
      InvAlways(c, ss, ls, i - 1);
      if id in ss[i - 1].recs {
        BalancedAlways(c, ss, ls, i - 1, k, id);
      }
      BalancedStep(c, ss[i - 1], ls[i - 1], k, id);
    }
  }

  /** In every run the scheduler publishes a notification no more often than it won SetNX for it. */
  lemma ScheduledNeedWins(c: Config, ss: seq<State>, ls: seq<Label>, i: nat, id: Id)
    requires IsRun(c, ss, ls) && i <= |ls| && id in ss[i].recs
    ensures Count(ss[i].recs[id].hist, SchedPublished) <= Count(ss[i].recs[id].hist, Won)
  {
    hide Enabled, Apply;
    BalancedAlways(c, ss, ls, i, Scheduled, id);
  }

  /** In every run a retry message is published no more often than a claim of its row committed. */
  lemma RetriesNeedClaims(c: Config, ss: seq<State>, ls: seq<Label>, i: nat, id: Id)
    requires IsRun(c, ss, ls) && i <= |ls| && id in ss[i].recs
    ensures Count(ss[i].recs[id].hist, RetryPublished) <= Count(ss[i].recs[id].hist, Claimed)
  {
    hide Enabled, Apply;
    BalancedAlways(c, ss, ls, i, Retry, id);
  }

  /** While p's claim on id is open nobody else writes the row or commits a claim of it. */
  lemma HeldStep(c: Config, s: State, l: Label, p: nat, id: Id)
    requires Inv(c, s) && Enabled(c, s, l) && id in s.recs
    requires p in s.procs && s.procs[p].ClaimOpen? && id in s.procs[p].ids && l != Move(p, Commit)
    ensures var s' := Apply(c, s, l);
            && id in s'.recs && s'.recs[id].row == s.recs[id].row
            && Count(s'.recs[id].hist, Claimed) == Count(s.recs[id].hist, Claimed)
  {
    hide RowsOk, ProcOk, RecAfter, KeysAfter, MailAfter;
    LockedRowKept(c, s, l, p, id);
    OneRowStep(c, s, l, id);
    EventCounts(c, s, l, id, Claimed);
    ClaimedByCommit(c, s, l, id);
  }

  lemma ClaimedByCommit(c: Config, s: State, l: Label, id: Id)
    requires Enabled(c, s, l) && id in s.recs
    ensures var e := EventOf(c, s, l, id);
            e.Some? && e.value.kind == Claimed ==>
              l.Move? && l.a.Commit? && s.procs[l.p].ClaimOpen? && id in s.procs[l.p].ids
  {
  }

  lemma {:induction false} HeldUntil(c: Config, ss: seq<State>, ls: seq<Label>, i: nat, j: nat, p: nat, id: Id)
    requires IsRun(c, ss, ls) && i <= j <= |ls|
    requires p in ss[i].procs && ss[i].procs[p].ClaimOpen? && id in ss[i].procs[p].ids
    requires forall k :: i <= k < j && ls[k].Move? ==> ls[k].p != p
    ensures p in ss[j].procs && ss[j].procs[p] == ss[i].procs[p]
    ensures id in ss[i].recs && id in ss[j].recs && ss[j].recs[id].row == ss[i].recs[id].row
    ensures Count(ss[j].recs[id].hist, Claimed) == Count(ss[i].recs[id].hist, Claimed)
  {
    hide Inv, Enabled, Apply;
    InvAlways(c, ss, ls, i);
    ClaimHolds(c, ss[i], p, id);
    if i < j {
      HeldUntil(c, ss, ls, i, j - 1, p, id);
      InvAlways(c, ss, ls, j - 1);
      HeldStep(c, ss[j - 1], ls[j - 1], p, id);
      BelowNext(c, ss[j - 1], p);
      StaysPut(c, ss[j - 1], ls[j - 1], p);
    }
  }

  lemma ClaimHolds(c: Config, s: State, p: nat, id: Id)
    requires Inv(c, s) && p in s.procs && s.procs[p].ClaimOpen? && id in s.procs[p].ids
    ensures id in s.recs
  {
    hide RowsOk, Exclusive;
    assert ProcOk(c, s, s.procs[p]);
  }

  /**
   A claim that rolls back leaves no trace: from the lock to the rollback its rows keep every column, lease
   included, and no claim of them is recorded, whatever else runs; the rollback itself starts no message.
   */
  lemma RollbackLeavesNoTrace(c: Config, ss: seq<State>, ls: seq<Label>, i: nat, j: nat, p: nat, id: Id)
    requires IsRun(c, ss, ls) && i <= j < |ls| && ls[j] == Move(p, Drop)
    requires p in ss[i].procs && ss[i].procs[p].ClaimOpen? && id in ss[i].procs[p].ids
    requires forall k :: i <= k < j && ls[k].Move? ==> ls[k].p != p
    ensures id in ss[i].recs && id in ss[j + 1].recs && ss[j + 1].recs[id].row == ss[i].recs[id].row
    ensures Count(ss[j + 1].recs[id].hist, Claimed) == Count(ss[i].recs[id].hist, Claimed)
    ensures ss[j + 1].procs == ss[j].procs - {p}
  {
    hide Inv, Enabled;
    HeldUntil(c, ss, ls, i, j, p, id);
    InvAlways(c, ss, ls, j);
    hide Apply;
    HeldStep(c, ss[j], ls[j], p, id);
    DropEnds(c, ss[j], p);
  }

  lemma DropEnds(c: Config, s: State, p: nat)
    requires p in s.procs
    ensures Enabled(c, s, Move(p, Drop)) && Apply(c, s, Move(p, Drop)).procs == s.procs - {p}
  {
  }

  // ---- wins are a TTL apart --------------------------------------------

  /** When SetNX was last won. */
  function LastWin(h: seq<Event>): Option<Time> {
    if h == [] then None
    else if h[|h| - 1].kind == Won then Some(h[|h| - 1].at)
    else LastWin(h[..|h| - 1])
  }

  ghost predicate WinLegal(c: Config, h: seq<Event>, j: nat)
    requires j < |h|
  {
    h[j].kind == Won && LastWin(h[..j]).Some? ==>
      DedupTTL(c) > 0 && h[j].at >= LastWin(h[..j]).value + DedupTTL(c)
  }

  ghost predicate WinsLegal(c: Config, h: seq<Event>) {
    forall j :: 0 <= j < |h| ==> WinLegal(c, h, j)
  }

  /** The key of the last win is still stored with the expiry that win gave it. */
  ghost predicate WinKept(c: Config, s: State, id: Id)
    requires id in s.recs
  {
    && WinsLegal(c, s.recs[id].hist)
    && (LastWin(s.recs[id].hist).Some? ==>
          && DedupTTL(c) >= 0
          && DedupKey(c, id) in s.keys
          && s.keys[DedupKey(c, id)] == Expiry(LastWin(s.recs[id].hist).value, DedupTTL(c)))
  }

  lemma WinsAppend(c: Config, h: seq<Event>, e: Event)
    requires WinsLegal(c, h)
    requires e.kind == Won && LastWin(h).Some? ==> DedupTTL(c) > 0 && e.at >= LastWin(h).value + DedupTTL(c)
    ensures WinsLegal(c, h + [e])
    ensures LastWin(h + [e]) == if e.kind == Won then Some(e.at) else LastWin(h)
  {
    var g := h + [e];
    assert g[..|h|] == h;
    forall j | 0 <= j < |g| ensures WinLegal(c, g, j) {
      if j < |h| {
        assert g[..j] == h[..j];
        assert WinLegal(c, h, j);
      }
    }
  }

  /** A win needs the key expired and stores it again; nothing else touches it. */
  lemma WinEvent(c: Config, s: State, x: Proc, a: Act, id: Id)
    requires CanMove(c, s, x, a) && id in s.recs
    ensures var e := MoveEvent(c, s, x, a, id);
            e.Some? && e.value.kind == Won ==>
              e.value.at == s.clock && DedupTTL(c) >= 0 && !Live(s.keys, DedupKey(c, id), s.clock)
              && a.SetNX? && x.SchedLooping? && x.found != [] && x.found[0].id == id
  {
  }

  lemma KeyKept(c: Config, s: State, l: Label, id: Id)
    requires Enabled(c, s, l) && id in s.recs && !l.Evict?
    ensures var e := EventOf(c, s, l, id);
            var s' := Apply(c, s, l);
            var k := DedupKey(c, id);
            if e.Some? && e.value.kind == Won then k in s'.keys && s'.keys[k] == Expiry(s.clock, DedupTTL(c))
            else k in s.keys ==> k in s'.keys && s'.keys[k] == s.keys[k]
  {
    hide RecsAfter, ProcsAfter, MailAfter, DedupKey;
    if l.Move? {
      WinEvent(c, s, s.procs[l.p], l.a, id);
    }
    if l.Move? && l.a.SetNX? {
      DedupKeyInjective(c, id, s.procs[l.p].found[0].id);
    }
  }

  lemma WinKeptStep(c: Config, s: State, l: Label, id: Id)
    requires Enabled(c, s, l) && !l.Evict? && id in Apply(c, s, l).recs
    requires id in s.recs ==> WinKept(c, s, id)
    ensures WinKept(c, Apply(c, s, l), id)
  {
    hide CanMove, MoveEvent, RowAfter, KeysAfter, ProcsAfter, MailAfter, DedupKey;
    if id in s.recs {
      KeyKept(c, s, l, id);
      var e := EventOf(c, s, l, id);
      if e.Some? {
        WinEvent(c, s, s.procs[l.p], l.a, id);
        WinsAppend(c, s.recs[id].hist, e.value);
      }
    }
  }

  ghost predicate NoEviction(ls: seq<Label>, i: nat) {
    forall k :: 0 <= k < i && k < |ls| ==> !ls[k].Evict?
  }

  lemma {:induction false} WinKeptAlways(c: Config, ss: seq<State>, ls: seq<Label>, i: nat, id: Id)
    requires IsRun(c, ss, ls) && i <= |ls| && NoEviction(ls, i) && id in ss[i].recs
    ensures WinKept(c, ss[i], id)
  {
    hide Enabled, Apply, WinKept;
    if i > 0 {
      if id in ss[i - 1].recs {
        WinKeptAlways(c, ss, ls, i - 1, id);
      }
      WinKeptStep(c, ss[i - 1], ls[i - 1], id);
    }
  }

  lemma {:induction false} LastWinAfter(h: seq<Event>, i: nat, j: nat)
    requires Ordered(h) && i < j <= |h| && h[i].kind == Won
    ensures LastWin(h[..j]).Some? && LastWin(h[..j]).value >= h[i].at
  {
    assert h[..j][..j - 1] == h[..j - 1];
    if i < j - 1 {
      LastWinAfter(h, i, j - 1);
    }
  }

  /** As long as keys are not deleted, any two SetNX wins for one notification are a TTL apart, across all pods. */
  lemma WinsSpaced(c: Config, ss: seq<State>, ls: seq<Label>, i: nat, id: Id, a: nat, b: nat)
    requires IsRun(c, ss, ls) && i <= |ls| && NoEviction(ls, i) && id in ss[i].recs
    requires a < b < |ss[i].recs[id].hist|
    requires ss[i].recs[id].hist[a].kind == Won && ss[i].recs[id].hist[b].kind == Won
    ensures DedupTTL(c) > 0 && ss[i].recs[id].hist[b].at >= ss[i].recs[id].hist[a].at + DedupTTL(c)
  {
    hide Enabled, Apply, RecOk, ProcOk, FromRequest;
    WinKeptAlways(c, ss, ls, i, id);
    HistoryOrdered(c, ss, ls, i, id);
    LastWinAfter(ss[i].recs[id].hist, a, b);
    assert WinLegal(c, ss[i].recs[id].hist, b);
  }

  lemma HistoryOrdered(c: Config, ss: seq<State>, ls: seq<Label>, i: nat, id: Id)
    requires IsRun(c, ss, ls) && i <= |ls| && id in ss[i].recs
    ensures Ordered(ss[i].recs[id].hist)
  {
    hide Enabled, Apply, ProcOk, FromRequest, StatusOk;
    InvAlways(c, ss, ls, i);
    assert RowOk(c, ss[i].clock, ss[i].recs[id], id);
  }

  // ---- when SetNX can be won again -------------------------------------

  /** Only a win stores a notification's key. */
  ghost predicate KeyOwned(c: Config, s: State, id: Id) {
    DedupKey(c, id) in s.keys ==> id in s.recs && LastWin(s.recs[id].hist).Some?
  }

  lemma KeyAppears(c: Config, s: State, l: Label, id: Id)
    requires Inv(c, s) && Enabled(c, s, l) && DedupKey(c, id) !in s.keys && DedupKey(c, id) in Apply(c, s, l).keys
    ensures l.Move? && id in s.recs && EventOf(c, s, l, id).Some? && EventOf(c, s, l, id).value.kind == Won
  {
    hide RowsOk, Exclusive, RecsAfter, ProcsAfter, MailAfter, DedupKey;
    if l.Move? && l.a.SetNX? {
      var x := s.procs[l.p];
      assert ProcOk(c, s, x) && x.found[0] in x.found;
      DedupKeyInjective(c, id, x.found[0].id);
    }
  }

  lemma WinStays(h: seq<Event>, e: Event)
    ensures LastWin(h).Some? || e.kind == Won ==> LastWin(h + [e]).Some?
  {
    assert (h + [e])[..|h|] == h;
  }

  lemma KeyOwnedStep(c: Config, s: State, l: Label, id: Id)
    requires Inv(c, s) && Enabled(c, s, l) && KeyOwned(c, s, id)
    ensures KeyOwned(c, Apply(c, s, l), id)
  {
    hide RecOk, FromRequest, ProcOk, Exclusive, CanMove, MoveEvent, RowAfter, KeysAfter, ProcsAfter, MailAfter, DedupKey;
    hide LastWin;
    var s' := Apply(c, s, l);
    if DedupKey(c, id) in s'.keys {
      if DedupKey(c, id) !in s.keys {
        KeyAppears(c, s, l, id);
      }
      var e := EventOf(c, s, l, id);
      if e.Some? {
        WinStays(s.recs[id].hist, e.value);
      }
    }
  }

  lemma {:induction false} KeyOwnedAlways(c: Config, ss: seq<State>, ls: seq<Label>, i: nat, id: Id)
    requires IsRun(c, ss, ls) && i <= |ls|
    ensures KeyOwned(c, ss[i], id)
  {
    hide Inv, Enabled, Apply, DedupKey;
    if i > 0 {
      KeyOwnedAlways(c, ss, ls, i - 1, id);
      InvAlways(c, ss, ls, i - 1);
      KeyOwnedStep(c, ss[i - 1], ls[i - 1], id);
    }
  }

  /**
   With no key deleted, SetNX can be won for a notification if and only if it never was or a positive TTL
   has passed since the last win: a lost publication blocks the schedule no longer than that.
   */
  lemma WinnableExactly(c: Config, ss: seq<State>, ls: seq<Label>, i: nat, id: Id)
    requires IsRun(c, ss, ls) && i <= |ls| && NoEviction(ls, i) && id in ss[i].recs
    ensures var last := LastWin(ss[i].recs[id].hist);
            !Live(ss[i].keys, DedupKey(c, id), ss[i].clock) <==>
            last.None? || (DedupTTL(c) > 0 && ss[i].clock >= last.value + DedupTTL(c))
  {
    hide Enabled, Apply, DedupKey, DedupTTL, WinsLegal, LastWin;
    WinKeptAlways(c, ss, ls, i, id);
    KeyOwnedAlways(c, ss, ls, i, id);
  }
}
