/**
 The scheduled query's limit can starve a due notification: as many earlier due rows whose dedup keys are taken,
 with nothing of theirs under way, fill every pass and are skipped by it, until their keys expire.
 */
module HeadOfLine {
  import opened Wrappers
  import opened Model
  import opened Backoff
  import opened Aggregate
  import opened Delivery
  import opened Cache
  import opened Rows
  import opened Histories
  import opened Protocol
  import opened Invariants
  import opened AtMostOnce
  import opened Rescheduling
  import Drain
  import Steps = Refinement

  /** The key of b is taken for as long as the clock is before until. */
  predicate KeyHeld(c: Config, keys: Keys, b: Id, until: Time) {
    DedupKey(c, b) in keys && (keys[DedupKey(c, b)].None? || keys[DedupKey(c, b)].value >= until)
  }

  /** b waits in front of id: due, earlier, on its first attempt, and locked with no delivery under way. */
  ghost predicate InFront(c: Config, s: State, b: Id, id: Id, until: Time) {
    && b in s.recs && id in s.recs
    && DueScheduled(s.recs[b].row, s.clock) && s.recs[b].row.scheduledAt < s.recs[id].row.scheduledAt
    && KeyHeld(c, s.keys, b, until)
    && forall p | p in s.procs :: !Token(s.procs[p], b, true)
  }

  /** Process x has not found id, and will not with this limit. */
  predicate Blind(x: Proc, id: Id, limit: int) {
    && (x.SchedFinding? ==> x.batch <= limit)
    && (x.SchedLooping? ==> forall r | r in x.found :: r.id != id)
  }

  ghost predicate Starved(c: Config, s: State, front: set<Id>, id: Id, until: Time) {
    && id in s.recs && (forall b | b in front :: InFront(c, s, b, id, until))
    && forall p | p in s.procs :: Blind(s.procs[p], id, |front|)
  }

  /** A step before the keys end: no pass with a larger limit starts and none of the keys is deleted. */
  ghost predicate KeepsLine(c: Config, l: Label, front: set<Id>) {
    match l
    case StartScheduled(batch) => batch <= |front|
    case Evict(key) => forall b | b in front :: key != DedupKey(c, b)
    case _ => true
  }

  // ---- the rows in front -----------------------------------------------

  /** No delivery of b starts, and its row stays. */
  lemma MoveKeepsFront(c: Config, s: State, x: Proc, a: Act, b: Id, until: Time)
    requires ProcOk(c, s, x) && CanMove(c, s, x, a) && b in s.recs && s.recs[b].row.attemptCount == 0
    requires !Token(x, b, true) && KeyHeld(c, s.keys, b, until) && s.clock < until
    ensures var e := MoveEvent(c, s, x, a, b); e.Some? ==> RowAfter(c, s.recs[b].row, e.value) == s.recs[b].row
    ensures After(c, s, x, a).Some? ==> !Token(After(c, s, x, a).value, b, true)
    ensures Spawn(c, s, x, a).Some? ==> !Token(Spawn(c, s, x, a).value, b, true)
  {
    hide SameBody, Rebuilt, Transit, NewRow, IsFirstDue, IsLockResult, DedupKey, DedupTTL, Refused;
    ClaimsAttempted(c, s, x, b);
  }

  lemma ClaimsAttempted(c: Config, s: State, x: Proc, b: Id)
    requires ProcOk(c, s, x) && b in s.recs
    ensures x.ClaimOpen? && b in x.ids ==> s.recs[b].row.attemptCount >= 1
    ensures x.ClaimPublishing? && b in x.ids ==> s.recs[b].row.attemptCount >= 1
  {
  }

  lemma KeyStays(c: Config, s: State, l: Label, b: Id, until: Time)
    requires Enabled(c, s, l) && KeyHeld(c, s.keys, b, until) && s.clock < until
    requires l.Evict? ==> l.key != DedupKey(c, b)
    ensures KeyHeld(c, Apply(c, s, l).keys, b, until)
  {
    hide RecsAfter, ProcsAfter, MailAfter, DedupKey;
    if l.Move? && l.a.SetNX? {
      DedupKeyInjective(c, b, s.procs[l.p].found[0].id);
    }
  }

  lemma FrontRowStays(c: Config, s: State, l: Label, b: Id, id: Id, until: Time)
    requires Inv(c, s) && Enabled(c, s, l) && InFront(c, s, b, id, until) && s.clock < until
    ensures var s' := Apply(c, s, l); b in s'.recs && s'.recs[b].row == s.recs[b].row
    ensures forall q | q in Apply(c, s, l).procs :: !Token(Apply(c, s, l).procs[q], b, true)
  {
    hide RowsOk, Exclusive, ProcOk, CanMove, MoveEvent, After, Spawn, KeysAfter, MailAfter, Token, RowAfter, KeyHeld;
    var s' := Apply(c, s, l);
    if l.Move? {
      MoveKeepsFront(c, s, s.procs[l.p], l.a, b, until);
    }
    forall q | q in s'.procs ensures !Token(s'.procs[q], b, true) {
      ProcOrigin(c, s, l, q);
      if !l.Move? && q !in s.procs {
        StartsNoToken(s, l, s'.procs[q], b);
      }
    }
  }

  lemma StartsNoToken(s: State, l: Label, x: Proc, b: Id)
    requires StartedBy(s, l, x) && (l.Create? ==> l.id != b)
    ensures !Token(x, b, true)
  {
  }

  lemma FrontStays(c: Config, s: State, l: Label, b: Id, id: Id, until: Time)
    requires Inv(c, s) && Enabled(c, s, l) && InFront(c, s, b, id, until) && Apply(c, s, l).clock < until
    requires l.Evict? ==> l.key != DedupKey(c, b)
    ensures InFront(c, Apply(c, s, l), b, id, until)
  {
    hide Inv, Enabled, Apply, KeyHeld, Token;
    ClockForward(c, s, l);
    FrontRowStays(c, s, l, b, id, until);
    KeyStays(c, s, l, b, until);
    OneRowStep(c, s, l, id);
  }

  lemma ClockForward(c: Config, s: State, l: Label)
    requires Enabled(c, s, l)
    ensures s.clock <= Apply(c, s, l).clock
  {
    hide RecsAfter, KeysAfter, ProcsAfter, MailAfter, CanMove;
  }

  // ---- the row behind them ---------------------------------------------

  /** The rows in front are found instead. */
  lemma FindsFront(c: Config, s: State, front: set<Id>, id: Id, until: Time, found: seq<Notification>, batch: int,
                   now: Time)
    requires Inv(c, s) && Starved(c, s, front, id, until) && 0 <= batch <= |front|
    requires IsFirstDue(TableOf(s), found, batch, now)
    ensures forall r | r in found :: r.id != id
  {
    hide Inv, Blind, KeyHeld, Token, IsFirstDue;
    AllOwn(c, s);
    forall r | r in found ensures r.id != id {
      if r.id == id {
        FoundIsDue(s, found, batch, now, r);
        forall b | b in front ensures b in Before(s, id, now) {
          assert InFront(c, s, b, id, until);
        }
        Drain.Subset(front, Before(s, id, now));
        FoundHasEarlier(s, id, found, batch, now);
      }
    }
  }

  lemma FoundIsDue(s: State, found: seq<Notification>, batch: int, now: Time, r: Notification)
    requires IsFirstDue(TableOf(s), found, batch, now) && r in found
    ensures r.id in DueIds(s, now) && s.recs[r.id].row == r
  {
    assert r.id in TableOf(s) && TableOf(s)[r.id] == r;
  }

  lemma MoveStaysBlind(c: Config, s: State, x: Proc, a: Act, front: set<Id>, id: Id, until: Time)
    requires Inv(c, s) && Starved(c, s, front, id, until) && CanMove(c, s, x, a) && Blind(x, id, |front|)
    ensures After(c, s, x, a).Some? ==> Blind(After(c, s, x, a).value, id, |front|)
    ensures Spawn(c, s, x, a).Some? ==> Blind(Spawn(c, s, x, a).value, id, |front|)
    ensures var e := MoveEvent(c, s, x, a, id); e.Some? ==> e.value.kind != SchedPublished && e.value.kind != Won
  {
    hide Inv, Starved, IsFirstDue, IsLockResult, DedupKey, DedupTTL, NXWins, Refused, Rebuilt, Transit;
    if a.Find? {
      FindHasRoom(c, s, x, a.found);
      FindsFront(c, s, front, id, until, a.found, x.batch, x.now);
    }
  }

  lemma FindHasRoom(c: Config, s: State, x: Proc, found: seq<Notification>)
    requires CanMove(c, s, x, Find(found))
    ensures x.batch >= 0
  {
  }

  lemma StarvedStep(c: Config, s: State, l: Label, front: set<Id>, id: Id, until: Time)
    requires Inv(c, s) && Enabled(c, s, l) && Starved(c, s, front, id, until)
    requires Apply(c, s, l).clock < until && KeepsLine(c, l, front)
    ensures var s' := Apply(c, s, l);
            && Starved(c, s', front, id, until)
            && Count(s'.recs[id].hist, SchedPublished) == Count(s.recs[id].hist, SchedPublished)
  {
    hide RowsOk, Exclusive, ProcOk, CanMove, MoveEvent, After, Spawn, KeysAfter, MailAfter, RecAfter, InFront, Blind;
    var s' := Apply(c, s, l);
    OneRowStep(c, s, l, id);
    forall b | b in front ensures InFront(c, s', b, id, until) {
      FrontStays(c, s, l, b, id, until);
    }
    EventCounts(c, s, l, id, SchedPublished);
    if l.Move? {
      MoveStaysBlind(c, s, s.procs[l.p], l.a, front, id, until);
    }
    forall q | q in s'.procs ensures Blind(s'.procs[q], id, |front|) {
      ProcOrigin(c, s, l, q);
      if !l.Move? && q !in s.procs {
        StartsBlind(c, s, l, s'.procs[q], front, id);
      }
    }
  }

  lemma StartsBlind(c: Config, s: State, l: Label, x: Proc, front: set<Id>, id: Id)
    requires StartedBy(s, l, x) && KeepsLine(c, l, front)
    ensures Blind(x, id, |front|)
  {
  }

  /**
   Over whole runs: while as many rows as the limit wait in front with their keys held, no scheduled pass of any
   pod publishes the notification behind them, however long it has been due and whatever else runs.
   */
  lemma {:induction false} StarvedUntil(c: Config, ss: seq<State>, ls: seq<Label>, i: nat, j: nat, front: set<Id>,
                                        id: Id, until: Time)
    requires IsRun(c, ss, ls) && i <= j <= |ls| && Starved(c, ss[i], front, id, until) && ss[j].clock < until
    requires forall k :: i <= k < j ==> KeepsLine(c, ls[k], front)
    ensures Starved(c, ss[j], front, id, until)
    ensures id in ss[i].recs && id in ss[j].recs
    ensures Count(ss[j].recs[id].hist, SchedPublished) == Count(ss[i].recs[id].hist, SchedPublished)
  {
    hide Inv, Enabled, Apply, InFront, Blind;
    if i < j {
      ClockForward(c, ss[j - 1], ls[j - 1]);
      StarvedUntil(c, ss, ls, i, j - 1, front, id, until);
      InvAlways(c, ss, ls, j - 1);
      StarvedStep(c, ss[j - 1], ls[j - 1], front, id, until);
    }
  }

  // ---- it happens ------------------------------------------------------

  /** The table, the keys and the processes of s are as given. */
  ghost predicate Is(s: State, clock: Time, table: Table, keys: Keys, procs: map<nat, Proc>) {
    s.clock == clock && TableOf(s) == table && s.keys == keys && s.procs == procs && forall p | p in procs :: p < s.next
  }

  lemma CreateDeferred(c: Config, s: State, id: Id, req: Request, table: Table) returns (ss: seq<State>, ls: seq<Label>)
    requires Is(s, s.clock, table, map[], map[]) && id !in table && id != "" && InInt4(RowMaxAttempts(c))
    requires InFuture(req, s.clock)
    ensures IsPath(c, ss, ls) && ss[0] == s && ls == [Create(id, req), Move(s.next, Check)]
    ensures Is(ss[2], s.clock, table[id := NewRow(c, req, id)], map[], map[])
  {
    hide Enabled, Apply, NewRow, InFuture, TableOf;
    var p := s.next;
    Creates(c, s, id, req);
    Steps.CreateWorld(c, s, id, req);
    var s1 := Apply(c, s, Create(id, req));
    Steps.CheckStep(c, s1, p);
    Defers(c, s1, p);
    var s2 := Apply(c, s1, Move(p, Check));
    ss, ls := [s, s1, s2], [Create(id, req), Move(p, Check)];
  }

  lemma Creates(c: Config, s: State, id: Id, req: Request)
    requires s.procs == map[] && id !in TableOf(s) && id != "" && InInt4(RowMaxAttempts(c))
    ensures Enabled(c, s, Create(id, req))
    ensures Apply(c, s, Create(id, req)).procs == map[s.next := EnqChecking(id, req)]
    ensures Apply(c, s, Create(id, req)).next == s.next + 1
  {
    hide RecsAfter;
  }

  lemma Defers(c: Config, s: State, p: nat)
    requires s.procs.Keys == {p} && s.procs[p].EnqChecking? && InFuture(s.procs[p].req, s.clock)
    ensures Enabled(c, s, Move(p, Check)) && Apply(c, s, Move(p, Check)).procs == map[]
  {
    hide RecsAfter, KeysAfter, MailAfter;
    assert Apply(c, s, Move(p, Check)).procs.Keys == {};
  }

  /** A pass with limit 1 wins the lock of the row it finds, and crashes. */
  lemma WonAndLost(c: Config, s: State, row: Notification, table: Table) returns (ss: seq<State>, ls: seq<Label>)
    requires Is(s, s.clock, table, map[], map[]) && IsFirstDue(table, [row], 1, s.clock) && DedupTTL(c) > 0
    ensures IsPath(c, ss, ls) && ss[0] == s && |ls| == 4
    ensures Is(ss[4], s.clock, table, map[DedupKey(c, row.id) := Some(s.clock + DedupTTL(c))], map[])
  {
    hide Enabled, Apply, TableOf, IsFirstDue, DedupKey, DedupTTL;
    var p := s.next;
    Steps.FindSteps(c, s, 1, [row]);
    var s1 := Apply(c, s, StartScheduled(1));
    var s2 := Apply(c, s1, Move(p, Find([row])));
    OneProcess(c, s, [row]);
    Steps.NXStep(c, s2, p, [row]);
    var s3 := Apply(c, s2, Move(p, SetNX));
    Steps.DropWorld(c, s3, p);
    LastProcess(c, s2, p);
    ss := [s, s1, s2, s3, Apply(c, s3, Move(p, Drop))];
    ls := [StartScheduled(1), Move(p, Find([row])), Move(p, SetNX), Move(p, Drop)];
  }

  lemma OneProcess(c: Config, s: State, found: seq<Notification>)
    requires s.procs == map[] && Enabled(c, s, StartScheduled(1))
    requires Enabled(c, Apply(c, s, StartScheduled(1)), Move(s.next, Find(found)))
    ensures Apply(c, Apply(c, s, StartScheduled(1)), Move(s.next, Find(found))).procs.Keys == {s.next}
  {
    hide RecsAfter, KeysAfter, MailAfter, IsFirstDue;
  }

  lemma LastProcess(c: Config, s: State, p: nat)
    requires s.procs.Keys == {p} && Enabled(c, s, Move(p, SetNX)) && Enabled(c, Apply(c, s, Move(p, SetNX)), Move(p, Drop))
    ensures Apply(c, Apply(c, s, Move(p, SetNX)), Move(p, Drop)).procs == map[]
  {
    hide RecsAfter, KeysAfter, MailAfter;
    assert Apply(c, Apply(c, s, Move(p, SetNX)), Move(p, Drop)).procs.Keys == {};
  }

  /** Two deferred notifications, both due now, and a pass with limit 1: it finds the earlier one. */
  lemma EarlierFirst(c: Config, a: Id, early: Request, b: Id, late: Request, now: Time)
    requires a != b && early.scheduledAt.Some? && late.scheduledAt.Some?
    requires ZERO_TIME < early.scheduledAt.value < late.scheduledAt.value <= now
    ensures var x, y := NewRow(c, early, a), NewRow(c, late, b);
            && IsFirstDue(map[a := x][b := y], [x], 1, now) && x.id == a
            && DueScheduled(x, now) && DueScheduled(y, now) && x.scheduledAt < y.scheduledAt
  {
  }

  /** From the empty system: two notifications, of which the earlier one's publication is lost, starve the later one. */
  lemma StarvationPossible(c: Config, s: State, a: Id, early: Request, b: Id, late: Request)
    returns (ss: seq<State>, ls: seq<Label>)
    requires Initial(s) && a != b && a != "" && b != "" && InInt4(RowMaxAttempts(c)) && DedupTTL(c) > 0
    requires InFuture(early, s.clock) && InFuture(late, s.clock) && early.scheduledAt.value < late.scheduledAt.value
    ensures IsRun(c, ss, ls) && ss[0] == s && |ls| == 9
    ensures var at := late.scheduledAt.value;
            && ss[9].clock == at && b in ss[9].recs && DueScheduled(ss[9].recs[b].row, at)
            && Starved(c, ss[9], {a}, b, at + DedupTTL(c))
  {
    hide Enabled, Apply, NewRow, TableOf, IsFirstDue, DedupKey, DedupTTL, DueScheduled;
    var at := late.scheduledAt.value;
    var x, y := NewRow(c, early, a), NewRow(c, late, b);
    EarlierFirst(c, a, early, b, late, at);
    NoTable(s);
    var s1, l1 := CreateDeferred(c, s, a, early, map[]);
    var s2, l2 := CreateDeferred(c, s1[2], b, late, map[a := x]);
    Steps.TickStep(c, s2[2], at);
    var t := Apply(c, s2[2], Tick(at));
    var s3, l3 := WonAndLost(c, t, x, map[a := x][b := y]);
    PathConcat(c, s1, l1, s2, l2);
    PathConcat(c, s1 + s2[1..], l1 + l2, [s2[2], t], [Tick(at)]);
    PathConcat(c, s1 + s2[1..] + [s2[2], t][1..], l1 + l2 + [Tick(at)], s3, l3);
    ss, ls := s1 + s2[1..] + [s2[2], t][1..] + s3[1..], l1 + l2 + [Tick(at)] + l3;
    assert ss[9] == s3[4];
    FrontOfTwo(c, ss[9], a, x, b, y, at);
  }

  lemma NoTable(s: State)
    requires Initial(s)
    ensures TableOf(s) == map[]
  {
  }

  lemma FrontOfTwo(c: Config, s: State, a: Id, x: Notification, b: Id, y: Notification, at: Time)
    requires Is(s, at, map[a := x][b := y], map[DedupKey(c, a) := Some(at + DedupTTL(c))], map[]) && a != b
    requires DueScheduled(x, at) && DueScheduled(y, at) && x.scheduledAt < y.scheduledAt
    ensures Starved(c, s, {a}, b, at + DedupTTL(c)) && b in s.recs && s.recs[b].row == y
  {
    hide DedupKey, DedupTTL, DueScheduled;
    assert a in TableOf(s) && b in TableOf(s);
    assert TableOf(s)[a] == s.recs[a].row && TableOf(s)[b] == s.recs[b].row;
  }
}
