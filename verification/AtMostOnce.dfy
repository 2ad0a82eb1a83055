/**
 At most one successful send per notification, over whole runs, under the delivery assumptions the
 protocol is built on: no duplicated messages, no lost success write, dedup keys left alone, every
 published message processed before the lock or lease behind it ends.
 */
module AtMostOnce {
  import opened Wrappers
  import opened Model
  import opened Backoff
  import opened Aggregate
  import opened Cache
  import opened Delivery
  import opened Rows
  import opened Histories
  import opened Protocol
  import opened Invariants

  // ---- assumptions -----------------------------------------------------

  /** When the lock or lease behind an outstanding delivery ends. */
  function Deadline(x: Proc): Option<Time> {
    match x
    case SchedLooping(_, won, until) => if won then until else None
    case ClaimPublishing(until, ids) => if ids != [] then until else None
    case SendQueued(_, _, until) => until
    case RetryQueued(_, until) => until
    case RetryReady(_, _, until) => until
    case Done(_, _, _, _, until) => until
    case _ => None
  }

  /**
   What a step may not be, as far as notification id is concerned: a redelivery of its message, the
   deletion of its dedup key, the loss of its success write, a check that finds its scheduled_at set and
   passed, or a SetNX won for its row when that is no longer due.
   */
  ghost predicate Benign(c: Config, s: State, l: Label, id: Id)
    requires Enabled(c, s, l)
  {
    match l
    case Evict(key) => key != DedupKey(c, id)
    case Move(p, a) => BenignMove(c, s, s.procs[p], a, id)
    case _ => true
  }

  ghost predicate BenignMove(c: Config, s: State, x: Proc, a: Act, id: Id)
    requires CanMove(c, s, x, a)
  {
    match a
    case Redeliver => x.id != id
    case Drop => !(x.Done? && x.ok && x.id == id)
    case Check =>
      x.id == id ==>
        x.req.scheduledAt.None? || x.req.scheduledAt.value <= ZERO_TIME || InFuture(x.req, s.clock)
    case SetNX =>
      x.found[0].id == id && NXWins(c, s, x) ==> id in s.recs && DueScheduled(s.recs[id].row, s.clock)
    case _ => true
  }

  // ---- tokens ----------------------------------------------------------

  /** EnqueueNotification itself publishes the row; the scheduler never selects it. */
  predicate Direct(row: Notification) {
    row.scheduledAt <= ZERO_TIME
  }

  /** x is an outstanding delivery of id. */
  predicate Token(x: Proc, id: Id, direct: bool) {
    match x
    case EnqChecking(i, _) => i == id && direct
    case EnqPublishing(i, _) => i == id
    case SchedLooping(found, won, _) => won && found != [] && found[0].id == id
    case ClaimPublishing(_, ids) => id in ids
    case SendQueued(i, _, _) => i == id
    case RetryQueued(i, _) => i == id
    case RetryReady(i, _, _) => i == id
    case Done(i, _, _, _, _) => i == id
    case _ => false
  }

  /** Every outstanding delivery of id is still within its lock or lease. */
  ghost predicate Timely(s: State, id: Id) {
    forall p | p in s.procs && Token(s.procs[p], id, true) && Deadline(s.procs[p]).Some? ::
      s.clock < Deadline(s.procs[p]).value
  }

  predicate FirstStage(x: Proc) {
    x.EnqChecking? || x.EnqPublishing? || x.SchedLooping? || x.SendQueued? || (x.Done? && x.first)
  }

  predicate Accepting(x: Proc) {
    x.Done? && x.ok
  }

  function Sends(r: Rec): nat {
    Count(r.hist, Rows.Accepted)
  }

  /** What an outstanding delivery says about its row and the key store. */
  ghost predicate TokenOk(c: Config, keys: Keys, r: Rec, x: Proc, id: Id) {
    && r.row.status == Pending
    && Sends(r) == (if Accepting(x) then 1 else 0)
    && if FirstStage(x) then
         && r.row.attemptCount == 0
         && (x.EnqPublishing? ==> Direct(r.row))
         && (x.SchedLooping? ==> !Direct(r.row))
         && (!Direct(r.row) ==> DedupKey(c, id) in keys && keys[DedupKey(c, id)] == Until(x))
       else
         r.row.attemptCount >= 1 && Until(x).Some? && r.row.nextRetryAt == Until(x)
  }

  function Until(x: Proc): Option<Time> {
    match x
    case SchedLooping(_, _, until) => until
    case ClaimPublishing(until, _) => until
    case SendQueued(_, _, until) => until
    case RetryQueued(_, until) => until
    case RetryReady(_, _, until) => until
    case Done(_, _, _, _, until) => until
    case _ => None
  }

  ghost predicate IsToken(s: State, p: nat, id: Id) {
    p in s.procs && id in s.recs && Token(s.procs[p], id, Direct(s.recs[id].row))
  }

  ghost predicate OneToken(s: State, id: Id) {
    forall p, q | IsToken(s, p, id) && IsToken(s, q, id) :: p == q
  }

  ghost predicate TokensOk(c: Config, s: State, id: Id)
    requires id in s.recs
  {
    forall p | IsToken(s, p, id) :: TokenOk(c, s.keys, s.recs[id], s.procs[p], id)
  }

  /** How often a row with no outstanding delivery has been sent. */
  ghost predicate Settled(s: State, id: Id)
    requires id in s.recs
  {
    var r := s.recs[id];
    match r.row.status
    case Pending => Sends(r) == 0 || exists p :: IsToken(s, p, id) && Accepting(s.procs[p])
    case Completed => Sends(r) == 1
    case Failed => Sends(r) == 0
  }

  ghost predicate Once(c: Config, s: State, id: Id)
    requires id in s.recs
  {
    OneToken(s, id) && TokensOk(c, s, id) && Settled(s, id)
  }

  // ---- one move --------------------------------------------------------

  /** A process that is no token of id and does not become one leaves the row, its sends and its key alone. */
  lemma Bystander(c: Config, s: State, x: Proc, a: Act, id: Id)
    requires ProcOk(c, s, x) && CanMove(c, s, x, a) && BenignMove(c, s, x, a, id) && id in s.recs
    requires var d := Direct(s.recs[id].row);
             !Token(x, id, d) && (After(c, s, x, a).Some? ==> !Token(After(c, s, x, a).value, id, d))
    ensures var e := MoveEvent(c, s, x, a, id);
            e.Some? ==> e.value.kind != Rows.Accepted && RowAfter(c, s.recs[id].row, e.value) == s.recs[id].row
    ensures a.SetNX? && NXWins(c, s, x) ==> x.found[0].id != id
    ensures var sp := Spawn(c, s, x, a); sp.Some? ==> !Token(sp.value, id, Direct(s.recs[id].row))
  {
    hide Direct, Rebuilt;
  }

  /** Under the assumptions Enqueue publishes only what the scheduler never selects. */
  lemma CheckDirect(c: Config, s: State, x: Proc, id: Id)
    requires ProcOk(c, s, x) && CanMove(c, s, x, Check) && BenignMove(c, s, x, Check, id)
    requires id in s.recs && !Direct(s.recs[id].row) && x.id == id
    ensures After(c, s, x, Check).None?
  {
  }

  /** A delivery that starts meets no other: its lock or lease excludes every outstanding one. */
  lemma NewTokenAlone(c: Config, s: State, x: Proc, a: Act, id: Id, y: Proc)
    requires ProcOk(c, s, x) && CanMove(c, s, x, a) && BenignMove(c, s, x, a, id) && id in s.recs
    requires var d := Direct(s.recs[id].row);
             !Token(x, id, d) && After(c, s, x, a).Some? && Token(After(c, s, x, a).value, id, d)
    requires Token(y, id, Direct(s.recs[id].row)) ==> TokenOk(c, s.keys, s.recs[id], y, id)
    requires Token(y, id, true) && Deadline(y).Some? ==> s.clock < Deadline(y).value
    ensures !Token(y, id, Direct(s.recs[id].row))
  {
    hide Rebuilt, DedupKey, SameBody, IsFirstDue, IsLockResult, Transit, Refused;
    if a.Commit? {
      assert DueForRetry(s.recs[id].row, x.now);
    } else if a.Check? {
      CheckDirect(c, s, x, id);
    }
  }

  /** Committing a claim makes its rows' deliveries match their new next_retry_at. */
  lemma ClaimTokenOk(c: Config, s: State, x: Proc, id: Id)
    requires ProcOk(c, s, x) && x.ClaimOpen? && id in x.ids && Sends(s.recs[id]) == 0
    ensures var r := Append(c, s.recs[id], Event(Claimed, s.clock, x.now));
            TokenOk(c, s.keys, r, ClaimPublishing(Some(x.now + PublishLease(c)), x.ids), id)
  {
    hide DedupKey, SameBody, Rebuilt;
    CountAppend(s.recs[id].hist, Event(Claimed, s.clock, x.now), Rows.Accepted);
    assert DueForRetry(s.recs[id].row, x.now);
  }

  /** The state of a delivery that starts. */
  ghost predicate NewTokenSound(c: Config, s: State, x: Proc, a: Act, id: Id)
    requires CanMove(c, s, x, a) && id in s.recs
  {
    && MoveEvent(c, s, x, a, id).Some?
    && (After(c, s, x, a).Some? ==>
          TokenOk(c, KeysMoved(c, s, x, a), Append(c, s.recs[id], MoveEvent(c, s, x, a, id).value),
                  After(c, s, x, a).value, id))
    && (Spawn(c, s, x, a).Some? ==> !Token(Spawn(c, s, x, a).value, id, Direct(s.recs[id].row)))
  }

  lemma NewTokenOk(c: Config, s: State, x: Proc, a: Act, id: Id)
    requires ProcOk(c, s, x) && CanMove(c, s, x, a) && BenignMove(c, s, x, a, id) && id in s.recs
    requires !Token(x, id, Direct(s.recs[id].row)) && (s.recs[id].row.status == Pending ==> Sends(s.recs[id]) == 0)
    requires After(c, s, x, a).Some? && Token(After(c, s, x, a).value, id, Direct(s.recs[id].row))
    ensures NewTokenSound(c, s, x, a, id)
  {
    if a.Commit? {
      NewClaimOk(c, s, x, id);
    } else {
      NewDirectOk(c, s, x, a, id);
    }
  }

  lemma NewClaimOk(c: Config, s: State, x: Proc, id: Id)
    requires ProcOk(c, s, x) && CanMove(c, s, x, Commit) && id in s.recs
    requires s.recs[id].row.status == Pending ==> Sends(s.recs[id]) == 0
    requires Token(After(c, s, x, Commit).value, id, Direct(s.recs[id].row))
    ensures NewTokenSound(c, s, x, Commit, id)
  {
    hide Rebuilt, DedupKey, SameBody, IsFirstDue, IsLockResult, WriteEvent, Transit, Refused;
    assert DueForRetry(s.recs[id].row, x.now);
    ClaimTokenOk(c, s, x, id);
    CountAppend(s.recs[id].hist, MoveEvent(c, s, x, Commit, id).value, Rows.Accepted);
  }

  /** Only EnqueueNotification's check and a won SetNX start a first delivery. */
  lemma NewDirectOk(c: Config, s: State, x: Proc, a: Act, id: Id)
    requires ProcOk(c, s, x) && CanMove(c, s, x, a) && BenignMove(c, s, x, a, id) && id in s.recs && !a.Commit?
    requires !Token(x, id, Direct(s.recs[id].row)) && (s.recs[id].row.status == Pending ==> Sends(s.recs[id]) == 0)
    requires After(c, s, x, a).Some? && Token(After(c, s, x, a).value, id, Direct(s.recs[id].row))
    ensures NewTokenSound(c, s, x, a, id)
  {
    hide NewTokenSound, ProcOk, BenignMove, DedupKey, DueScheduled, Expiry, DedupTTL, Live, Rebuilt, Transit, Refused;
    if a.Check? {
      CheckDirect(c, s, x, id);
    } else if a.SetNX? {
      NewWinOk(c, s, x, id);
    }
  }

  lemma NewWinOk(c: Config, s: State, x: Proc, id: Id)
    requires ProcOk(c, s, x) && CanMove(c, s, x, SetNX) && BenignMove(c, s, x, SetNX, id) && id in s.recs
    requires s.recs[id].row.status == Pending ==> Sends(s.recs[id]) == 0
    requires x.found[0].id == id && NXWins(c, s, x)
    ensures NewTokenSound(c, s, x, SetNX, id)
  {
    hide Rebuilt, DedupKey, SameBody, IsFirstDue, IsLockResult, WriteEvent, Transit, Refused, DueForRetry;
    CountAppend(s.recs[id].hist, MoveEvent(c, s, x, SetNX, id).value, Rows.Accepted);
  }

  ghost function KeysMoved(c: Config, s: State, x: Proc, a: Act): Keys
    requires CanMove(c, s, x, a)
  {
    if a.SetNX? && NXWins(c, s, x) then s.keys[DedupKey(c, x.found[0].id) := Expiry(s.clock, DedupTTL(c))] else s.keys
  }

  ghost function RecMoved(c: Config, s: State, x: Proc, a: Act, id: Id): Rec
    requires CanMove(c, s, x, a) && id in s.recs
  {
    match MoveEvent(c, s, x, a, id)
    case None => s.recs[id]
    case Some(e) => Append(c, s.recs[id], e)
  }

  /** How often a row has been sent once its delivery is over. */
  ghost predicate Final(r: Rec) {
    Sends(r) == (if r.row.status == Completed then 1 else 0)
  }

  ghost predicate OptToken(x: Option<Proc>, id: Id, direct: bool) {
    x.Some? && Token(x.value, id, direct)
  }

  /** What becomes of a delivery: at most one successor, in its proper state, or a settled row. */
  ghost predicate Succeeds(c: Config, s: State, x: Proc, a: Act, id: Id)
    requires CanMove(c, s, x, a) && id in s.recs
  {
    var d := Direct(s.recs[id].row);
    var r := RecMoved(c, s, x, a, id);
    var after, spawn := After(c, s, x, a), Spawn(c, s, x, a);
    && !(OptToken(after, id, d) && OptToken(spawn, id, d))
    && (OptToken(after, id, d) ==> TokenOk(c, s.keys, r, after.value, id))
    && (OptToken(spawn, id, d) ==> TokenOk(c, s.keys, r, spawn.value, id))
    && (!OptToken(after, id, d) && !OptToken(spawn, id, d) ==> Final(r))
  }

  lemma NeutralEvent(c: Config, s: State, x: Proc, a: Act, id: Id)
    requires CanMove(c, s, x, a) && id in s.recs && !a.Send? && !a.Write? && !a.Commit?
    ensures var r := RecMoved(c, s, x, a, id); r.row == s.recs[id].row && Sends(r) == Sends(s.recs[id])
  {
    var e := MoveEvent(c, s, x, a, id);
    if e.Some? {
      CountAppend(s.recs[id].hist, e.value, Rows.Accepted);
    }
  }

  lemma TailLacksHead(ids: seq<Id>)
    requires ids != [] && DistinctIds(ids)
    ensures ids[0] !in ids[1..]
  {
    assert forall j :: 0 <= j < |ids[1..]| ==> ids[1..][j] == ids[j + 1];
  }

  lemma FirstStageSucceeds(c: Config, s: State, x: Proc, a: Act, id: Id)
    requires ProcOk(c, s, x) && CanMove(c, s, x, a) && BenignMove(c, s, x, a, id) && id in s.recs
    requires Token(x, id, Direct(s.recs[id].row)) && TokenOk(c, s.keys, s.recs[id], x, id)
    requires x.EnqChecking? || x.EnqPublishing? || x.SchedLooping?
    ensures Succeeds(c, s, x, a, id)
  {
    hide Rebuilt, DedupKey, SameBody, MoveEvent, RecMoved, IsFirstDue, IsLockResult;
    NeutralEvent(c, s, x, a, id);
    if x.SchedLooping? {
      TailLacksHead(IdsOf(x.found));
      assert x.found[1..] != [] ==> x.found[1..][0].id == IdsOf(x.found)[1];
    }
  }

  lemma ClaimSucceeds(c: Config, s: State, x: Proc, a: Act, id: Id)
    requires ProcOk(c, s, x) && CanMove(c, s, x, a) && BenignMove(c, s, x, a, id) && id in s.recs
    requires Token(x, id, Direct(s.recs[id].row)) && TokenOk(c, s.keys, s.recs[id], x, id)
    requires x.ClaimPublishing?
    ensures Succeeds(c, s, x, a, id)
  {
    hide Rebuilt, DedupKey, SameBody, MoveEvent, RecMoved, IsFirstDue, IsLockResult;
    NeutralEvent(c, s, x, a, id);
    TailLacksHead(x.ids);
  }

  lemma MessageSucceeds(c: Config, s: State, x: Proc, a: Act, id: Id)
    requires ProcOk(c, s, x) && CanMove(c, s, x, a) && BenignMove(c, s, x, a, id) && id in s.recs
    requires Token(x, id, Direct(s.recs[id].row)) && TokenOk(c, s.keys, s.recs[id], x, id)
    requires (x.SendQueued? || x.RetryQueued? || x.RetryReady?) && !a.Send?
    ensures Succeeds(c, s, x, a, id)
  {
    hide Rebuilt, DedupKey, SameBody, MoveEvent, RecMoved, IsFirstDue, IsLockResult;
    NeutralEvent(c, s, x, a, id);
  }

  lemma SentTokenOk(c: Config, keys: Keys, r: Rec, clock: Time, x: Proc, ok: bool, id: Id)
    requires (x.SendQueued? || x.RetryReady?) && TokenOk(c, keys, r, x, id)
    ensures TokenOk(c, keys, if ok then Append(c, r, Event(Rows.Accepted, clock, clock)) else r,
                    Done(x.id, x.SendQueued?, ok, clock, x.until), id)
  {
    hide DedupKey;
    CountAppend(r.hist, Event(Rows.Accepted, clock, clock), Rows.Accepted);
  }

  lemma SendSucceeds(c: Config, s: State, x: Proc, ok: bool, id: Id)
    requires CanMove(c, s, x, Send(ok)) && id in s.recs
    requires Token(x, id, Direct(s.recs[id].row)) && TokenOk(c, s.keys, s.recs[id], x, id)
    ensures Succeeds(c, s, x, Send(ok), id)
  {
    hide TokenOk, Append, Direct, Refused;
    SentTokenOk(c, s.keys, s.recs[id], s.clock, x, ok, id);
  }

  /** A recorded failure leaves a row pending or failed. */
  lemma FailureStatus(c: Config, row: Notification, at: Time)
    ensures FailureResult(c, row, at).Some? ==>
              FailureResult(c, row, at).value.status == Failed || FailureResult(c, row, at).value.status == row.status
  {
  }

  /** The consumer's write settles the row: completed after an accepted send, not otherwise. */
  lemma WriteSettles(c: Config, r: Rec, clock: Time, x: Proc)
    requires x.Done? && r.row.status == Pending && Sends(r) == (if x.ok then 1 else 0)
    ensures match WriteEvent(c, r.row, clock, x)
            case None => Final(r)
            case Some(e) => Final(Append(c, r, e))
  {
    hide FailureResult, Count;
    FailureStatus(c, r.row, clock);
    var e := WriteEvent(c, r.row, clock, x);
    if e.Some? {
      CountAppend(r.hist, e.value, Rows.Accepted);
    }
  }

  lemma WriteSucceeds(c: Config, s: State, x: Proc, a: Act, id: Id)
    requires CanMove(c, s, x, a) && BenignMove(c, s, x, a, id) && id in s.recs && x.Done?
    requires x.id == id && TokenOk(c, s.keys, s.recs[id], x, id)
    ensures Succeeds(c, s, x, a, id)
  {
    hide Rebuilt, DedupKey, SameBody, IsFirstDue, IsLockResult, Append, WriteEvent, Final, Token;
    if a.Write? {
      WriteSettles(c, s.recs[id], s.clock, x);
    } else {
      NotSent(s.recs[id]);
    }
  }

  lemma NotSent(r: Rec)
    ensures r.row.status == Pending && Sends(r) == 0 ==> Final(r)
  {
  }

  lemma TokenSucceeds(c: Config, s: State, x: Proc, a: Act, id: Id)
    requires ProcOk(c, s, x) && CanMove(c, s, x, a) && BenignMove(c, s, x, a, id) && id in s.recs
    requires Token(x, id, Direct(s.recs[id].row)) && TokenOk(c, s.keys, s.recs[id], x, id)
    ensures Succeeds(c, s, x, a, id) && KeysMoved(c, s, x, a) == s.keys
  {
    hide Succeeds, TokenOk, ProcOk, BenignMove, DedupKey, IsFirstDue, IsLockResult;
    match x
    case EnqChecking(_, _) => FirstStageSucceeds(c, s, x, a, id);
    case EnqPublishing(_, _) => FirstStageSucceeds(c, s, x, a, id);
    case SchedLooping(_, _, _) => FirstStageSucceeds(c, s, x, a, id);
    case ClaimPublishing(_, _) => ClaimSucceeds(c, s, x, a, id);
    case Done(_, _, _, _, _) => WriteSucceeds(c, s, x, a, id);
    case RetryQueued(_, _) => MessageSucceeds(c, s, x, a, id);
    case SendQueued(_, _, _) =>
      if a.Send? {
        SendSucceeds(c, s, x, a.ok, id);
      } else {
        MessageSucceeds(c, s, x, a, id);
      }
    case RetryReady(_, _, _) =>
      if a.Send? {
        SendSucceeds(c, s, x, a.ok, id);
      } else {
        MessageSucceeds(c, s, x, a, id);
      }
    case _ =>
  }

  // ---- one step --------------------------------------------------------

  /** What a step does to the row and keys, in terms of the process that moved. */
  lemma MoveState(c: Config, s: State, p: nat, a: Act, id: Id)
    requires Inv(c, s) && Enabled(c, s, Move(p, a)) && id in s.recs
    ensures var s' := Apply(c, s, Move(p, a));
            && id in s'.recs && s'.recs[id] == RecMoved(c, s, s.procs[p], a, id)
            && s'.keys == KeysMoved(c, s, s.procs[p], a)
            && Direct(s'.recs[id].row) == Direct(s.recs[id].row)
  {
    hide RecOk, FromRequest, CanMove, MoveEvent, RowAfter, Exclusive, ProcOk, ProcsAfter, MailAfter, DedupKey;
    OneRowStep(c, s, Move(p, a), id);
  }

  /** Tokens of the next state: the successor of the moved one, its spawn, and those that did not move. */
  lemma TokenOrigin(c: Config, s: State, p: nat, a: Act, id: Id, q: nat)
    requires Inv(c, s) && Enabled(c, s, Move(p, a)) && id in s.recs
    requires Direct(Apply(c, s, Move(p, a)).recs[id].row) == Direct(s.recs[id].row)
    requires IsToken(Apply(c, s, Move(p, a)), q, id)
    ensures var s' := Apply(c, s, Move(p, a));
            var d := Direct(s.recs[id].row);
            || (q == p && OptToken(After(c, s, s.procs[p], a), id, d) && s'.procs[q] == After(c, s, s.procs[p], a).value)
            || (q == s.next && OptToken(Spawn(c, s, s.procs[p], a), id, d)
                && s'.procs[q] == Spawn(c, s, s.procs[p], a).value)
            || (q != p && IsToken(s, q, id) && s'.procs[q] == s.procs[q])
  {
    hide RecOk, FromRequest, CanMove, MoveEvent, After, Spawn, Exclusive, ProcOk, Apply, Token, Direct;
    ProcOrigin(c, s, Move(p, a), q);
  }

  lemma OnceTokenMoves(c: Config, s: State, p: nat, a: Act, id: Id)
    requires Inv(c, s) && Enabled(c, s, Move(p, a)) && Benign(c, s, Move(p, a), id) && id in s.recs && Once(c, s, id)
    requires IsToken(s, p, id)
    ensures Once(c, Apply(c, s, Move(p, a)), id)
  {
    hide RecOk, FromRequest, CanMove, MoveEvent, After, Spawn, Exclusive, ProcOk, Apply, Token, TokenOk, Direct;
    hide RecMoved, KeysMoved, BenignMove;
    var s' := Apply(c, s, Move(p, a));
    var x := s.procs[p];
    var d := Direct(s.recs[id].row);
    assert ProcOk(c, s, x);
    TokenSucceeds(c, s, x, a, id);
    MoveState(c, s, p, a, id);
    forall q | IsToken(s', q, id)
      ensures TokenOk(c, s'.keys, s'.recs[id], s'.procs[q], id)
      ensures q == if OptToken(After(c, s, x, a), id, d) then p else s.next
    {
      TokenOrigin(c, s, p, a, id, q);
    }
    MovedPresent(c, s, p, a);
    if OptToken(After(c, s, x, a), id, d) {
      PendingToken(c, s', p, id);
    } else if OptToken(Spawn(c, s, x, a), id, d) {
      PendingToken(c, s', s.next, id);
    }
  }

  lemma MovedPresent(c: Config, s: State, p: nat, a: Act)
    requires Enabled(c, s, Move(p, a)) && p < s.next
    ensures var s' := Apply(c, s, Move(p, a));
            && (After(c, s, s.procs[p], a).Some? ==>
                  p in s'.procs && s'.procs[p] == After(c, s, s.procs[p], a).value)
            && (Spawn(c, s, s.procs[p], a).Some? ==>
                  s.next in s'.procs && s'.procs[s.next] == Spawn(c, s, s.procs[p], a).value)
  {
    hide RecsAfter, KeysAfter, MailAfter, CanMove, After, Spawn;
  }

  ghost predicate TokenStarts(c: Config, s: State, p: nat, a: Act, id: Id)
    requires Enabled(c, s, Move(p, a)) && id in s.recs
  {
    !IsToken(s, p, id) && OptToken(After(c, s, s.procs[p], a), id, Direct(s.recs[id].row))
  }

  lemma OnceTokenStarts(c: Config, s: State, p: nat, a: Act, id: Id)
    requires Enabled(c, s, Move(p, a)) && id in s.recs && TokenStarts(c, s, p, a, id)
    requires Inv(c, s) && Benign(c, s, Move(p, a), id) && Once(c, s, id) && Timely(s, id)
    ensures Once(c, Apply(c, s, Move(p, a)), id)
  {
    hide RecOk, FromRequest, CanMove, MoveEvent, After, Spawn, Exclusive, ProcOk, Token, TokenOk, Direct;
    hide RecMoved, KeysMoved, BenignMove, Deadline, RecsAfter, KeysAfter, MailAfter;
    var s' := Apply(c, s, Move(p, a));
    var x := s.procs[p];
    assert ProcOk(c, s, x);
    forall q | q in s.procs ensures !IsToken(s, q, id) {
      NewTokenAlone(c, s, x, a, id, s.procs[q]);
    }
    StartFromNothing(c, s, id);
    NewTokenOk(c, s, x, a, id);
    MoveState(c, s, p, a, id);
    forall q | IsToken(s', q, id) ensures q == p {
      TokenOrigin(c, s, p, a, id, q);
    }
    RecMovedAppends(c, s, x, a, id);
    MovedPresent(c, s, p, a);
    PendingToken(c, s', p, id);
  }

  lemma RecMovedAppends(c: Config, s: State, x: Proc, a: Act, id: Id)
    requires CanMove(c, s, x, a) && id in s.recs && MoveEvent(c, s, x, a, id).Some?
    ensures RecMoved(c, s, x, a, id) == Append(c, s.recs[id], MoveEvent(c, s, x, a, id).value)
  {
  }

  lemma StartFromNothing(c: Config, s: State, id: Id)
    requires id in s.recs && Settled(s, id) && forall q | q in s.procs :: !IsToken(s, q, id)
    ensures s.recs[id].row.status == Pending ==> Sends(s.recs[id]) == 0
  {
  }

  lemma PendingToken(c: Config, s: State, p: nat, id: Id)
    requires IsToken(s, p, id) && TokenOk(c, s.keys, s.recs[id], s.procs[p], id)
    ensures Settled(s, id)
  {
  }

  ghost predicate StaysApart(c: Config, s: State, p: nat, a: Act, id: Id)
    requires Enabled(c, s, Move(p, a)) && id in s.recs
  {
    !IsToken(s, p, id) && !OptToken(After(c, s, s.procs[p], a), id, Direct(s.recs[id].row))
  }

  lemma OnceBystander(c: Config, s: State, p: nat, a: Act, id: Id)
    requires Enabled(c, s, Move(p, a)) && id in s.recs && StaysApart(c, s, p, a, id)
    requires Inv(c, s) && Benign(c, s, Move(p, a), id) && Once(c, s, id)
    ensures Once(c, Apply(c, s, Move(p, a)), id)
  {
    hide RecOk, FromRequest, CanMove, MoveEvent, After, Spawn, Exclusive, ProcOk, Token, Direct;
    hide BenignMove, RecsAfter, KeysAfter, MailAfter, RowAfter, DedupKey, FirstStage;
    var s' := Apply(c, s, Move(p, a));
    var x := s.procs[p];
    assert ProcOk(c, s, x);
    Bystander(c, s, x, a, id);
    MoveState(c, s, p, a, id);
    BystanderRec(c, s, x, a, id);
    forall q | IsToken(s', q, id)
      ensures IsToken(s, q, id) && s'.procs[q] == s.procs[q]
    {
      TokenOrigin(c, s, p, a, id, q);
    }
    forall q | IsToken(s, q, id) ensures IsToken(s', q, id) && s'.procs[q] == s.procs[q] {
    }
    BystanderKeys(c, s, x, a, id);
  }

  lemma BystanderKeys(c: Config, s: State, x: Proc, a: Act, id: Id)
    requires CanMove(c, s, x, a) && (a.SetNX? && NXWins(c, s, x) ==> x.found[0].id != id)
    ensures DedupKey(c, id) in s.keys ==>
              DedupKey(c, id) in KeysMoved(c, s, x, a) && KeysMoved(c, s, x, a)[DedupKey(c, id)] == s.keys[DedupKey(c, id)]
  {
    hide DedupKey;
    if a.SetNX? && NXWins(c, s, x) {
      DedupKeyInjective(c, x.found[0].id, id);
    }
  }

  lemma BystanderRec(c: Config, s: State, x: Proc, a: Act, id: Id)
    requires CanMove(c, s, x, a) && id in s.recs
    requires var e := MoveEvent(c, s, x, a, id);
             e.Some? ==> e.value.kind != Rows.Accepted && RowAfter(c, s.recs[id].row, e.value) == s.recs[id].row
    ensures var r := RecMoved(c, s, x, a, id); r.row == s.recs[id].row && Sends(r) == Sends(s.recs[id])
  {
    hide CanMove, MoveEvent, RowAfter;
    var e := MoveEvent(c, s, x, a, id);
    if e.Some? {
      CountAppend(s.recs[id].hist, e.value, Rows.Accepted);
    }
  }

  lemma OtherKeys(c: Config, s: State, l: Label, id: Id)
    requires Enabled(c, s, l) && !l.Move? && Benign(c, s, l, id)
    ensures var key := DedupKey(c, id);
            key in s.keys ==> key in Apply(c, s, l).keys && Apply(c, s, l).keys[key] == s.keys[key]
  {
  }

  lemma TokenKept(c: Config, keys: Keys, keys': Keys, r: Rec, x: Proc, id: Id)
    requires TokenOk(c, keys, r, x, id)
    requires var key := DedupKey(c, id); key in keys ==> key in keys' && keys'[key] == keys[key]
    ensures TokenOk(c, keys', r, x, id)
  {
  }

  /** A step of no existing process. */
  lemma OnceOther(c: Config, s: State, l: Label, id: Id)
    requires Inv(c, s) && Enabled(c, s, l) && !l.Move? && Benign(c, s, l, id) && id in s.recs && Once(c, s, id)
    ensures Once(c, Apply(c, s, l), id)
  {
    hide RecOk, FromRequest, Exclusive, ProcOk, TokenOk, Direct, NewRow, Sends, KeysAfter, MailAfter, DedupKey, Benign;
    OtherKeys(c, s, l, id);
    var s' := Apply(c, s, l);
    assert s'.recs[id] == s.recs[id];
    forall q ensures IsToken(s', q, id) <==> IsToken(s, q, id) {
    }
    forall q | IsToken(s, q, id)
      ensures s'.procs[q] == s.procs[q] && TokenOk(c, s'.keys, s'.recs[id], s'.procs[q], id)
    {
      TokenKept(c, s.keys, s'.keys, s.recs[id], s.procs[q], id);
    }
  }

  lemma OnceNew(c: Config, s: State, l: Label)
    requires Inv(c, s) && Enabled(c, s, l) && l.Create?
    ensures l.id in Apply(c, s, l).recs && Once(c, Apply(c, s, l), l.id)
  {
    hide RecOk, FromRequest, Exclusive;
    var s' := Apply(c, s, l);
    assert s'.recs[l.id] == Rec(NewRow(c, l.req, l.id), []);
    forall q | IsToken(s', q, l.id) ensures q == s.next {
      if q in s.procs {
        assert ProcOk(c, s, s.procs[q]);
      }
    }
  }

  lemma OnceStep(c: Config, s: State, l: Label, id: Id)
    requires Inv(c, s) && Enabled(c, s, l) && Benign(c, s, l, id) && Timely(s, id) && id in Apply(c, s, l).recs
    requires id in s.recs ==> Once(c, s, id)
    ensures Once(c, Apply(c, s, l), id)
  {
    hide Inv, CanMove, MoveEvent, After, Spawn, Once, Timely, Direct, BenignMove, Token;
    if id !in s.recs {
      OnceNew(c, s, l);
    } else if !l.Move? {
      OnceOther(c, s, l, id);
    } else if IsToken(s, l.p, id) {
      OnceTokenMoves(c, s, l.p, l.a, id);
    } else if OptToken(After(c, s, s.procs[l.p], l.a), id, Direct(s.recs[id].row)) {
      OnceTokenStarts(c, s, l.p, l.a, id);
    } else {
      OnceBystander(c, s, l.p, l.a, id);
    }
  }

  // ---- whole runs ------------------------------------------------------

  /** The assumptions hold of the first n steps. */
  ghost predicate WellDelivered(c: Config, ss: seq<State>, ls: seq<Label>, n: nat, id: Id)
    requires IsRun(c, ss, ls) && n <= |ls|
  {
    forall k :: 0 <= k < n ==> Timely(ss[k], id) && Benign(c, ss[k], ls[k], id)
  }

  lemma {:induction false} OnceAlways(c: Config, ss: seq<State>, ls: seq<Label>, i: nat, id: Id)
    requires IsRun(c, ss, ls) && i <= |ls| && WellDelivered(c, ss, ls, i, id) && id in ss[i].recs
    ensures Once(c, ss[i], id)
  {
    hide Inv, Enabled, Apply, Once, Timely, Benign;
    if i > 0 {
      InvAlways(c, ss, ls, i - 1);
      if id in ss[i - 1].recs {
        OnceAlways(c, ss, ls, i - 1, id);
      }
      OnceStep(c, ss[i - 1], ls[i - 1], id);
    }
  }

  /**
   At most once: in every run that keeps the delivery assumptions for a notification, whatever happens to the
   others, it never has two outstanding deliveries, SendNotification accepts it at most once, and a completed
   row was accepted.
   */
  lemma AtMostOneSend(c: Config, ss: seq<State>, ls: seq<Label>, i: nat, id: Id)
    requires IsRun(c, ss, ls) && i <= |ls| && WellDelivered(c, ss, ls, i, id) && id in ss[i].recs
    ensures forall p, q | IsToken(ss[i], p, id) && IsToken(ss[i], q, id) :: p == q
    ensures Count(ss[i].recs[id].hist, Rows.Accepted) <= 1
    ensures ss[i].recs[id].row.status == Completed ==> Count(ss[i].recs[id].hist, Rows.Accepted) == 1
    ensures ss[i].recs[id].row.status == Failed ==> Count(ss[i].recs[id].hist, Rows.Accepted) == 0
  {
    hide Enabled, Apply, Timely, Benign;
    OnceAlways(c, ss, ls, i, id);
  }

  /** COMPLETED and FAILED are absorbing in such runs: the row is never written again and has nothing outstanding. */
  lemma {:induction false} SettledForever(c: Config, ss: seq<State>, ls: seq<Label>, i: nat, j: nat, id: Id)
    requires IsRun(c, ss, ls) && i <= j <= |ls| && WellDelivered(c, ss, ls, j, id)
    requires id in ss[i].recs && ss[i].recs[id].row.status != Pending
    ensures id in ss[j].recs && ss[j].recs[id].row == ss[i].recs[id].row
    ensures forall p :: !IsToken(ss[j], p, id)
  {
    hide Inv, Enabled, Apply, Timely, Benign;
    if i < j {
      SettledForever(c, ss, ls, i, j - 1, id);
      SettledStep(c, ss, ls, j - 1, id);
    }
    OnceAlways(c, ss, ls, j, id);
  }

  lemma SettledStep(c: Config, ss: seq<State>, ls: seq<Label>, i: nat, id: Id)
    requires IsRun(c, ss, ls) && i < |ls| && WellDelivered(c, ss, ls, i + 1, id)
    requires id in ss[i].recs && ss[i].recs[id].row.status != Pending && forall p :: !IsToken(ss[i], p, id)
    ensures id in ss[i + 1].recs && ss[i + 1].recs[id].row == ss[i].recs[id].row
  {
    hide RecOk, FromRequest, ProcOk, Exclusive, CanMove, MoveEvent, After, Spawn, Token, BenignMove, Timely, RowAfter;
    hide KeysAfter, ProcsAfter, MailAfter, Direct;
    InvAlways(c, ss, ls, i);
    var s, l := ss[i], ls[i];
    if l.Move? {
      var x := s.procs[l.p];
      assert ProcOk(c, s, x) && Timely(s, id) && Benign(c, s, l, id);
      assert !IsToken(s, l.p, id);
      if OptToken(After(c, s, x, l.a), id, Direct(s.recs[id].row)) {
        StartsPending(c, s, x, l.a, id);
      } else {
        Bystander(c, s, x, l.a, id);
      }
      MoveState(c, s, l.p, l.a, id);
    }
  }

  /** A delivery starts only on a pending row. */
  lemma StartsPending(c: Config, s: State, x: Proc, a: Act, id: Id)
    requires ProcOk(c, s, x) && CanMove(c, s, x, a) && BenignMove(c, s, x, a, id) && id in s.recs
    requires !Token(x, id, Direct(s.recs[id].row)) && OptToken(After(c, s, x, a), id, Direct(s.recs[id].row))
    ensures s.recs[id].row.status == Pending
  {
    hide Rebuilt, DedupKey, SameBody;
    if a.Check? {
      CheckDirect(c, s, x, id);
    } else if a.Commit? {
      assert DueForRetry(s.recs[id].row, x.now);
    }
  }
}
