/**
 Notification delivery as a transition system: one table and one key store shared by any number of
 pods, with every pass, message and consumer that is under way as a process of its own. A label names
 a step together with whatever the outside world decided in it, so a run is a list of labels.
 */
module Protocol {
  import opened Wrappers
  import opened Json
  import opened Model
  import opened Backoff
  import opened Aggregate
  import opened Delivery
  import opened Cache
  import opened Rows

  datatype Proc =
    // EnqueueNotification after Create: before the scheduled_at check, and before the publication
    | EnqChecking(id: Id, req: Request)
    | EnqPublishing(id: Id, req: Request)
    // EnqueueDueScheduledNotifications: now captured; then the rows still to go, the first one's lock won or not
    | SchedFinding(now: Time, batch: int)
    | SchedLooping(found: seq<Notification>, won: bool, until: Option<Time>)
    // EnqueuePendingRetries: now captured; transaction open; committed, with the rows still to publish
    | ClaimLocking(now: Time, batch: int)
    | ClaimOpen(now: Time, batch: int, ids: seq<Id>)
    | ClaimPublishing(until: Option<Time>, ids: seq<Id>)
    // a message, queued or with its consumer; until is when the lock or lease behind it ends
    | SendQueued(id: Id, req: Request, until: Option<Time>)
    | RetryQueued(id: Id, until: Option<Time>)
    | RetryReady(id: Id, req: Request, until: Option<Time>)
    // a consumer after SendNotification, before its write
    | Done(id: Id, first: bool, ok: bool, at: Time, until: Option<Time>)

  datatype State = State(
    clock: Time,
    recs: map<Id, Rec>,
    keys: Keys,
    procs: map<nat, Proc>,
    next: nat,
    mailboxes: seq<Mailbox>)

  /** What a process does next. */
  datatype Act =
    | Check                             // EnqueueNotification compares scheduled_at with the clock
    | PublishNow
    | Find(found: seq<Notification>)    // the scheduled query returns
    | SetNX
    | PublishScheduled
    | SkipScheduled                     // SetNX, marshal or publish error
    | Lock(ids: seq<Id>)                // the claim query returns
    | Commit
    | PublishRetry
    | SkipRetry                         // publish error
    | ReadRow                           // the retry consumer loads the row
    | Send(ok: bool)                    // SendNotification returns
    | Write                             // the consumer's update, or the database refusing it
    | Drop                              // crash, rollback, lost message, lost write, end of a pass
    | Redeliver

  datatype Label =
    | Tick(t: Time)
    | Create(id: Id, req: Request)
    | StartScheduled(batch: int)
    | StartClaim(batch: int)
    | Evict(key: string)
    | Move(p: nat, a: Act)

  function TableOf(s: State): Table {
    map id | id in s.recs :: s.recs[id].row
  }

  ghost predicate Locked(s: State, id: Id) {
    exists p :: p in s.procs && s.procs[p].ClaimOpen? && id in s.procs[p].ids
  }

  predicate Initial(s: State) {
    s.clock > ZERO_TIME && s.recs == map[] && s.keys == map[] && s.procs == map[] && s.next == 0 && s.mailboxes == []
  }

  predicate RetryGuard(row: Notification) {
    row.status == Pending && 1 <= row.attemptCount < row.maxAttempts
  }

  // ---- enabling --------------------------------------------------------

  /** The rows open claim transactions hold. */
  ghost function LockedIds(s: State): (ids: set<Id>)
    ensures forall id :: id in ids <==> id in s.recs && Locked(s, id)
  {
    set id | id in s.recs && Locked(s, id)
  }

  ghost predicate CanMove(c: Config, s: State, x: Proc, a: Act) {
    match a
    case Check => x.EnqChecking?
    case PublishNow => x.EnqPublishing? && MarshalableParams(x.req.params)
    case Find(found) => x.SchedFinding? && IsFirstDue(TableOf(s), found, x.batch, x.now)
    case SetNX => x.SchedLooping? && !x.won && x.found != [] && DedupTTL(c) >= 0
    case PublishScheduled =>
      x.SchedLooping? && x.won && x.found != [] && MarshalableParams(Rebuilt(x.found[0]).params)
    case SkipScheduled => x.SchedLooping? && x.found != []
    case Lock(ids) => x.ClaimLocking? && IsLockResult(TableOf(s), LockedIds(s), ids, x.batch, x.now)
    case Commit => x.ClaimOpen? && (x.ids == [] || LeaseFits(c, x.now))
    case PublishRetry => x.ClaimPublishing? && x.ids != []
    case SkipRetry => x.ClaimPublishing? && x.ids != []
    case ReadRow => x.RetryQueued?
    case Send(ok) => (x.SendQueued? || x.RetryReady?) && (ok ==> !Refused(x.req, x.id in s.recs))
    case Write => x.Done? && x.id in s.recs && !Locked(s, x.id)
    case Drop => true
    case Redeliver => x.SendQueued? || x.RetryQueued?
  }

  ghost predicate Enabled(c: Config, s: State, l: Label) {
    match l
    case Tick(t) => t >= s.clock
    case Create(id, req) => id !in s.recs && id != "" && InInt4(RowMaxAttempts(c))
    case StartScheduled(batch) => batch > 0
    case StartClaim(batch) => batch > 0
    case Evict(key) => key in s.keys
    case Move(p, a) => p in s.procs && CanMove(c, s, s.procs[p], a)
  }

  // ---- effect on rows --------------------------------------------------

  function WriteEvent(c: Config, row: Notification, clock: Time, d: Proc): Option<Event>
    requires d.Done?
  {
    if d.ok then Some(Event(if d.first then CompletedFirst else CompletedRetry, clock, d.at))
    else if FailureResult(c, row, clock).Some? then Some(Event(FailureRecorded, clock, clock))
    else None
  }

  /** The event that process x doing a adds to the history of row id. */
  ghost function MoveEvent(c: Config, s: State, x: Proc, a: Act, id: Id): Option<Event>
    requires CanMove(c, s, x, a) && id in s.recs
  {
    match a
    case Check =>
      if x.id == id then Some(Event(if InFuture(x.req, s.clock) then Deferred else SendNow, s.clock, s.clock)) else None
    case PublishNow =>
      if x.id == id then Some(Event(Published, s.clock, s.clock)) else None
    case SetNX =>
      if x.found[0].id == id && NXWins(c, s, x) then Some(Event(Won, s.clock, s.clock)) else None
    case PublishScheduled =>
      if x.found[0].id == id then Some(Event(SchedPublished, s.clock, s.clock)) else None
    case Commit =>
      if id in x.ids then Some(Event(Claimed, s.clock, x.now)) else None
    case PublishRetry =>
      if x.ids[0] == id then Some(Event(RetryPublished, s.clock, s.clock)) else None
    case Send(ok) =>
      if ok && x.id == id then Some(Event(Accepted, s.clock, s.clock)) else None
    case Write =>
      if x.id == id then WriteEvent(c, s.recs[id].row, s.clock, x) else None
    case _ => None
  }

  ghost function EventOf(c: Config, s: State, l: Label, id: Id): Option<Event>
    requires Enabled(c, s, l) && id in s.recs
  {
    if l.Move? then MoveEvent(c, s, s.procs[l.p], l.a, id) else None
  }

  ghost function RecAfter(c: Config, s: State, l: Label, id: Id): Rec
    requires Enabled(c, s, l) && id in s.recs
  {
    match EventOf(c, s, l, id)
    case None => s.recs[id]
    case Some(e) => Append(c, s.recs[id], e)
  }

  ghost function RecsAfter(c: Config, s: State, l: Label): map<Id, Rec>
    requires Enabled(c, s, l)
  {
    var stepped := map id | id in s.recs :: RecAfter(c, s, l, id);
    if l.Create? then stepped[l.id := Rec(NewRow(c, l.req, l.id), [])] else stepped
  }

  // ---- effect on processes, keys and mailboxes -------------------------

  predicate NXWins(c: Config, s: State, x: Proc)
    requires x.SchedLooping? && x.found != []
  {
    !Live(s.keys, DedupKey(c, x.found[0].id), s.clock)
  }

  /** What process x becomes; None when it ends. */
  ghost function After(c: Config, s: State, x: Proc, a: Act): Option<Proc>
    requires CanMove(c, s, x, a)
  {
    match a
    case Check => if InFuture(x.req, s.clock) then None else Some(EnqPublishing(x.id, x.req))
    case PublishNow => Some(SendQueued(x.id, Transit(x.req, x.id), None))
    case Find(found) => Some(SchedLooping(found, false, None))
    case SetNX =>
      if NXWins(c, s, x) then Some(SchedLooping(x.found, true, Expiry(s.clock, DedupTTL(c))))
      else Some(SchedLooping(x.found[1..], false, None))
    case PublishScheduled => Some(SchedLooping(x.found[1..], false, None))
    case SkipScheduled => Some(SchedLooping(x.found[1..], false, None))
    case Lock(ids) => Some(ClaimOpen(x.now, x.batch, ids))
    case Commit => Some(ClaimPublishing(Some(x.now + PublishLease(c)), x.ids))
    case PublishRetry => Some(ClaimPublishing(x.until, x.ids[1..]))
    case SkipRetry => Some(ClaimPublishing(x.until, x.ids[1..]))
    case ReadRow =>
      if x.id in s.recs && RetryGuard(s.recs[x.id].row) then Some(RetryReady(x.id, Rebuilt(s.recs[x.id].row), x.until))
      else None
    case Send(ok) => Some(Done(x.id, x.SendQueued?, ok, s.clock, x.until))
    case Write => None
    case Drop => None
    case Redeliver => Some(x)
  }

  /** The message process x starts, if any. */
  ghost function Spawn(c: Config, s: State, x: Proc, a: Act): Option<Proc>
    requires CanMove(c, s, x, a)
  {
    match a
    case PublishScheduled => Some(SendQueued(x.found[0].id, Transit(Rebuilt(x.found[0]), x.found[0].id), x.until))
    case PublishRetry => Some(RetryQueued(x.ids[0], x.until))
    case Redeliver => Some(x)
    case _ => None
  }

  function Placed(procs: map<nat, Proc>, p: nat, after: Option<Proc>): map<nat, Proc> {
    if after.Some? then procs[p := after.value] else procs - {p}
  }

  ghost function ProcsAfter(c: Config, s: State, l: Label): map<nat, Proc>
    requires Enabled(c, s, l)
  {
    match l
    case Create(id, req) => s.procs[s.next := EnqChecking(id, req)]
    case StartScheduled(batch) => s.procs[s.next := SchedFinding(s.clock, batch)]
    case StartClaim(batch) => s.procs[s.next := ClaimLocking(s.clock, batch)]
    case Move(p, a) =>
      var x := s.procs[p];
      var moved := Placed(s.procs, p, After(c, s, x, a));
      if Spawn(c, s, x, a).Some? then moved[s.next := Spawn(c, s, x, a).value] else moved
    case _ => s.procs
  }

  ghost function KeysAfter(c: Config, s: State, l: Label): Keys
    requires Enabled(c, s, l)
  {
    match l
    case Move(p, SetNX) =>
      var x := s.procs[p];
      if NXWins(c, s, x) then s.keys[DedupKey(c, x.found[0].id) := Expiry(s.clock, DedupTTL(c))] else s.keys
    case Evict(key) => s.keys - {key}
    case _ => s.keys
  }

  ghost function MailAfter(s: State, l: Label): seq<Mailbox> {
    match l
    case Move(p, Send(true)) =>
      if p in s.procs && (s.procs[p].SendQueued? || s.procs[p].RetryReady?)
      then s.mailboxes + MailboxesOf(s.procs[p].req) else s.mailboxes
    case _ => s.mailboxes
  }

  ghost function Apply(c: Config, s: State, l: Label): State
    requires Enabled(c, s, l)
  {
    State(if l.Tick? then l.t else s.clock, RecsAfter(c, s, l), KeysAfter(c, s, l), ProcsAfter(c, s, l), s.next + 1,
          MailAfter(s, l))
  }

  // ---- runs ------------------------------------------------------------

  /** ls takes ss[0] through ss. */
  ghost predicate IsPath(c: Config, ss: seq<State>, ls: seq<Label>) {
    && |ss| == |ls| + 1
    && forall i :: 0 <= i < |ls| ==> Enabled(c, ss[i], ls[i]) && ss[i + 1] == Apply(c, ss[i], ls[i])
  }

  ghost predicate IsRun(c: Config, ss: seq<State>, ls: seq<Label>) {
    IsPath(c, ss, ls) && Initial(ss[0])
  }

  lemma PathConcat(c: Config, ss: seq<State>, ls: seq<Label>, ts: seq<State>, ms: seq<Label>)
    requires IsPath(c, ss, ls) && IsPath(c, ts, ms) && ss[|ls|] == ts[0]
    ensures IsPath(c, ss + ts[1..], ls + ms)
    ensures (ss + ts[1..])[0] == ss[0] && (ss + ts[1..])[|ls| + |ms|] == ts[|ms|]
  {
    hide Enabled, Apply;
    var us, ks := ss + ts[1..], ls + ms;
    forall i | 0 <= i < |ks| ensures Enabled(c, us[i], ks[i]) && us[i + 1] == Apply(c, us[i], ks[i]) {
      if i >= |ls| {
        var j := i - |ls|;
        assert us[i] == ts[j] && us[i + 1] == ts[j + 1] && ks[i] == ms[j];
      } else {
        assert us[i] == ss[i] && us[i + 1] == ss[i + 1] && ks[i] == ls[i];
      }
    }
  }
}
