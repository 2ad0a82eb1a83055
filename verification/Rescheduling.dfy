/** The scheduled path heals itself: a due notification can be published again once its dedup key has expired. */
module Rescheduling {
  import opened Json
  import opened Model
  import opened Backoff
  import opened Aggregate
  import opened Cache
  import opened Rows
  import opened Histories
  import opened Protocol
  import opened Invariants
  import opened Publications
  import Drain
  import Steps = Refinement

  // ---- the query has an answer -----------------------------------------

  ghost predicate Sorted(rows: seq<Notification>) {
    forall i, j :: 0 <= i < j < |rows| ==> rows[i].scheduledAt <= rows[j].scheduledAt
  }

  /** Where row goes in a sorted list. */
  lemma Place(rows: seq<Notification>, row: Notification) returns (k: nat)
    requires Sorted(rows)
    ensures k <= |rows| && Sorted(rows[..k] + [row] + rows[k..])
  {
    k := 0;
    while k < |rows| && rows[k].scheduledAt <= row.scheduledAt
      invariant k <= |rows| && forall i :: 0 <= i < k ==> rows[i].scheduledAt <= row.scheduledAt
    {
      k := k + 1;
    }
  }

  /** The rows of the given ids in scheduled_at order. */
  lemma {:induction false} InOrder(table: Table, ids: set<Id>) returns (rows: seq<Notification>)
    requires ids <= table.Keys && forall id | id in ids :: table[id].id == id
    ensures Sorted(rows) && DistinctIds(IdsOf(rows)) && |rows| == |ids|
    ensures forall r :: r in rows <==> r.id in ids && table[r.id] == r
    decreases ids
  {
    if ids == {} {
      rows := [];
    } else {
      var id :| id in ids;
      var rest := InOrder(table, ids - {id});
      var k := Place(rest, table[id]);
      rows := rest[..k] + [table[id]] + rest[k..];
      InsertedDistinct(rest, k, table[id]);
      assert forall r :: r in rows <==> r in rest || r == table[id] by {
        assert rest == rest[..k] + rest[k..];
      }
    }
  }

  lemma InsertedDistinct(rest: seq<Notification>, k: nat, row: Notification)
    requires k <= |rest| && DistinctIds(IdsOf(rest)) && forall r | r in rest :: r.id != row.id
    ensures DistinctIds(IdsOf(rest[..k] + [row] + rest[k..]))
  {
    var rows := rest[..k] + [row] + rest[k..];
    forall i, j | 0 <= i < j < |rows| ensures rows[i].id != rows[j].id {
      var a := if i < k then i else i - 1;
      var b := if j < k then j else j - 1;
      assert i != k ==> rows[i] == rest[a] && IdsOf(rest)[a] == rest[a].id;
      assert j != k ==> rows[j] == rest[b] && IdsOf(rest)[b] == rest[b].id;
    }
  }

  /** The rows a scheduled pass at now has to deal with. */
  ghost function DueIds(s: State, now: Time): set<Id> {
    set id | id in s.recs && DueScheduled(s.recs[id].row, now)
  }

  /** The other due rows that are no later than id's, and those that are earlier. */
  ghost function Ahead(s: State, id: Id, now: Time): set<Id>
    requires id in s.recs
  {
    set k | k in s.recs && k != id && DueScheduled(s.recs[k].row, now)
            && s.recs[k].row.scheduledAt <= s.recs[id].row.scheduledAt
  }

  ghost function Before(s: State, id: Id, now: Time): set<Id>
    requires id in s.recs
  {
    set k | k in s.recs && k != id && DueScheduled(s.recs[k].row, now)
            && s.recs[k].row.scheduledAt < s.recs[id].row.scheduledAt
  }

  ghost predicate OwnIds(s: State) {
    forall k | k in s.recs :: s.recs[k].row.id == k
  }

  /** A complete sorted list of the due rows answers the query with any limit by its prefix. */
  lemma PrefixAnswers(s: State, rows: seq<Notification>, batch: nat, now: Time)
    requires OwnIds(s) && Sorted(rows) && DistinctIds(IdsOf(rows))
    requires forall r :: r in rows <==> r.id in DueIds(s, now) && s.recs[r.id].row == r
    ensures IsFirstDue(TableOf(s), rows[..if batch < |rows| then batch else |rows|], batch, now)
  {
    hide DueScheduled;
    var n := if batch < |rows| then batch else |rows|;
    var found := rows[..n];
    forall i, j | 0 <= i < j < |found| ensures IdsOf(found)[i] != IdsOf(found)[j] {
      assert IdsOf(rows)[i] != IdsOf(rows)[j];
    }
    forall k | k in TableOf(s) && DueScheduled(TableOf(s)[k], now) && TableOf(s)[k] !in found
      ensures |found| == batch && forall r | r in found :: r.scheduledAt <= TableOf(s)[k].scheduledAt
    {
      assert k in DueIds(s, now) && TableOf(s)[k] in rows;
      forall m | 0 <= m < n ensures rows[m] in found {
        assert found[m] == rows[m];
      }
      var m :| 0 <= m < |rows| && rows[m] == TableOf(s)[k];
      assert n <= m;
    }
  }

  /** The due rows in order, with those of first before id's and the others after it. */
  lemma Arranged(s: State, id: Id, first: set<Id>, now: Time) returns (rows: seq<Notification>)
    requires OwnIds(s) && id in DueIds(s, now) && Before(s, id, now) <= first <= Ahead(s, id, now)
    ensures Sorted(rows) && DistinctIds(IdsOf(rows)) && |rows| > |first| && rows[|first|] == s.recs[id].row
    ensures forall r :: r in rows <==> r.id in DueIds(s, now) && s.recs[r.id].row == r
  {
    hide DueScheduled, Ahead, Before, Sorted, DistinctIds;
    AheadIsDue(s, id, now);
    var row := s.recs[id].row;
    var rest := DueIds(s, now) - first - {id};
    var early := InOrder(TableOf(s), first);
    var late := InOrder(TableOf(s), rest);
    Parted(s, id, first, rest, now);
    Joined(early, row, late);
    rows := early + [row] + late;
    Covers(s, id, first, rest, now, early, late, rows);
  }

  lemma AheadIsDue(s: State, id: Id, now: Time)
    requires id in s.recs
    ensures Ahead(s, id, now) <= DueIds(s, now) <= s.recs.Keys && id !in Ahead(s, id, now)
    ensures forall k | k in Ahead(s, id, now) :: s.recs[k].row.scheduledAt <= s.recs[id].row.scheduledAt
    ensures forall k | k in DueIds(s, now) && k != id && k !in Before(s, id, now) ::
              s.recs[id].row.scheduledAt <= s.recs[k].row.scheduledAt
  {
    hide DueScheduled;
  }

  lemma Parted(s: State, id: Id, first: set<Id>, rest: set<Id>, now: Time)
    requires id in DueIds(s, now) && Before(s, id, now) <= first <= Ahead(s, id, now)
    requires rest == DueIds(s, now) - first - {id}
    ensures forall k | k in first :: k != id && s.recs[k].row.scheduledAt <= s.recs[id].row.scheduledAt
    ensures forall k | k in rest :: k != id && s.recs[id].row.scheduledAt <= s.recs[k].row.scheduledAt
  {
    hide DueScheduled, Ahead, Before;
    AheadIsDue(s, id, now);
  }

  lemma Covers(s: State, id: Id, first: set<Id>, rest: set<Id>, now: Time, early: seq<Notification>,
               late: seq<Notification>, rows: seq<Notification>)
    requires OwnIds(s) && id in DueIds(s, now) && first <= DueIds(s, now) <= s.recs.Keys
    requires rest == DueIds(s, now) - first - {id}
    requires forall r :: r in early <==> r.id in first && s.recs[r.id].row == r
    requires forall r :: r in late <==> r.id in rest && s.recs[r.id].row == r
    requires forall r :: r in rows <==> r in early || r == s.recs[id].row || r in late
    ensures forall r :: r in rows <==> r.id in DueIds(s, now) && s.recs[r.id].row == r
  {
    hide DueIds;
  }

  lemma Joined(early: seq<Notification>, row: Notification, late: seq<Notification>)
    requires Sorted(early) && Sorted(late) && DistinctIds(IdsOf(early)) && DistinctIds(IdsOf(late))
    requires forall r | r in early :: r.scheduledAt <= row.scheduledAt && r.id != row.id
    requires forall r | r in late :: row.scheduledAt <= r.scheduledAt && r.id != row.id
    requires forall r, q | r in early && q in late :: r.id != q.id
    ensures var rows := early + [row] + late;
            && Sorted(rows) && DistinctIds(IdsOf(rows))
            && forall r :: r in rows <==> r in early || r == row || r in late
  {
    var rows, n := early + [row] + late, |early|;
    forall i, j | 0 <= i < j < |rows|
      ensures rows[i].scheduledAt <= rows[j].scheduledAt && IdsOf(rows)[i] != IdsOf(rows)[j]
    {
      if i < n {
        assert early[i] in early;
      }
      if j > n {
        assert late[j - n - 1] in late;
      }
      if j < n {
        assert IdsOf(early)[i] != IdsOf(early)[j];
      } else if i > n {
        assert IdsOf(late)[i - n - 1] != IdsOf(late)[j - n - 1];
      }
    }
  }

  /** An answer that has the row exactly when first leaves room for it. */
  lemma AnswerAfter(s: State, id: Id, first: set<Id>, batch: nat, now: Time) returns (found: seq<Notification>)
    requires OwnIds(s) && id in DueIds(s, now) && Before(s, id, now) <= first <= Ahead(s, id, now)
    ensures IsFirstDue(TableOf(s), found, batch, now) && (s.recs[id].row in found <==> |first| < batch)
  {
    hide IsFirstDue, DueScheduled, Ahead, Before;
    var rows := Arranged(s, id, first, now);
    PrefixAnswers(s, rows, batch, now);
    found := rows[..if batch < |rows| then batch else |rows|];
    forall m | 0 <= m < |found| && m != |first| ensures found[m] != s.recs[id].row {
      assert IdsOf(rows)[m] != IdsOf(rows)[|first|];
    }
    if |first| < batch {
      assert found[|first|] == s.recs[id].row;
    }
  }

  ghost function IdSet(rows: seq<Notification>): set<Id> {
    set r | r in rows :: r.id
  }

  lemma {:induction false} IdSetSize(rows: seq<Notification>)
    requires DistinctIds(IdsOf(rows))
    ensures |IdSet(rows)| == |rows|
  {
    if rows == [] {
      assert IdSet(rows) == {};
    } else {
      var n := |rows| - 1;
      forall i, j | 0 <= i < j < n ensures IdsOf(rows[..n])[i] != IdsOf(rows[..n])[j] {
        assert IdsOf(rows)[i] != IdsOf(rows)[j];
      }
      IdSetSize(rows[..n]);
      forall r | r in rows[..n] ensures r.id != rows[n].id {
        var i :| 0 <= i < n && rows[i] == r;
        assert IdsOf(rows)[i] != IdsOf(rows)[n];
      }
      assert rows == rows[..n] + [rows[n]];
      assert IdSet(rows) == IdSet(rows[..n]) + {rows[n].id};
      assert rows[n].id !in IdSet(rows[..n]);
    }
  }

  /** An answer without the row is full of others that are no later. */
  lemma MissedIsFull(s: State, id: Id, found: seq<Notification>, batch: nat, now: Time)
    requires OwnIds(s) && id in DueIds(s, now) && IsFirstDue(TableOf(s), found, batch, now)
    requires s.recs[id].row !in found
    ensures |Ahead(s, id, now)| >= batch
  {
    hide DueScheduled;
    var row := s.recs[id].row;
    assert TableOf(s)[id] == row;
    forall r | r in found ensures r.id in Ahead(s, id, now) {
      assert r.id in TableOf(s) && TableOf(s)[r.id] == r;
    }
    IdSetSize(found);
    Drain.Subset(IdSet(found), Ahead(s, id, now));
  }

  /** An answer with the row has all earlier ones. */
  lemma FoundHasEarlier(s: State, id: Id, found: seq<Notification>, batch: nat, now: Time)
    requires OwnIds(s) && id in DueIds(s, now) && IsFirstDue(TableOf(s), found, batch, now)
    requires s.recs[id].row in found
    ensures |Before(s, id, now)| < batch
  {
    hide DueScheduled;
    var row := s.recs[id].row;
    forall k | k in Before(s, id, now) ensures k in IdSet(found) {
      assert k in TableOf(s) && TableOf(s)[k] == s.recs[k].row;
      assert s.recs[k].row in found;
    }
    IdSetSize(found);
    assert Before(s, id, now) + {id} <= IdSet(found);
    Drain.Subset(Before(s, id, now) + {id}, IdSet(found));
  }

  /** Every answer of the scheduled query has a due row if and only if fewer than the limit are no later than it. */
  lemma AlwaysFoundExactly(s: State, id: Id, batch: nat, now: Time)
    requires OwnIds(s) && id in DueIds(s, now)
    ensures (forall found :: IsFirstDue(TableOf(s), found, batch, now) ==> s.recs[id].row in found)
            <==> |Ahead(s, id, now)| < batch
  {
    hide IsFirstDue, DueScheduled;
    forall found | IsFirstDue(TableOf(s), found, batch, now) && s.recs[id].row !in found
      ensures |Ahead(s, id, now)| >= batch
    {
      MissedIsFull(s, id, found, batch, now);
    }
    if |Ahead(s, id, now)| >= batch {
      var found := AnswerAfter(s, id, Ahead(s, id, now), batch, now);
    }
  }

  /** Head of the line: no answer has it if and only if as many as the limit are earlier. */
  lemma NeverFoundExactly(s: State, id: Id, batch: nat, now: Time)
    requires OwnIds(s) && id in DueIds(s, now)
    ensures (forall found :: IsFirstDue(TableOf(s), found, batch, now) ==> s.recs[id].row !in found)
            <==> |Before(s, id, now)| >= batch
  {
    hide IsFirstDue, DueScheduled;
    forall found | IsFirstDue(TableOf(s), found, batch, now) && s.recs[id].row in found
      ensures |Before(s, id, now)| < batch
    {
      FoundHasEarlier(s, id, found, batch, now);
    }
    if |Before(s, id, now)| < batch {
      var found := AnswerAfter(s, id, Before(s, id, now), batch, now);
    }
  }

  // ---- the pass --------------------------------------------------------

  /** Labels of pass p that meet no error: SetNX, won or not, and publications of what was won. */
  ghost predicate Smooth(ls: seq<Label>, p: nat) {
    forall k :: 0 <= k < |ls| ==> ls[k] == Move(p, SetNX) || ls[k] == Move(p, PublishScheduled)
  }

  /** The pass has not touched id yet: its record, its key and the clock are as in s. */
  ghost predicate Untouched(c: Config, s: State, s': State, id: Id) {
    && s'.clock == s.clock && id in s.recs && id in s'.recs && s'.recs[id] == s.recs[id]
    && (Live(s'.keys, DedupKey(c, id), s.clock) <==> Live(s.keys, DedupKey(c, id), s.clock))
  }

  /** What the pass does with one row leaves the others and their keys alone. */
  lemma OtherRow(c: Config, s: State, p: nat, a: Act, id: Id)
    requires Enabled(c, s, Move(p, a)) && (a.SetNX? || a.PublishScheduled?) && id in s.recs
    requires s.procs[p].SchedLooping? && s.procs[p].found != [] && s.procs[p].found[0].id != id
    ensures Untouched(c, s, Apply(c, s, Move(p, a)), id)
  {
    hide ProcsAfter, MailAfter, DedupKey, MarshalableParams, Rebuilt, Transit;
    DedupKeyInjective(c, id, s.procs[p].found[0].id);
  }

  /** One row of the pass: its lock is won and it is published, or its lock is taken. */
  lemma OneRow(c: Config, s: State, p: nat, found: seq<Notification>, id: Id)
    returns (ss: seq<State>, ls: seq<Label>)
    requires Steps.Looping(s, p, found) && found != [] && found[0].id != id && id in s.recs
    requires MarshalableParams(Rebuilt(found[0]).params) && DedupTTL(c) >= 0
    ensures IsPath(c, ss, ls) && ss[0] == s && |ls| <= 2 && Smooth(ls, p)
    ensures Steps.Looping(ss[|ls|], p, found[1..]) && Untouched(c, s, ss[|ls|], id)
  {
    hide Enabled, Apply, TableOf, Rebuilt, MarshalableParams, DedupKey, DedupTTL, Live;
    Steps.NXStep(c, s, p, found);
    OtherRow(c, s, p, SetNX, id);
    var s1 := Apply(c, s, Move(p, SetNX));
    ss, ls := [s, s1], [Move(p, SetNX)];
    if !Live(s.keys, DedupKey(c, found[0].id), s.clock) {
      Steps.SchedPublishStep(c, s1, p, found);
      OtherRow(c, s1, p, PublishScheduled, id);
      ss, ls := [s, s1, Apply(c, s1, Move(p, PublishScheduled))], [Move(p, SetNX), Move(p, PublishScheduled)];
    }
  }

  /** The pass over the first k rows, none of them id's. */
  lemma {:induction false} PassTo(c: Config, s: State, p: nat, found: seq<Notification>, k: nat, id: Id)
    returns (ss: seq<State>, ls: seq<Label>)
    requires Steps.Looping(s, p, found) && k <= |found| && id in s.recs && DedupTTL(c) >= 0
    requires forall i :: 0 <= i < k ==> found[i].id != id && MarshalableParams(Rebuilt(found[i]).params)
    ensures IsPath(c, ss, ls) && ss[0] == s && |ls| <= 2 * k && Smooth(ls, p)
    ensures Steps.Looping(ss[|ls|], p, found[k..]) && Untouched(c, s, ss[|ls|], id)
  {
    hide Enabled, Apply, TableOf, Rebuilt, MarshalableParams, DedupKey, DedupTTL, Live;
    if k == 0 {
      ss, ls := [s], [];
      assert found[0..] == found;
    } else {
      var ts, ms := PassTo(c, s, p, found, k - 1, id);
      assert found[k - 1..][0] == found[k - 1] && found[k - 1..][1..] == found[k..];
      var us, ks := OneRow(c, ts[|ms|], p, found[k - 1..], id);
      PathConcat(c, ts, ms, us, ks);
      ss, ls := ts + us[1..], ms + ks;
      assert ss[|ls|] == us[|ks|];
    }
  }

  /** What a stored row rebuilds can always be marshalled. */
  lemma StoredMarshals(c: Config, s: State, id: Id)
    requires Inv(c, s) && id in s.recs
    ensures s.recs[id].row.id == id && MarshalableParams(Rebuilt(s.recs[id].row).params)
  {
    hide RecOk, ProcsOk, Exclusive, SameBody, Rebuilt, Transit, MarshalableParams;
    var row := s.recs[id].row;
    assert RowOk(c, s.clock, s.recs[id], id);
    var req :| SameBody(row, NewRow(c, req, row.id));
    RowRoundTrip(c, req, row.id, row);
  }

  /** Scheduler publications of id so far. */
  ghost function TimesPublished(s: State, id: Id): nat
    requires id in s.recs
  {
    Count(s.recs[id].hist, SchedPublished)
  }

  /** Winning SetNX for the row at the head and publishing it. */
  lemma WinAndPublish(c: Config, s: State, p: nat, found: seq<Notification>, id: Id) returns (ss: seq<State>, ls: seq<Label>)
    requires Steps.Looping(s, p, found) && found != [] && found[0].id == id && id in s.recs
    requires MarshalableParams(Rebuilt(found[0]).params) && DedupTTL(c) >= 0 && !Live(s.keys, DedupKey(c, id), s.clock)
    ensures IsPath(c, ss, ls) && ss[0] == s && |ls| == 2 && Smooth(ls, p)
    ensures id in ss[2].recs && TimesPublished(ss[2], id) == TimesPublished(s, id) + 1
  {
    hide Enabled, Apply, TableOf, Rebuilt, Transit, MarshalableParams, DedupKey, DedupTTL, Live;
    Steps.NXStep(c, s, p, found);
    var s1 := Apply(c, s, Move(p, SetNX));
    Published(c, s, p, SetNX, id);
    Steps.SchedPublishStep(c, s1, p, found);
    Published(c, s1, p, PublishScheduled, id);
    var s2 := Apply(c, s1, Move(p, PublishScheduled));
    ss, ls := [s, s1, s2], [Move(p, SetNX), Move(p, PublishScheduled)];
  }

  lemma Published(c: Config, s: State, p: nat, a: Act, id: Id)
    requires Enabled(c, s, Move(p, a)) && (a.SetNX? || a.PublishScheduled?) && id in s.recs
    requires s.procs[p].SchedLooping? && s.procs[p].found != [] && s.procs[p].found[0].id == id
    ensures var s' := Apply(c, s, Move(p, a));
            && id in s'.recs && TimesPublished(s', id) == TimesPublished(s, id) + One(a.PublishScheduled?)
  {
    hide KeysAfter, ProcsAfter, MailAfter, DedupKey, MarshalableParams, Rebuilt, RowAfter;
    EventCounts(c, s, Move(p, a), id, SchedPublished);
  }

  /**
   Whatever was lost before and whatever else is due: if fewer due rows than the limit are no later, and its
   dedup key is not live, every pass that meets no error finds the notification and publishes it once more.
   */
  lemma PublishedAgain(c: Config, s: State, id: Id, batch: int, found: seq<Notification>)
    returns (ss: seq<State>, ls: seq<Label>)
    requires Inv(c, s) && id in s.recs && DueScheduled(s.recs[id].row, s.clock)
    requires |Ahead(s, id, s.clock)| < batch && IsFirstDue(TableOf(s), found, batch, s.clock)
    requires DedupTTL(c) >= 0 && !Live(s.keys, DedupKey(c, id), s.clock)
    ensures IsPath(c, ss, ls) && ss[0] == s && 2 <= |ls| <= 2 * batch + 2
    ensures ls[0] == StartScheduled(batch) && ls[1] == Move(s.next, Find(found)) && Smooth(ls[2..], s.next)
    ensures id in ss[|ls|].recs && TimesPublished(ss[|ls|], id) == TimesPublished(s, id) + 1
  {
    hide Enabled, Apply, TableOf, DueScheduled, DedupKey, DedupTTL, Live, Rebuilt, MarshalableParams, IsFirstDue;
    hide Inv, Ahead;
    AllOwn(c, s);
    if s.recs[id].row !in found {
      MissedIsFull(s, id, found, batch, s.clock);
    }
    var k :| 0 <= k < |found| && found[k] == s.recs[id].row;
    FoundRows(c, s, found, batch, id, k);
    var start := [StartScheduled(batch), Move(s.next, Find(found))];
    Steps.FindSteps(c, s, batch, found);
    var s1 := Apply(c, s, StartScheduled(batch));
    var s2 := Apply(c, s1, Move(s.next, Find(found)));
    FindTouchesNothing(c, s, batch, found, id);
    var ts, ms := PassTo(c, s2, s.next, found, k, id);
    assert found[k..][0] == found[k];
    var us, ks := WinAndPublish(c, ts[|ms|], s.next, found[k..], id);
    PathConcat(c, [s, s1, s2], start, ts, ms);
    PathConcat(c, [s, s1, s2] + ts[1..], start + ms, us, ks);
    ss := [s, s1, s2] + ts[1..] + us[1..];
    ls := start + ms + ks;
    assert ss[|ls|] == us[2] && ls[2..] == ms + ks;
  }

  lemma FindTouchesNothing(c: Config, s: State, batch: int, found: seq<Notification>, id: Id)
    requires Enabled(c, s, StartScheduled(batch)) && id in s.recs
    requires Enabled(c, Apply(c, s, StartScheduled(batch)), Move(s.next, Find(found)))
    ensures Untouched(c, s, Apply(c, Apply(c, s, StartScheduled(batch)), Move(s.next, Find(found))), id)
  {
    hide IsFirstDue, DedupKey;
  }

  lemma AllOwn(c: Config, s: State)
    requires Inv(c, s)
    ensures OwnIds(s)
  {
    hide Inv;
    forall k | k in s.recs ensures s.recs[k].row.id == k {
      StoredMarshals(c, s, k);
    }
  }

  /** The rows in front of id's in an answer are other ones, and all can be marshalled. */
  lemma FoundRows(c: Config, s: State, found: seq<Notification>, batch: int, id: Id, k: nat)
    requires Inv(c, s) && IsFirstDue(TableOf(s), found, batch, s.clock) && k < |found| && id in s.recs
    requires found[k] == s.recs[id].row
    ensures |found| <= batch && found[k].id == id && MarshalableParams(Rebuilt(found[k]).params)
    ensures forall i :: 0 <= i < k ==> found[i].id != id && MarshalableParams(Rebuilt(found[i]).params)
  {
    hide Inv, Rebuilt, MarshalableParams, DueScheduled;
    StoredMarshals(c, s, id);
    forall i | 0 <= i < k ensures found[i].id != id && MarshalableParams(Rebuilt(found[i]).params) {
      assert found[i] in found && TableOf(s)[found[i].id] == found[i];
      StoredMarshals(c, s, found[i].id);
      assert IdsOf(found)[i] != IdsOf(found)[k];
    }
  }

  /**
   Over whole runs: with no key deleted, a PENDING notification on its first attempt whose time has come is
   published again by every such pass as soon as the last win's TTL has passed, however many of its
   publications were lost.
   */
  lemma RescheduledAfterTTL(c: Config, ss: seq<State>, ls: seq<Label>, i: nat, id: Id, batch: int, found: seq<Notification>)
    returns (ts: seq<State>, ms: seq<Label>)
    requires IsRun(c, ss, ls) && i <= |ls| && NoEviction(ls, i) && id in ss[i].recs
    requires DueScheduled(ss[i].recs[id].row, ss[i].clock) && DedupTTL(c) >= 0
    requires |Ahead(ss[i], id, ss[i].clock)| < batch && IsFirstDue(TableOf(ss[i]), found, batch, ss[i].clock)
    requires var last := LastWin(ss[i].recs[id].hist);
             last.None? || (DedupTTL(c) > 0 && ss[i].clock >= last.value + DedupTTL(c))
    ensures IsPath(c, ts, ms) && ts[0] == ss[i] && 2 <= |ms| <= 2 * batch + 2
    ensures ms[0] == StartScheduled(batch) && ms[1] == Move(ss[i].next, Find(found)) && Smooth(ms[2..], ss[i].next)
    ensures id in ts[|ms|].recs && TimesPublished(ts[|ms|], id) == TimesPublished(ss[i], id) + 1
  {
    hide Enabled, Apply, DedupKey, DedupTTL, DueScheduled, Live, LastWin, IsFirstDue, Ahead, TableOf, Smooth, TimesPublished;
    InvAlways(c, ss, ls, i);
    WinnableExactly(c, ss, ls, i, id);
    ts, ms := PublishedAgain(c, ss[i], id, batch, found);
  }
}
