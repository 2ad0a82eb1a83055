/** Mailbox rows against successful sends, over every run. */
module MailConservation {
  import opened Wrappers
  import opened Model
  import opened Aggregate
  import opened Text
  import opened Delivery
  import opened Rows
  import opened Histories
  import opened Protocol
  import opened Invariants
  import opened AtMostOnce

  /** The mailbox rows notification id should have given user so far. */
  ghost function Owed(s: State, id: Id, user: string): nat {
    if id in s.recs && s.recs[id].row.channel == CHANNEL_IN_APP && user in NonBlank(s.recs[id].row.recipients)
    then Count(s.recs[id].hist, Rows.Accepted) else 0
  }

  ghost predicate Conserved(s: State, id: Id, user: string) {
    MailCount(s.mailboxes, id, user) == Owed(s, id, user)
  }

  /** An accepted send adds one row per reached user, and logs itself on its own notification only. */
  lemma SendAdds(c: Config, s: State, x: Proc, id: Id, user: string)
    requires ProcOk(c, s, x) && CanMove(c, s, x, Send(true)) && s.recs[x.id].row.id == x.id
    ensures MailCount(MailboxesOf(x.req), id, user) ==
            if id == x.id && s.recs[x.id].row.channel == CHANNEL_IN_APP
               && user in NonBlank(s.recs[x.id].row.recipients) then 1 else 0
    ensures id in s.recs ==> MoveEvent(c, s, x, Send(true), id) ==
                             if id == x.id then Some(Event(Rows.Accepted, s.clock, s.clock)) else None
  {
    hide IsFirstDue, IsLockResult, Refused, MailboxesFor, MailCount, NonBlank, FirstOccurrences;
    var row := s.recs[x.id].row;
    assert Delivered(x.req) == Delivered(Rebuilt(row));
    assert x.req.channel == row.channel && x.req.recipients == row.recipients && x.req.notificationID == row.id;
    if row.channel == CHANNEL_IN_APP {
      OneRowPerUser(x.req, id, user);
    } else {
      NoMail(id, user);
    }
  }

  lemma OnlySendsAccept(c: Config, s: State, x: Proc, a: Act, id: Id)
    requires CanMove(c, s, x, a) && id in s.recs && a != Send(true)
    ensures var e := MoveEvent(c, s, x, a, id); e.Some? ==> e.value.kind != Rows.Accepted
  {
  }

  lemma ConservedStep(c: Config, s: State, l: Label, id: Id, user: string)
    requires Inv(c, s) && Enabled(c, s, l) && Conserved(s, id, user)
    ensures Conserved(Apply(c, s, l), id, user)
  {
    hide RecOk, FromRequest, ProcOk, Exclusive, CanMove, MoveEvent, RowAfter, MailCount, NonBlank, MailboxesOf;
    hide KeysAfter, ProcsAfter;
    var s' := Apply(c, s, l);
    if id in s.recs {
      OneRowStep(c, s, l, id);
      EventCounts(c, s, l, id, Rows.Accepted);
    }
    if l.Move? && l.a == Send(true) {
      var x := s.procs[l.p];
      assert ProcOk(c, s, x);
      SenderShape(c, s, x);
      SendAdds(c, s, x, id, user);
      MailCountConcat(s.mailboxes, MailboxesOf(x.req), id, user);
    } else if l.Move? && id in s.recs {
      OnlySendsAccept(c, s, s.procs[l.p], l.a, id);
    } else if l.Create? && id == l.id {
      assert s'.recs[id].hist == [];
    }
  }

  lemma SenderShape(c: Config, s: State, x: Proc)
    requires ProcOk(c, s, x) && CanMove(c, s, x, Send(true))
    ensures (x.SendQueued? || x.RetryReady?) && x.id in s.recs
  {
  }

  /**
   Conservation: in every run the mailbox rows created for a notification and a user number exactly its
   accepted in-app sends if the user is among its trimmed, non-blank recipients, and none otherwise.
   */
  lemma {:induction false} MailboxesConserved(c: Config, ss: seq<State>, ls: seq<Label>, i: nat, id: Id, user: string)
    requires IsRun(c, ss, ls) && i <= |ls|
    ensures MailCount(ss[i].mailboxes, id, user) ==
            if id in ss[i].recs && ss[i].recs[id].row.channel == CHANNEL_IN_APP
               && user in NonBlank(ss[i].recs[id].row.recipients)
            then Count(ss[i].recs[id].hist, Rows.Accepted) else 0
  {
    hide Inv, Enabled, Apply, MailCount, NonBlank;
    if i > 0 {
      MailboxesConserved(c, ss, ls, i - 1, id, user);
      InvAlways(c, ss, ls, i - 1);
      ConservedStep(c, ss[i - 1], ls[i - 1], id, user);
    } else {
      NoMail(id, user);
    }
  }

  lemma NoMail(id: Id, user: string)
    ensures MailCount([], id, user) == 0
  {
  }

  /** Whichever path it comes by, SendNotification is given the request the row stores. */
  lemma SameRequestEverywhere(c: Config, ss: seq<State>, ls: seq<Label>, i: nat, p: nat)
    requires IsRun(c, ss, ls) && i <= |ls| && p in ss[i].procs
    requires ss[i].procs[p].SendQueued? || ss[i].procs[p].RetryReady?
    ensures ss[i].procs[p].id in ss[i].recs
    ensures Delivered(ss[i].procs[p].req) == Delivered(Rebuilt(ss[i].recs[ss[i].procs[p].id].row))
    ensures var req, row := ss[i].procs[p].req, ss[i].recs[ss[i].procs[p].id].row;
            && req.notificationID == row.id && req.channel == row.channel && req.kind == row.kind
            && req.title == row.title && req.message == row.message && req.recipients == row.recipients
            && req.params == Rebuilt(row).params
  {
    hide Enabled, Apply, RecOk, FromRequest, Rebuilt;
    InvAlways(c, ss, ls, i);
    assert ProcOk(c, ss[i], ss[i].procs[p]);
    SentAsStored(ss[i].procs[p].req, ss[i].recs[ss[i].procs[p].id].row);
  }

  lemma SentAsStored(req: Request, row: Notification)
    requires Delivered(req) == Delivered(Rebuilt(row))
    ensures req.notificationID == row.id && req.channel == row.channel && req.kind == row.kind
    ensures req.title == row.title && req.message == row.message && req.recipients == row.recipients
    ensures req.params == Rebuilt(row).params
  {
    var d := Delivered(req);
    assert d.notificationID == req.notificationID && d.channel == req.channel && d.kind == req.kind;
    assert d.title == req.title && d.message == req.message && d.recipients == req.recipients && d.params == req.params;
  }

  // ---- what the rows say -----------------------------------------------

  /** m belongs to a stored in-app notification: its title and message, and one of its non-blank recipients. */
  ghost predicate FromStored(s: State, m: Mailbox) {
    && m.notificationID in s.recs
    && var row := s.recs[m.notificationID].row;
       && m.title == row.title && m.message == row.message
       && row.channel == CHANNEL_IN_APP && m.createdBy in NonBlank(row.recipients)
  }

  lemma StaysStored(c: Config, s: State, l: Label, m: Mailbox)
    requires Inv(c, s) && Enabled(c, s, l) && FromStored(s, m)
    ensures FromStored(Apply(c, s, l), m)
  {
    hide Inv, Enabled, Apply, NonBlank;
    OneRowStep(c, s, l, m.notificationID);
  }

  lemma SentIsStored(c: Config, s: State, l: Label, m: Mailbox)
    requires Inv(c, s) && Enabled(c, s, l) && m in MailAfter(s, l) && m !in s.mailboxes
    ensures FromStored(s, m)
  {
    hide RecOk, FromRequest, Exclusive, ProcOk, CanMove, NonBlank, MailboxesOf, Rebuilt, Delivered;
    var x := s.procs[l.p];
    assert ProcOk(c, s, x);
    SenderShape(c, s, x);
    SenderCarries(c, s, x);
    SentAsStored(x.req, s.recs[x.id].row);
    MailboxesCarry(x.req);
  }

  lemma SenderCarries(c: Config, s: State, x: Proc)
    requires ProcOk(c, s, x) && (x.SendQueued? || x.RetryReady?)
    ensures x.id in s.recs && Delivered(x.req) == Delivered(Rebuilt(s.recs[x.id].row))
  {
    hide Rebuilt, SameBody;
  }

  /** In every run each mailbox row is one of a stored in-app notification, with that row's title and message. */
  lemma {:induction false} MailboxContents(c: Config, ss: seq<State>, ls: seq<Label>, i: nat, m: Mailbox)
    requires IsRun(c, ss, ls) && i <= |ls| && m in ss[i].mailboxes
    ensures m.notificationID in ss[i].recs
    ensures var row := ss[i].recs[m.notificationID].row;
            && m.title == row.title && m.message == row.message
            && row.channel == CHANNEL_IN_APP && m.createdBy in NonBlank(row.recipients)
  {
    hide Inv, Enabled, Apply, NonBlank;
    if i > 0 {
      var s, l := ss[i - 1], ls[i - 1];
      InvAlways(c, ss, ls, i - 1);
      MailIs(c, s, l);
      if m in s.mailboxes {
        MailboxContents(c, ss, ls, i - 1, m);
      } else {
        SentIsStored(c, s, l, m);
      }
      StaysStored(c, s, l, m);
    }
  }

  lemma MailIs(c: Config, s: State, l: Label)
    requires Enabled(c, s, l)
    ensures Apply(c, s, l).mailboxes == MailAfter(s, l)
  {
    hide RecsAfter, KeysAfter, ProcsAfter, MailAfter, CanMove;
  }

  /** In a well-delivered run no user ever gets a second mailbox row for one notification. */
  lemma AtMostOneMailbox(c: Config, ss: seq<State>, ls: seq<Label>, i: nat, id: Id, user: string)
    requires IsRun(c, ss, ls) && i <= |ls| && WellDelivered(c, ss, ls, i, id)
    ensures MailCount(ss[i].mailboxes, id, user) <= 1
    ensures id in ss[i].recs ==>
              var row := ss[i].recs[id].row;
              row.status == Completed && row.channel == CHANNEL_IN_APP && user in NonBlank(row.recipients) ==>
                MailCount(ss[i].mailboxes, id, user) == 1
  {
    hide Enabled, Apply, MailCount, NonBlank, Timely, Benign;
    MailboxesConserved(c, ss, ls, i, id, user);
    if id in ss[i].recs {
      AtMostOneSend(c, ss, ls, i, id);
    }
  }
}
