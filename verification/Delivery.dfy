/** What SendNotification does before and after the provider: its own refusals, and the mailbox rows of an in-app send. */
module Delivery {
  import opened Model
  import opened Aggregate
  import opened Text

  predicate HasEmailTemplate(kind: string) {
    kind in {"WELCOME", "VERIFY_OTP", "FORGOT_PASSWORD", "RESET_PASSWORD"}
  }

  predicate HasSmsTemplate(kind: string) {
    kind == "VERIFY_OTP"
  }

  /** The requests SendNotification rejects whatever the providers answer. */
  predicate Refused(req: Request, rowExists: bool) {
    if req.channel == CHANNEL_EMAIL then
      req.kind == TYPE_MESSAGING_GROUP || !HasEmailTemplate(req.kind)
    else if req.channel == CHANNEL_SMS then
      req.kind == TYPE_MESSAGING_GROUP || (!HasSmsTemplate(req.kind) && req.message == "")
    else if req.channel == CHANNEL_PUSH then
      NonBlank(req.recipients) == [] || (req.title == "" && req.message == "")
    else if req.channel == CHANNEL_IN_APP then
      || req.kind == TYPE_MESSAGING_GROUP || req.notificationID == "" || !rowExists
      || NonBlank(req.recipients) == [] || !UsersFit(req)
    else
      true
  }

  /** The mailbox rows of the request fit their columns. */
  predicate UsersFit(req: Request) {
    forall user | user in NonBlank(req.recipients) :: MailboxFits(MailboxFor(req, user))
  }

  /** The users an in-app request reaches. */
  function InAppUsers(recipients: seq<string>): seq<string> {
    FirstOccurrences(NonBlank(recipients))
  }

  function MailboxFor(req: Request, user: string): Mailbox {
    Mailbox(req.title, req.message, req.notificationID, user)
  }

  function MailboxesFor(req: Request, users: seq<string>): (ms: seq<Mailbox>)
    ensures |ms| == |users| && forall i :: 0 <= i < |users| ==> ms[i] == MailboxFor(req, users[i])
  {
    seq(|users|, i requires 0 <= i < |users| => MailboxFor(req, users[i]))
  }

  /** The rows a successful send adds to the mailboxes table. */
  function MailboxesOf(req: Request): seq<Mailbox> {
    if req.channel == CHANNEL_IN_APP then MailboxesFor(req, InAppUsers(req.recipients)) else []
  }

  /** The rows carry the request's title, message and notification id, and a non-blank recipient each. */
  lemma MailboxesCarry(req: Request)
    ensures forall m | m in MailboxesOf(req) ::
              && req.channel == CHANNEL_IN_APP && m.title == req.title && m.message == req.message
              && m.notificationID == req.notificationID && m.createdBy in NonBlank(req.recipients)
  {
    hide NonBlank;
    FirstOccurrencesSpec(NonBlank(req.recipients));
    forall m | m in MailboxesOf(req)
      ensures m.title == req.title && m.message == req.message && m.notificationID == req.notificationID
      ensures m.createdBy in NonBlank(req.recipients)
    {
      var users := InAppUsers(req.recipients);
      var i :| 0 <= i < |users| && m == MailboxesFor(req, users)[i];
      assert users[i] in users;
    }
  }

  /** How many mailbox rows user has for notification id. */
  function MailCount(ms: seq<Mailbox>, id: Id, user: string): nat {
    if ms == [] then 0
    else
      var m := ms[|ms| - 1];
      MailCount(ms[..|ms| - 1], id, user) + (if m.notificationID == id && m.createdBy == user then 1 else 0)
  }

  lemma {:induction false} MailCountConcat(a: seq<Mailbox>, b: seq<Mailbox>, id: Id, user: string)
    ensures MailCount(a + b, id, user) == MailCount(a, id, user) + MailCount(b, id, user)
  {
    if b == [] {
      assert a + b == a;
    } else {
      MailCountConcat(a, b[..|b| - 1], id, user);
      assert (a + b)[..|a + b| - 1] == a + b[..|b| - 1];
    }
  }

  lemma {:induction false} MailCountUsers(req: Request, users: seq<string>, user: string)
    requires forall i, j :: 0 <= i < j < |users| ==> users[i] != users[j]
    ensures MailCount(MailboxesFor(req, users), req.notificationID, user) == if user in users then 1 else 0
  {
    if users != [] {
      var n := |users| - 1;
      MailCountUsers(req, users[..n], user);
      assert MailboxesFor(req, users)[..n] == MailboxesFor(req, users[..n]);
      assert users == users[..n] + [users[n]];
    }
  }

  lemma {:induction false} MailCountOther(req: Request, users: seq<string>, id: Id, user: string)
    requires id != req.notificationID
    ensures MailCount(MailboxesFor(req, users), id, user) == 0
  {
    if users != [] {
      var n := |users| - 1;
      MailCountOther(req, users[..n], id, user);
      assert MailboxesFor(req, users)[..n] == MailboxesFor(req, users[..n]);
    }
  }

  /** One in-app send gives every trimmed, non-blank recipient exactly one row, and nobody else any. */
  lemma OneRowPerUser(req: Request, id: Id, user: string)
    requires req.channel == CHANNEL_IN_APP
    ensures MailCount(MailboxesOf(req), id, user) ==
            if id == req.notificationID && user in NonBlank(req.recipients) then 1 else 0
  {
    var users := InAppUsers(req.recipients);
    FirstOccurrencesSpec(NonBlank(req.recipients));
    FirstOccurrencesDistinct(NonBlank(req.recipients));
    if id == req.notificationID {
      MailCountUsers(req, users, user);
    } else {
      MailCountOther(req, users, id, user);
    }
  }
}
