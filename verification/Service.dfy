/**
 The notification service as an object over the shared stores. Each method is one pass or one message
 of one pod; what the outside world answers, and the clock readings, are parameters.
 */
module Service {
  import opened Wrappers
  import opened Json
  import opened Model
  import opened Backoff
  import opened Aggregate
  import opened Text
  import opened Delivery
  import opened Fcm
  import opened Cache
  import opened Rows
  import opened Repository

  /** What the providers answer in one SendNotification call. */
  datatype Providers = Providers(
    emailOk: bool,
    smsRender: Option<Result<string, ()>>,
    smsOk: bool,
    fcmConfigured: bool,
    tokenReplies: seq<Result<BatchResponse, ()>>,
    topicReplies: seq<bool>,
    mailboxConfigured: bool,
    mailboxOk: bool)

  /** Enough answers for every multicast or topic send the request can cause. */
  predicate EnoughReplies(p: Providers, req: Request) {
    |p.tokenReplies| >= |Batches(NonBlank(req.recipients))| && |p.topicReplies| >= |NonBlank(req.recipients)|
  }

  /** The providers' part in a send that SendNotification does not refuse. */
  predicate Accepts(p: Providers, req: Request)
    requires EnoughReplies(p, req)
  {
    if req.channel == CHANNEL_EMAIL then p.emailOk
    else if req.channel == CHANNEL_SMS then
      && p.smsOk
      && if HasSmsTemplate(req.kind) && p.smsRender.Some? then p.smsRender.value.Ok? && p.smsRender.value.value != ""
         else req.message != ""
    else if req.channel == CHANNEL_PUSH then p.fcmConfigured && PushAccepts(p, req)
    else p.mailboxConfigured && p.mailboxOk
  }

  /** Firebase took at least one delivery, and no multicast call failed. */
  predicate PushAccepts(p: Providers, req: Request)
    requires EnoughReplies(p, req)
  {
    var filtered := NonBlank(req.recipients);
    if req.kind == TYPE_MESSAGING_GROUP then exists k :: 0 <= k < |filtered| && p.topicReplies[k]
    else
      var n := |Batches(filtered)|;
      (forall k :: 0 <= k < n ==> p.tokenReplies[k].Ok?) && SumSuccess(p.tokenReplies[..n]) != 0
  }

  /** SendNotification returns nil. */
  predicate DeliveredBy(p: Providers, req: Request, rowExists: bool)
    requires EnoughReplies(p, req)
  {
    !Refused(req, rowExists) && Accepts(p, req)
  }

  lemma PushDelivered(p: Providers, req: Request)
    requires req.channel == CHANNEL_PUSH && EnoughReplies(p, req)
    ensures forall rowExists ::
              DeliveredBy(p, req, rowExists) <==>
              && p.fcmConfigured && NonBlank(req.recipients) != [] && (req.title != "" || req.message != "")
              && PushAccepts(p, req)
    ensures req.kind != TYPE_MESSAGING_GROUP && PushAccepts(p, req) ==>
              var n := |Batches(NonBlank(req.recipients))|;
              exists k :: 0 <= k < n && p.tokenReplies[k].Ok? && p.tokenReplies[k].value.successCount != 0
  {
    hide NonBlank, Batches;
    if req.kind != TYPE_MESSAGING_GROUP && PushAccepts(p, req) {
      SomeSuccess(p.tokenReplies[..|Batches(NonBlank(req.recipients))|]);
    }
  }

  /** When a send is delivered, channel by channel, in terms of the request and the answers it met. */
  lemma DeliveredExactly(p: Providers, req: Request, rowExists: bool)
    requires EnoughReplies(p, req)
    ensures req.channel == "EMAIL" ==>
              (DeliveredBy(p, req, rowExists) <==>
               req.kind in {"WELCOME", "VERIFY_OTP", "FORGOT_PASSWORD", "RESET_PASSWORD"} && p.emailOk)
    ensures req.channel == "SMS" ==>
              (DeliveredBy(p, req, rowExists) <==>
               && req.kind != "MESSAGING_GROUP" && p.smsOk
               && if req.kind == "VERIFY_OTP" && p.smsRender.Some?
                  then p.smsRender.value.Ok? && p.smsRender.value.value != ""
                  else req.message != "")
    ensures req.channel == "PUSH" && req.kind == "MESSAGING_GROUP" ==>
              (DeliveredBy(p, req, rowExists) <==>
               && p.fcmConfigured && (req.title != "" || req.message != "")
               && exists k :: 0 <= k < |NonBlank(req.recipients)| && p.topicReplies[k])
    ensures req.channel == "PUSH" && req.kind != "MESSAGING_GROUP" ==>
              var n := |Batches(NonBlank(req.recipients))|;
              (forall k :: 0 <= k < n && p.tokenReplies[k].Ok? ==> p.tokenReplies[k].value.successCount >= 0) ==>
                (DeliveredBy(p, req, rowExists) <==>
                 && p.fcmConfigured && (req.title != "" || req.message != "")
                 && (forall k :: 0 <= k < n ==> p.tokenReplies[k].Ok?)
                 && exists k :: 0 <= k < n && p.tokenReplies[k].Ok? && p.tokenReplies[k].value.successCount > 0)
    ensures req.channel == "IN_APP" ==>
              (DeliveredBy(p, req, rowExists) <==>
               && req.kind != "MESSAGING_GROUP" && req.notificationID != "" && rowExists
               && NonBlank(req.recipients) != [] && p.mailboxConfigured && p.mailboxOk
               && |req.title| <= 255 && forall user | user in NonBlank(req.recipients) :: |user| <= 36)
    ensures req.channel !in {"EMAIL", "SMS", "PUSH", "IN_APP"} ==> !DeliveredBy(p, req, rowExists)
  {
    hide NonBlank, Batches, SumSuccess;
    if req.channel == CHANNEL_PUSH {
      PushDelivered(p, req);
      if req.kind != TYPE_MESSAGING_GROUP {
        TokensDelivered(p, req);
      }
    } else if req.channel == CHANNEL_IN_APP {
      InAppFits(req);
    }
  }

  lemma TokensDelivered(p: Providers, req: Request)
    requires EnoughReplies(p, req)
    requires req.kind != TYPE_MESSAGING_GROUP
    ensures var n := |Batches(NonBlank(req.recipients))|;
            (forall k :: 0 <= k < n && p.tokenReplies[k].Ok? ==> p.tokenReplies[k].value.successCount >= 0) ==>
              (PushAccepts(p, req) <==>
               && (forall k :: 0 <= k < n ==> p.tokenReplies[k].Ok?)
               && exists k :: 0 <= k < n && p.tokenReplies[k].Ok? && p.tokenReplies[k].value.successCount > 0)
    ensures Batches(NonBlank(req.recipients)) == [] <==> NonBlank(req.recipients) == []
  {
    hide NonBlank;
    var n := |Batches(NonBlank(req.recipients))|;
    var rs := p.tokenReplies[..n];
    assert forall k :: 0 <= k < n ==> rs[k] == p.tokenReplies[k];
    if forall k :: 0 <= k < n && p.tokenReplies[k].Ok? ==> p.tokenReplies[k].value.successCount >= 0 {
      NoSuccess(rs);
    }
    hide SumSuccess;
  }

  lemma InAppFits(req: Request)
    ensures NonBlank(req.recipients) != [] ==>
              (UsersFit(req) <==>
               |req.title| <= 255 && forall user | user in NonBlank(req.recipients) :: |user| <= 36)
  {
    hide NonBlank;
    var users := NonBlank(req.recipients);
    assert users != [] ==> users[0] in users;
  }

  /** The ids whose publication succeeded, in order. */
  function Kept(ids: seq<Id>, oks: seq<bool>): seq<Id>
    requires |ids| <= |oks|
  {
    if ids == [] then []
    else
      var n := |ids| - 1;
      Kept(ids[..n], oks) + (if oks[n] then [ids[n]] else [])
  }

  /** Of distinct ids, exactly those whose publication succeeded. */
  lemma {:induction false} KeptExactly(ids: seq<Id>, oks: seq<bool>)
    requires |ids| <= |oks| && DistinctIds(ids)
    ensures forall i :: 0 <= i < |ids| ==> (ids[i] in Kept(ids, oks) <==> oks[i])
    ensures forall id | id in Kept(ids, oks) :: id in ids
  {
    if ids != [] {
      KeptExactly(ids[..|ids| - 1], oks);
    }
  }

  /** And in their order: a kept id comes after as many as were kept before it. */
  lemma {:induction false} KeptAt(ids: seq<Id>, oks: seq<bool>, i: nat)
    requires i < |ids| <= |oks|
    ensures |Kept(ids[..i + 1], oks)| == |Kept(ids[..i], oks)| + (if oks[i] then 1 else 0)
    ensures Kept(ids[..i + 1], oks) <= Kept(ids, oks)
    ensures oks[i] ==> |Kept(ids[..i], oks)| < |Kept(ids, oks)| && Kept(ids, oks)[|Kept(ids[..i], oks)|] == ids[i]
    ensures Kept([], oks) == []
  {
    assert ids[..i + 1][..i] == ids[..i];
    if i + 1 < |ids| {
      var front := ids[..|ids| - 1];
      KeptAt(front, oks, i);
      assert front[..i] == ids[..i] && front[..i + 1] == ids[..i + 1];
    } else {
      assert ids[..i + 1] == ids;
    }
  }

  lemma AnswerDistinct(table: Table, locked: set<Id>, ids: seq<Id>, limit: int, now: Time)
    requires IsLockResult(table, locked, ids, limit, now)
    ensures DistinctIds(ids)
  {
  }

  predicate AllTrue(oks: seq<bool>, n: nat)
    requires n <= |oks|
  {
    forall i :: 0 <= i < n ==> oks[i]
  }

  /** What the outside world does with one due row of a scheduled pass. */
  datatype ScheduledStep = ScheduledStep(now: Time, reachable: bool, published: bool)

  /** One due row: skipped unless its lock is won, published unless its request cannot be marshalled. */
  function ScheduledRow(c: Config, keys: Keys, out: seq<Request>, row: Notification, e: ScheduledStep)
    : (Keys, seq<Request>)
  {
    var key := DedupKey(c, row.id);
    if !e.reachable || DedupTTL(c) < 0 || Live(keys, key, e.now) then (keys, out)
    else
      (keys[key := Expiry(e.now, DedupTTL(c))],
       if MarshalableParams(Rebuilt(row).params) && e.published then out + [Transit(Rebuilt(row), row.id)] else out)
  }

  /** The key store and the publications after the first n rows of a scheduled pass. */
  function ScheduledPass(c: Config, keys: Keys, found: seq<Notification>, env: seq<ScheduledStep>, n: nat)
    : (Keys, seq<Request>)
    requires n <= |found| <= |env|
  {
    if n == 0 then (keys, [])
    else
      var (ks, out) := ScheduledPass(c, keys, found, env, n - 1);
      ScheduledRow(c, ks, out, found[n - 1], env[n - 1])
  }

  /** The table after a consumer's write. */
  function Written(c: Config, rows: Table, id: Id, first: bool, ok: bool, sentAt: Time, at: Time): Table {
    if id !in rows then rows
    else if ok then rows[id := if first then FirstSuccess(rows[id], sentAt) else RetrySuccess(rows[id], sentAt)]
    else
      match FailureResult(c, rows[id], at)
      case None => rows
      case Some(row) => rows[id := row]
  }

  /**
   The table after a failure of id: that row has one attempt more, or the database refused the statement and
   nothing changed.
   */
  ghost predicate FailedOnce(c: Config, rows: Table, rows': Table, id: Id, at: Time)
    requires id in rows
  {
    var row := rows[id];
    if FailureResult(c, row, at).None? then rows' == rows
    else
      && id in rows' && rows' == rows[id := rows'[id]] && rows'[id] == FailureResult(c, row, at).value
      && rows'[id].attemptCount == row.attemptCount + 1
      && rows'[id].status == (if row.attemptCount + 1 >= row.maxAttempts then Failed else row.status)
      && rows'[id] == row.(attemptCount := rows'[id].attemptCount, status := rows'[id].status,
                           nextRetryAt := rows'[id].nextRetryAt)
  }

  lemma WrittenFailure(c: Config, rows: Table, id: Id, first: bool, sentAt: Time, at: Time)
    requires id in rows
    ensures FailedOnce(c, rows, Written(c, rows, id, first, false, sentAt, at), id, at)
  {
    hide SqlRetryAt, BackoffParams, RepoClamp;
  }

  /** FromModel on a fresh receiver. */
  method RequestOf(n: Notification) returns (req: Request)
    ensures req == Rebuilt(n)
  {
    var receiver := new SendNotificationReq();
    receiver.FromModel(Some(n));
    req := receiver.Value();
  }

  class NotificationSvc {
    const cfg: Config
    const repo: NotificationRepository
    const mailboxRepo: MailboxRepository
    const cache: AppCache
    const hasPublisher: bool
    const hasCache: bool
    var sendTopic: seq<Request>  // published to notifications.send, as the consumer will read them
    var retryTopic: seq<Id>      // published to notifications.retry

    constructor (cfg: Config, repo: NotificationRepository, mailboxRepo: MailboxRepository, cache: AppCache,
                 hasPublisher: bool, hasCache: bool)
      ensures this.cfg == cfg && this.repo == repo && this.mailboxRepo == mailboxRepo && this.cache == cache
      ensures this.hasPublisher == hasPublisher && this.hasCache == hasCache && sendTopic == [] && retryTopic == []
    {
      this.cfg, this.repo, this.mailboxRepo, this.cache := cfg, repo, mailboxRepo, cache;
      this.hasPublisher, this.hasCache := hasPublisher, hasCache;
      sendTopic, retryTopic := [], [];
    }

    /** Whether the insert of a request's row succeeds. */
    ghost predicate Creatable(req: Request, reachable: bool)
      reads repo
    {
      reachable && InInt4(cfg.maxAttempts)
      && forall k | k in repo.rows :: repo.rows[k].idempotencyKey != req.idempotencyKey
    }

    /** Creates the row of a valid request, then publishes it unless its time is still to come. */
    method EnqueueNotification(req: Request, id: Id, reachable: bool, now: Time, publishOk: bool)
      returns (r: Result<Id, ()>)
      requires id !in repo.rows
      modifies this`sendTopic, repo
      ensures repo.rows == if Validated(req) && old(Creatable(req, reachable)) then old(repo.rows)[id := NewRow(cfg, req, id)]
                           else old(repo.rows)
      ensures var created := Validated(req) && old(Creatable(req, reachable));
              var deferred := InFuture(req, now);
              var publishes := !deferred && hasPublisher && MarshalableParams(req.params) && publishOk;
              && sendTopic == old(sendTopic) + (if created && publishes then [Transit(req, id)] else [])
              && (r == Ok(id) <==> created && (deferred || publishes))
              && (r.Ok? ==> r.value == id)
      ensures id in repo.rows ==>
                var row := repo.rows[id];
                && row.channel == req.channel && row.kind == req.kind && row.title == req.title
                && row.message == req.message && row.recipients == req.recipients && row.status == Pending
                && row.scheduledAt == (if req.scheduledAt.Some? then req.scheduledAt.value else ZERO_TIME)
                && row.attemptCount == 0 && row.maxAttempts == (if cfg.maxAttempts == 0 then 3 else cfg.maxAttempts)
    {
      if !Validated(req) {
        return Err(());
      }
      var notification := ToModel(req);
      notification := notification.(params := MarshalParams(req.params));
      notification := notification.(maxAttempts := cfg.maxAttempts);
      var created := repo.Create(notification, id, reachable);
      if created.None? {
        return Err(());
      }
      if req.scheduledAt.Some? && req.scheduledAt.value > now {
        return Ok(id);
      }
      if !hasPublisher || !MarshalableParams(req.params) || !publishOk {
        return Err(());
      }
      sendTopic := sendTopic + [Transit(req, id)];
      return Ok(id);
    }

    method BackoffParams() returns (initialSec: int, maxSec: int)
      ensures (initialSec, maxSec) == Backoff.BackoffParams(cfg) && 1 <= initialSec <= maxSec
      ensures initialSec == if cfg.retryBackoffInitialSec > 0 then cfg.retryBackoffInitialSec else 30
      ensures 0 < cfg.retryBackoffInitialSec <= cfg.retryBackoffMaxSec ==> maxSec == cfg.retryBackoffMaxSec
      ensures 0 < cfg.retryBackoffMaxSec < initialSec ==> maxSec == initialSec
      ensures cfg.retryBackoffMaxSec <= 0 ==> maxSec == if initialSec <= 3600 then 3600 else initialSec
    {
      initialSec := cfg.retryBackoffInitialSec;
      if initialSec <= 0 {
        initialSec := 30;
      }
      maxSec := cfg.retryBackoffMaxSec;
      if maxSec <= 0 {
        maxSec := 3600;
      }
      if maxSec < initialSec {
        maxSec := initialSec;
      }
    }

    /** The send-queue consumer: sends whatever the row says by now, then writes the outcome. */
    method ProcessNotificationFromQueue(payload: Option<Request>, providers: Providers, now: Time, dbNow: Time,
                                        writeOk: bool)
      returns (ok: bool)
      requires payload.Some? ==> EnoughReplies(providers, payload.value)
      modifies repo, mailboxRepo
      ensures payload.None? ==> !ok && repo.rows == old(repo.rows) && mailboxRepo.rows == old(mailboxRepo.rows)
      ensures payload.Some? ==>
                var id := payload.value.notificationID;
                && ok == DeliveredBy(providers, payload.value, id in old(repo.rows))
                && mailboxRepo.rows == old(mailboxRepo.rows) + (if ok then MailboxesOf(payload.value) else [])
                && repo.rows == if writeOk then Written(cfg, old(repo.rows), id, true, ok, now, dbNow) else old(repo.rows)
      ensures payload.Some? && payload.value.notificationID in old(repo.rows) && writeOk && ok ==>
                var id := payload.value.notificationID;
                var done := old(repo.rows)[id].(status := Completed, sentAt := now, attemptCount := 1);
                repo.rows == old(repo.rows)[id := done]
      ensures payload.Some? && payload.value.notificationID in old(repo.rows) && writeOk && !ok ==>
                FailedOnce(cfg, old(repo.rows), repo.rows, payload.value.notificationID, dbNow)
    {
      if payload.None? {
        return false;
      }
      var id := payload.value.notificationID;
      ok := SendNotification(payload.value, providers);
      if !ok {
        var initial, max := BackoffParams();
        var _ := repo.RecordSendFailure(id, initial, max, dbNow, writeOk);
        if id in old(repo.rows) {
          WrittenFailure(cfg, old(repo.rows), id, true, now, dbNow);
        }
        return;
      }
      var _ := repo.MarkCompleted(id, now, Some(1), writeOk);
    }

    /** The retry consumer: loads the row, sends only a pending row below its limit, then writes the outcome. */
    method ProcessNotificationRetryFromQueue(id: Id, readOk: bool, providers: Providers, now: Time, dbNow: Time,
                                             writeOk: bool)
      returns (sent: Option<bool>)
      requires id in repo.rows ==> EnoughReplies(providers, Rebuilt(repo.rows[id]))
      requires id in repo.rows ==> repo.rows[id].id == id
      modifies repo, mailboxRepo
      ensures sent.Some? <==>
              && id != "" && readOk && id in old(repo.rows)
              && old(repo.rows)[id].status == Pending
              && 1 <= old(repo.rows)[id].attemptCount < old(repo.rows)[id].maxAttempts
      ensures sent.None? ==> repo.rows == old(repo.rows) && mailboxRepo.rows == old(mailboxRepo.rows)
      ensures sent.Some? ==>
                var req := Rebuilt(old(repo.rows)[id]);
                && sent.value == DeliveredBy(providers, req, true)
                && mailboxRepo.rows == old(mailboxRepo.rows) + (if sent.value then MailboxesOf(req) else [])
                && repo.rows ==
                   if writeOk then Written(cfg, old(repo.rows), id, false, sent.value, now, dbNow) else old(repo.rows)
      ensures sent == Some(true) && writeOk ==>
                repo.rows == old(repo.rows)[id := old(repo.rows)[id].(status := Completed, sentAt := now)]
      ensures sent == Some(false) && writeOk ==> FailedOnce(cfg, old(repo.rows), repo.rows, id, dbNow)
    {
      if id == "" || !readOk || id !in repo.rows {
        return None;
      }
      var n := repo.rows[id];
      if n.status != Pending {
        return None;
      }
      if n.attemptCount < 1 || n.attemptCount >= n.maxAttempts {
        return None;
      }
      var req := RequestOf(n);
      var initial, max := BackoffParams();
      var ok := SendNotification(req, providers);
      if !ok {
        var _ := repo.RecordSendFailure(n.id, initial, max, dbNow, writeOk);
        WrittenFailure(cfg, old(repo.rows), id, false, now, dbNow);
        return Some(false);
      }
      var _ := repo.MarkCompleted(n.id, now, None, writeOk);
      return Some(true);
    }

    /**
     One scheduled pass over the rows the query answered. A row's own request is published exactly when Redis
     answers and takes the TTL, the row's key was free before the pass, its params can be marshalled and the broker
     takes it; its key is taken exactly when the first two hold. PublishedInOrder and PublishedEarliestFirst say
     in which order.
     */
    method EnqueueDueScheduledNotifications(batchSize: int, now: Time, answer: Result<seq<Notification>, ()>,
                                            env: seq<ScheduledStep>)
      returns (err: bool)
      requires cache.serviceName == cfg.serviceName
      requires answer.Ok? ==> |answer.value| <= |env|
      requires answer.Ok? && batchSize > 0 ==> IsFirstDue(repo.rows, answer.value, batchSize, now)
      modifies this`sendTopic, cache
      ensures batchSize <= 0 ==> !err
      ensures batchSize > 0 ==> (err <==> !hasPublisher || !hasCache || answer.Err?)
      ensures batchSize <= 0 || err ==> sendTopic == old(sendTopic) && cache.keys == old(cache.keys)
      ensures batchSize > 0 && !err ==>
                var (keys, out) := ScheduledPass(cfg, old(cache.keys), answer.value, env, |answer.value|);
                cache.keys == keys && sendTopic == old(sendTopic) + out
      ensures old(sendTopic) <= sendTopic
      ensures batchSize > 0 && !err ==> forall i :: 0 <= i < |answer.value| ==>
                var row, e := answer.value[i], env[i];
                Transit(Rebuilt(row), row.id) in sendTopic[|old(sendTopic)|..] <==>
                  && e.reachable && DedupTTL(cfg) >= 0 && !Live(old(cache.keys), DedupKey(cfg, row.id), e.now)
                  && MarshalableParams(Rebuilt(row).params) && e.published
      ensures batchSize > 0 && !err ==> forall i :: 0 <= i < |answer.value| ==>
                var row, e := answer.value[i], env[i];
                var key := DedupKey(cfg, row.id);
                if e.reachable && DedupTTL(cfg) >= 0 && !Live(old(cache.keys), key, e.now) then
                  key in cache.keys && cache.keys[key] == Expiry(e.now, DedupTTL(cfg))
                else
                  (key in cache.keys <==> key in old(cache.keys))
                  && (key in cache.keys ==> cache.keys[key] == old(cache.keys)[key])
    {
      if batchSize <= 0 {
        return false;
      }
      if !hasPublisher || !hasCache || answer.Err? {
        return true;
      }
      hide IsFirstDue, ScheduledRow, ScheduledPass, Transit, Rebuilt, MarshalableParams, Live, DedupKey, DedupTTL, Expiry;
      var rows := answer.value;
      ScheduledPassStart(cfg, cache.keys, rows, env);
      ghost var keys, sent := cache.keys, sendTopic;
      for i := 0 to |rows|
        invariant cache.keys == ScheduledPass(cfg, keys, rows, env, i).0
        invariant sendTopic == sent + ScheduledPass(cfg, keys, rows, env, i).1
      {
        ScheduledPassNext(cfg, keys, sent, rows, env, i);
        EnqueueScheduled(rows[i], env[i]);
      }
      AnswerIds(repo.rows, rows, batchSize, now);
      PassExactly(cfg, keys, rows, env, sent, sendTopic);
      return false;
    }

    /** The loop body of a scheduled pass: takes the row's lock, then publishes what FromModel rebuilds. */
    method EnqueueScheduled(n: Notification, e: ScheduledStep)
      requires cache.serviceName == cfg.serviceName
      modifies this`sendTopic, cache
      ensures (cache.keys, sendTopic) == ScheduledRow(cfg, old(cache.keys), old(sendTopic), n, e)
      ensures var key := DedupKey(cfg, n.id);
              var wins := e.reachable && DedupTTL(cfg) >= 0 && !Live(old(cache.keys), key, e.now);
              && cache.keys == (if wins then old(cache.keys)[key := Expiry(e.now, DedupTTL(cfg))] else old(cache.keys))
              && sendTopic == old(sendTopic) + if wins && MarshalableParams(Rebuilt(n).params) && e.published
                                               then [Transit(Rebuilt(n), n.id)] else []
    {
      var ok := cache.SetNX(SCHEDULED_ENQUEUE_DEDUP + n.id, DedupTTL(cfg), e.now, e.reachable);
      if ok.Err? {
        return;
      }
      if !ok.value {
        return;
      }
      var req := RequestOf(n);
      if !MarshalableParams(req.params) {
        return;
      }
      if !e.published {
        return;
      }
      sendTopic := sendTopic + [Transit(req, n.id)];
    }

    /**
     One retry claim pass. ids is what the locking query answered; a failed bump or commit rolls the
     transaction back, after which nothing is published.
     */
    method EnqueuePendingRetries(batchSize: int, now: Time, ids: Result<seq<Id>, ()>, ghost locked: set<Id>,
                                 bumpOk: seq<bool>, commitOk: bool, publishOk: seq<bool>)
      returns (err: bool)
      requires ids.Ok? ==> |ids.value| <= |bumpOk| && |ids.value| <= |publishOk|
      requires ids.Ok? && batchSize > 0 ==> IsLockResult(repo.rows, locked, ids.value, batchSize, now)
      modifies this`retryTopic, repo
      ensures batchSize <= 0 ==> !err
      ensures batchSize > 0 ==>
                (!err <==> && hasPublisher && ids.Ok? && AllTrue(bumpOk, |ids.value|) && commitOk
                           && (ids.value == [] || LeaseFits(cfg, now)))
      ensures batchSize <= 0 || err ==> repo.rows == old(repo.rows) && retryTopic == old(retryTopic)
      ensures batchSize > 0 && !err ==>
                && repo.rows == ClaimedTable(old(repo.rows), ids.value, now + PublishLease(cfg))
                && retryTopic == old(retryTopic) + Kept(ids.value, publishOk)
      ensures batchSize > 0 && !err ==>
                && repo.rows.Keys == old(repo.rows).Keys
                && (forall id | id in repo.rows ::
                      repo.rows[id] == if id in ids.value
                                       then old(repo.rows)[id].(nextRetryAt := Some(now + PublishLease(cfg)))
                                       else old(repo.rows)[id])
                && |old(retryTopic)| <= |retryTopic|
                && (forall i :: 0 <= i < |ids.value| ==>
                      (ids.value[i] in retryTopic[|old(retryTopic)|..] <==> publishOk[i]))
    {
      if batchSize <= 0 {
        return false;
      }
      if !hasPublisher || ids.Err? {
        return true;
      }
      var leaseUntil := now + PublishLease(cfg);
      var before := repo.rows;
      var found := seq(|ids.value|, i requires 0 <= i < |ids.value| && ids.value[i] in before => before[ids.value[i]]);
      for i := 0 to |found|
        invariant |found| == |ids.value|
        invariant repo.rows == ClaimedTable(before, ids.value[..i], leaseUntil)
        invariant AllTrue(bumpOk, i) && retryTopic == old(retryTopic) && (i > 0 ==> LeaseFits(cfg, now))
      {
        var bumpErr := repo.UpdateNextRetryAt(ids.value[i], leaseUntil, bumpOk[i]);
        if bumpErr {
          repo.rows := before;
          return true;
        }
        ClaimedNext(before, ids.value, i, leaseUntil);
        found := found[i := found[i].(nextRetryAt := Some(leaseUntil))];
      }
      if !commitOk {
        repo.rows := before;
        return true;
      }
      assert ids.value[..|found|] == ids.value;
      for i := 0 to |found|
        invariant |found| == |ids.value| && repo.rows == ClaimedTable(before, ids.value, leaseUntil)
        invariant retryTopic == old(retryTopic) + Kept(ids.value[..i], publishOk)
      {
        assert ids.value[..i + 1][..i] == ids.value[..i];
        if !publishOk[i] {
          continue;
        }
        retryTopic := retryTopic + [ids.value[i]];
      }
      AnswerDistinct(before, locked, ids.value, batchSize, now);
      KeptExactly(ids.value, publishOk);
      assert retryTopic[|old(retryTopic)|..] == Kept(ids.value, publishOk);
      return false;
    }

    method SendNotification(req: Request, p: Providers) returns (ok: bool)
      requires EnoughReplies(p, req)
      modifies mailboxRepo
      ensures ok == DeliveredBy(p, req, req.notificationID in repo.rows)
      ensures mailboxRepo.rows == old(mailboxRepo.rows) + (if ok then MailboxesOf(req) else [])
    {
      if req.channel == CHANNEL_EMAIL {
        ok := !(req.kind == TYPE_MESSAGING_GROUP) && HasEmailTemplate(req.kind) && p.emailOk;
      } else if req.channel == CHANNEL_SMS {
        ok := SendSMS(req, p);
      } else if req.channel == CHANNEL_PUSH {
        ok := SendPush(req, p);
      } else if req.channel == CHANNEL_IN_APP {
        ok := SendInApp(req, p);
      } else {
        ok := false;
      }
    }

    /** smsRender is None without a body renderer and Some(Err) when rendering fails. */
    method SendSMS(req: Request, p: Providers) returns (ok: bool)
      requires req.channel == CHANNEL_SMS && EnoughReplies(p, req)
      ensures forall rowExists :: ok == DeliveredBy(p, req, rowExists)
    {
      if req.kind == TYPE_MESSAGING_GROUP {
        return false;
      }
      var body := req.message;
      if HasSmsTemplate(req.kind) && p.smsRender.Some? {
        if p.smsRender.value.Err? {
          return false;
        }
        body := p.smsRender.value.value;
      }
      if body == "" {
        return false;
      }
      return p.smsOk;
    }

    /** Succeeds only with at least one delivery the library reported as a success. */
    method SendPush(req: Request, p: Providers) returns (ok: bool)
      requires req.channel == CHANNEL_PUSH && EnoughReplies(p, req)
      ensures forall rowExists :: ok == DeliveredBy(p, req, rowExists)
      ensures req.kind == TYPE_MESSAGING_GROUP ==>
                (ok <==> && p.fcmConfigured && (req.title != "" || req.message != "")
                         && exists k :: 0 <= k < |NonBlank(req.recipients)| && p.topicReplies[k])
      ensures req.kind != TYPE_MESSAGING_GROUP && ok ==>
                var n := |Batches(NonBlank(req.recipients))|;
                && (forall k :: 0 <= k < n ==> p.tokenReplies[k].Ok?)
                && exists k :: 0 <= k < n && p.tokenReplies[k].Ok? && p.tokenReplies[k].value.successCount != 0
    {
      hide NonBlank, Batches;
      PushDelivered(p, req);
      if !p.fcmConfigured {
        return false;
      }
      var msg := PushMessage(req.title, req.message, map[]);
      if req.kind == TYPE_MESSAGING_GROUP {
        var outcome, err := SendToTopics(req.recipients, msg, p.topicReplies);
        ok := err.None? && outcome.value.successCount != 0;
        SomeTaken(p.topicReplies, |NonBlank(req.recipients)|);
      } else {
        var outcome, err, _ := SendToTokens(req.recipients, msg, p.tokenReplies);
        ok := err.None? && outcome.value.successCount != 0;
      }
    }

    /** The dedup loop: one mailbox row per trimmed, non-blank recipient, in the order they first occur. */
    method CollectMailboxes(req: Request) returns (mailboxes: seq<Mailbox>)
      ensures mailboxes == MailboxesFor(req, InAppUsers(req.recipients))
      ensures forall m | m in mailboxes ::
                m.title == req.title && m.message == req.message && m.notificationID == req.notificationID
    {
      hide InAppUsers, MailboxesFor;
      var seen: set<string> := {};
      mailboxes := [];
      InAppNone(req, req.recipients);
      for i := 0 to |req.recipients|
        invariant mailboxes == MailboxesFor(req, InAppUsers(req.recipients[..i]))
        invariant forall u :: u in seen <==> u in InAppUsers(req.recipients[..i])
        invariant forall m | m in mailboxes ::
                    m.title == req.title && m.message == req.message && m.notificationID == req.notificationID
      {
        InAppNext(req.recipients, i);
        var userID := TrimSpace(req.recipients[i]);
        if userID == "" {
          continue;
        }
        if userID in seen {
          continue;
        }
        seen := seen + {userID};
        mailboxes := mailboxes + [Mailbox(req.title, req.message, req.notificationID, userID)];
        MailboxesNext(req, InAppUsers(req.recipients[..i]), userID);
      }
      assert req.recipients[..|req.recipients|] == req.recipients;
    }

    /** Creates the collected mailbox rows, all or none. */
    method SendInApp(req: Request, p: Providers) returns (ok: bool)
      requires req.channel == CHANNEL_IN_APP && EnoughReplies(p, req)
      modifies mailboxRepo
      ensures ok == DeliveredBy(p, req, req.notificationID in repo.rows)
      ensures mailboxRepo.rows == old(mailboxRepo.rows) + (if ok then MailboxesOf(req) else [])
      ensures forall m | m in mailboxRepo.rows[|old(mailboxRepo.rows)|..] ::
                m.title == req.title && m.message == req.message && m.notificationID == req.notificationID
    {
      hide InAppUsers, MailboxesFor, NonBlank, DeliveredBy, EnoughReplies, UsersFit, MailboxFits;
      InAppDelivered(p, req, req.notificationID in repo.rows);
      InAppUsersEmpty(req.recipients);
      if !p.mailboxConfigured || req.kind == TYPE_MESSAGING_GROUP || req.notificationID == "" {
        return false;
      }
      if |req.recipients| == 0 || req.notificationID !in repo.rows {
        return false;
      }
      var mailboxes := CollectMailboxes(req);
      if |mailboxes| == 0 {
        return false;
      }
      MailboxesFit(req);
      var err := mailboxRepo.BulkCreate(mailboxes, p.mailboxOk);
      return !err;
    }
  }

  /** How the dedup loop extends the list by one recipient. */
  lemma InAppNext(recipients: seq<string>, i: nat)
    requires i < |recipients|
    ensures var u := TrimSpace(recipients[i]);
            var before := InAppUsers(recipients[..i]);
            InAppUsers(recipients[..i + 1]) == if u == "" || u in before then before else before + [u]
  {
    var xs := NonBlank(recipients[..i]);
    var u := TrimSpace(recipients[i]);
    NonBlankNext(recipients, i);
    if u != "" {
      assert (xs + [u])[..|xs|] == xs;
    }
  }

  lemma InAppNone(req: Request, recipients: seq<string>)
    ensures InAppUsers(recipients[..0]) == [] && MailboxesFor(req, []) == []
  {
  }

  lemma MailboxesNext(req: Request, users: seq<string>, user: string)
    ensures MailboxesFor(req, users + [user]) == MailboxesFor(req, users) + [MailboxFor(req, user)]
  {
  }

  lemma NonBlankNext(recipients: seq<string>, i: nat)
    requires i < |recipients|
    ensures var u := TrimSpace(recipients[i]);
            var xs := NonBlank(recipients[..i]);
            NonBlank(recipients[..i + 1]) == if u == "" then xs else xs + [u]
  {
    assert recipients[..i + 1][..i] == recipients[..i];
  }

  lemma InAppUsersEmpty(recipients: seq<string>)
    ensures InAppUsers(recipients) == [] <==> NonBlank(recipients) == []
    ensures recipients == [] ==> NonBlank(recipients) == []
  {
    FirstOccurrencesSpec(NonBlank(recipients));
    if NonBlank(recipients) != [] {
      assert NonBlank(recipients)[0] in InAppUsers(recipients);
    }
  }

  lemma InAppDelivered(p: Providers, req: Request, rowExists: bool)
    requires req.channel == CHANNEL_IN_APP && EnoughReplies(p, req)
    ensures DeliveredBy(p, req, rowExists) <==>
            && req.kind != TYPE_MESSAGING_GROUP && req.notificationID != "" && rowExists
            && NonBlank(req.recipients) != [] && UsersFit(req) && p.mailboxConfigured && p.mailboxOk
  {
    hide NonBlank, UsersFit;
  }

  /** The collected rows fit exactly when those of all non-blank recipients do. */
  lemma MailboxesFit(req: Request)
    ensures UsersFit(req) <==> forall m | m in MailboxesFor(req, InAppUsers(req.recipients)) :: MailboxFits(m)
  {
    hide MailboxFits, NonBlank;
    var users := InAppUsers(req.recipients);
    FirstOccurrencesSpec(NonBlank(req.recipients));
    forall user | user in NonBlank(req.recipients) && !MailboxFits(MailboxFor(req, user))
      ensures exists m | m in MailboxesFor(req, users) :: !MailboxFits(m)
    {
      var i :| 0 <= i < |users| && users[i] == user;
      assert MailboxesFor(req, users)[i] == MailboxFor(req, user);
    }
  }

  lemma ClaimedNext(rows: Table, ids: seq<Id>, i: nat, until: Time)
    requires i < |ids|
    ensures ClaimedTable(ClaimedTable(rows, ids[..i], until), [ids[i]], until) == ClaimedTable(rows, ids[..i + 1], until)
  {
    assert ids[..i + 1] == ids[..i] + [ids[i]];
  }

  lemma ScheduledRowAppends(c: Config, keys: Keys, sent: seq<Request>, out: seq<Request>, row: Notification,
                            e: ScheduledStep)
    ensures var (ks, more) := ScheduledRow(c, keys, out, row, e);
            ScheduledRow(c, keys, sent + out, row, e) == (ks, sent + more)
  {
    assert sent + out + [Transit(Rebuilt(row), row.id)] == sent + (out + [Transit(Rebuilt(row), row.id)]);
  }

  lemma ScheduledPassStart(c: Config, keys: Keys, found: seq<Notification>, env: seq<ScheduledStep>)
    requires |found| <= |env|
    ensures ScheduledPass(c, keys, found, env, 0) == (keys, [])
  {
  }

  /** How a pass goes on by one row, with sent on the topic before it. */
  lemma ScheduledPassNext(c: Config, keys: Keys, sent: seq<Request>, found: seq<Notification>, env: seq<ScheduledStep>, n: nat)
    requires n < |found| <= |env|
    ensures var (ks, out) := ScheduledPass(c, keys, found, env, n);
            var (ks', out') := ScheduledPass(c, keys, found, env, n + 1);
            ScheduledRow(c, ks, sent + out, found[n], env[n]) == (ks', sent + out')
  {
    var (ks, out) := ScheduledPass(c, keys, found, env, n);
    ScheduledRowAppends(c, ks, sent, out, found[n], env[n]);
    hide ScheduledRow;
  }

  // ---- publications of a scheduled pass --------------------------------

  /** Redis gives the row's lock: it answers, takes the TTL, and the key is free. */
  predicate LockFree(c: Config, keys: Keys, row: Notification, e: ScheduledStep) {
    e.reachable && DedupTTL(c) >= 0 && !Live(keys, DedupKey(c, row.id), e.now)
  }

  /** And the row's request can be marshalled and is taken by the broker. */
  predicate Goes(c: Config, keys: Keys, row: Notification, e: ScheduledStep) {
    LockFree(c, keys, row, e) && MarshalableParams(Rebuilt(row).params) && e.published
  }

  lemma RowExactly(c: Config, keys: Keys, out: seq<Request>, row: Notification, e: ScheduledStep)
    ensures ScheduledRow(c, keys, out, row, e) ==
            (if LockFree(c, keys, row, e) then keys[DedupKey(c, row.id) := Expiry(e.now, DedupTTL(c))] else keys,
             if Goes(c, keys, row, e) then out + [Transit(Rebuilt(row), row.id)] else out)
  {
    hide Transit, Rebuilt, MarshalableParams, Live, DedupKey, DedupTTL, Expiry;
  }

  /** The keys of rows that come later in the pass are still as they were. */
  lemma {:induction false} LaterKeys(c: Config, keys: Keys, found: seq<Notification>, env: seq<ScheduledStep>, n: nat,
                                     id: Id)
    requires n <= |found| <= |env| && forall i :: 0 <= i < n ==> found[i].id != id
    ensures var ks := ScheduledPass(c, keys, found, env, n).0;
            var key := DedupKey(c, id);
            (key in ks <==> key in keys) && (key in ks ==> ks[key] == keys[key])
  {
    hide Transit, Rebuilt, MarshalableParams, Live, DedupKey, DedupTTL, Expiry, ScheduledRow;
    if n > 0 {
      LaterKeys(c, keys, found, env, n - 1, id);
      var (ks, out) := ScheduledPass(c, keys, found, env, n - 1);
      RowExactly(c, ks, out, found[n - 1], env[n - 1]);
      DedupKeyInjective(c, id, found[n - 1].id);
    }
  }

  lemma SameLock(c: Config, keys: Keys, ks: Keys, row: Notification, e: ScheduledStep)
    requires var key := DedupKey(c, row.id); (key in ks <==> key in keys) && (key in ks ==> ks[key] == keys[key])
    ensures LockFree(c, ks, row, e) == LockFree(c, keys, row, e) && Goes(c, ks, row, e) == Goes(c, keys, row, e)
  {
    hide DedupKey, DedupTTL, Rebuilt, MarshalableParams;
  }

  /** What the first n rows of a pass publish, row by row, and what it makes of their keys. */
  lemma {:induction false} PassUpTo(c: Config, keys: Keys, found: seq<Notification>, env: seq<ScheduledStep>, n: nat)
    requires n <= |found| <= |env| && DistinctIds(IdsOf(found))
    ensures var (ks, out) := ScheduledPass(c, keys, found, env, n);
            forall i :: 0 <= i < n ==>
              var row, e := found[i], env[i];
              var key := DedupKey(c, row.id);
              && (Transit(Rebuilt(row), row.id) in out <==> Goes(c, keys, row, e))
              && (if LockFree(c, keys, row, e) then key in ks && ks[key] == Expiry(e.now, DedupTTL(c))
                  else (key in ks <==> key in keys) && (key in ks ==> ks[key] == keys[key]))
    ensures forall r | r in ScheduledPass(c, keys, found, env, n).1 ::
              exists i :: 0 <= i < n && r.notificationID == found[i].id
  {
    hide Transit, Rebuilt, MarshalableParams, Live, DedupKey, DedupTTL, Expiry, ScheduledRow, Goes, LockFree;
    if n > 0 {
      PassUpTo(c, keys, found, env, n - 1);
      var (ks, out) := ScheduledPass(c, keys, found, env, n - 1);
      var row, e := found[n - 1], env[n - 1];
      RowExactly(c, ks, out, row, e);
      TransitId(row);
      forall i | 0 <= i < n - 1 ensures found[i].id != row.id {
        assert IdsOf(found)[i] != IdsOf(found)[n - 1];
      }
      LaterKeys(c, keys, found, env, n - 1, row.id);
      SameLock(c, keys, ks, row, e);
      forall i | 0 <= i < n - 1
        ensures DedupKey(c, found[i].id) != DedupKey(c, row.id)
        ensures Transit(Rebuilt(found[i]), found[i].id) != Transit(Rebuilt(row), row.id)
      {
        DedupKeyInjective(c, found[i].id, row.id);
        TransitId(found[i]);
      }
    }
  }

  lemma AnswerIds(table: Table, found: seq<Notification>, limit: int, now: Time)
    requires IsFirstDue(table, found, limit, now)
    ensures DistinctIds(IdsOf(found))
  {
  }

  /** The same of a whole pass, over the topic. */
  lemma PassExactly(c: Config, keys: Keys, found: seq<Notification>, env: seq<ScheduledStep>, sent: seq<Request>,
                    topic: seq<Request>)
    requires |found| <= |env| && DistinctIds(IdsOf(found))
    requires topic == sent + ScheduledPass(c, keys, found, env, |found|).1
    ensures forall i :: 0 <= i < |found| ==>
              var row, e := found[i], env[i];
              Transit(Rebuilt(row), row.id) in topic[|sent|..] <==>
                && e.reachable && DedupTTL(c) >= 0 && !Live(keys, DedupKey(c, row.id), e.now)
                && MarshalableParams(Rebuilt(row).params) && e.published
    ensures var ks := ScheduledPass(c, keys, found, env, |found|).0;
            forall i :: 0 <= i < |found| ==>
              var row, e := found[i], env[i];
              var key := DedupKey(c, row.id);
              if e.reachable && DedupTTL(c) >= 0 && !Live(keys, key, e.now) then
                key in ks && ks[key] == Expiry(e.now, DedupTTL(c))
              else
                (key in ks <==> key in keys) && (key in ks ==> ks[key] == keys[key])
  {
    hide Transit, Rebuilt, MarshalableParams, Live, DedupKey, DedupTTL, Expiry, ScheduledPass;
    PassUpTo(c, keys, found, env, |found|);
    assert topic[|sent|..] == ScheduledPass(c, keys, found, env, |found|).1;
  }

  predicate IsSubsequence(a: seq<Id>, b: seq<Id>) {
    if a == [] then true
    else if b == [] then false
    else
      (a[|a| - 1] == b[|b| - 1] && IsSubsequence(a[..|a| - 1], b[..|b| - 1])) || IsSubsequence(a, b[..|b| - 1])
  }

  function RequestIds(out: seq<Request>): (ids: seq<Id>)
    ensures |ids| == |out|
  {
    seq(|out|, i requires 0 <= i < |out| => out[i].notificationID)
  }

  /** A pass publishes a subsequence of the rows the query answered, so in scheduled_at order and each at most once. */
  lemma {:induction false} PublishedInOrder(c: Config, keys: Keys, found: seq<Notification>, env: seq<ScheduledStep>, n: nat)
    requires n <= |found| <= |env|
    ensures IsSubsequence(RequestIds(ScheduledPass(c, keys, found, env, n).1), IdsOf(found)[..n])
  {
    if n > 0 {
      PublishedInOrder(c, keys, found, env, n - 1);
      var before := ScheduledPass(c, keys, found, env, n - 1).1;
      var out := ScheduledPass(c, keys, found, env, n).1;
      assert IdsOf(found)[..n][..n - 1] == IdsOf(found)[..n - 1];
      if out != before {
        assert RequestIds(out)[..|before|] == RequestIds(before);
        assert RequestIds(out)[|before|] == IdsOf(found)[n - 1];
      }
    }
  }

  /** Where a publication of the first n rows comes from. */
  ghost predicate FromRow(table: Table, found: seq<Notification>, n: nat, req: Request)
    requires n <= |found|
  {
    exists k :: 0 <= k < n && found[k].id == req.notificationID && req.notificationID in table
                && table[req.notificationID] == found[k] && req == Transit(Rebuilt(found[k]), found[k].id)
  }

  /**
   On the query's answer: every publication carries a due row's own request, no row is published twice in
   a pass, and a row scheduled earlier is published earlier.
   */
  lemma {:induction false} PublishedEarliestFirst(c: Config, keys: Keys, table: Table, found: seq<Notification>, limit: int,
                                                  now: Time, env: seq<ScheduledStep>, n: nat)
    requires n <= |found| <= |env| && IsFirstDue(table, found, limit, now)
    ensures var out := ScheduledPass(c, keys, found, env, n).1;
            && |out| <= n
            && (forall i :: 0 <= i < |out| ==>
                  FromRow(table, found, n, out[i]) && DueScheduled(table[out[i].notificationID], now))
            && (forall i, j :: 0 <= i < j < |out| ==>
                  && out[i].notificationID != out[j].notificationID
                  && table[out[i].notificationID].scheduledAt <= table[out[j].notificationID].scheduledAt)
  {
    hide Transit, Rebuilt, DedupKey, Live, MarshalableParams, DueScheduled;
    if n > 0 {
      PublishedEarliestFirst(c, keys, table, found, limit, now, env, n - 1);
      var before := ScheduledPass(c, keys, found, env, n - 1).1;
      var out := ScheduledPass(c, keys, found, env, n).1;
      var row := found[n - 1];
      assert row in found && IdsOf(found)[n - 1] == row.id;
      forall i | 0 <= i < |before|
        ensures FromRow(table, found, n, before[i]) && before[i].notificationID != row.id
        ensures table[before[i].notificationID].scheduledAt <= row.scheduledAt
      {
        var k :| 0 <= k < n - 1 && found[k].id == before[i].notificationID
                 && table[before[i].notificationID] == found[k] && before[i] == Transit(Rebuilt(found[k]), found[k].id);
        assert IdsOf(found)[k] == found[k].id;
      }
      if out != before {
        TransitId(row);
        assert out == before + [Transit(Rebuilt(row), row.id)];
        assert FromRow(table, found, n, out[|before|]);
      }
    }
  }

  lemma TransitId(row: Notification)
    ensures Transit(Rebuilt(row), row.id).notificationID == row.id
  {
  }
}
