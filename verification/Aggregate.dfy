/** Requests, their conversion to and from stored rows, and what that makes of the three delivery paths. */
module Aggregate {
  import opened Wrappers
  import opened Json
  import opened Model

  /** SendNotificationReq as a value; None stands for a nil pointer or a nil map. */
  datatype Request = Request(
    idempotencyKey: string,
    source: string,
    channel: string,
    kind: string,
    title: string,
    message: string,
    recipients: seq<string>,
    params: Params,
    scheduledAt: Option<Time>,
    expiredAt: Option<Time>,
    notificationID: Id)

  predicate Between(n: nat, min: nat, max: nat) {
    min <= n <= max
  }

  predicate IsHex(ch: char) {
    '0' <= ch <= '9' || 'a' <= ch <= 'f'
  }

  /** Five groups of lower-case hex digits, 8-4-4-4-12. */
  predicate IsUuid(s: string) {
    |s| == 36 && forall i :: 0 <= i < 36 ==> if i in {8, 13, 18, 23} then s[i] == '-' else IsHex(s[i])
  }

  /** The validate tags of the request. */
  predicate Validated(req: Request) {
    && Between(|req.idempotencyKey|, 1, 255)
    && Between(|req.source|, 1, 255)
    && req.channel in {CHANNEL_EMAIL, CHANNEL_SMS, CHANNEL_PUSH, CHANNEL_IN_APP}
    && req.kind in {"WELCOME", "VERIFY_OTP", "FORGOT_PASSWORD", "RESET_PASSWORD", TYPE_MESSAGING_GROUP}
    && Between(|req.title|, 1, 255)
    && Between(|req.recipients|, 1, 50)
    && (req.notificationID == "" || IsUuid(req.notificationID))
  }

  const BLANK := Request("", "", "", "", "", "", [], None, None, None, "")

  function ChannelToProvider(channel: string): string {
    match channel
    case "EMAIL" => "RESEND"
    case "SMS" => "TWILIO"
    case "PUSH" => "FIREBASE"
    case "IN_APP" => "FIREBASE"
    case _ => ""
  }

  /** ToModel: params, id and max_attempts are filled in by the caller and the database. */
  function ToModel(req: Request): Notification {
    Notification(
      "", req.idempotencyKey, req.source, req.channel, req.kind, req.title, req.message, req.recipients,
      None, ChannelToProvider(req.channel),
      if req.expiredAt.Some? then req.expiredAt.value else ZERO_TIME,
      if req.scheduledAt.Some? then req.scheduledAt.value else ZERO_TIME,
      0, Pending, ZERO_TIME, 0, None)
  }

  /** The row EnqueueNotification creates: a params marshalling error leaves the column empty. */
  function NewRow(c: Config, req: Request, id: Id): Notification {
    ToModel(req).(id := id, params := MarshalParams(req.params), maxAttempts := RowMaxAttempts(c))
  }

  /** Each column of a created row holds what the request has under its name; the rest starts at its initial value. */
  lemma ColumnsByName(c: Config, req: Request, id: Id)
    ensures var row := NewRow(c, req, id);
            && row.id == id && row.idempotencyKey == req.idempotencyKey && row.source == req.source
            && row.channel == req.channel && row.kind == req.kind && row.title == req.title
            && row.message == req.message && row.recipients == req.recipients
            && (req.scheduledAt.Some? ==> row.scheduledAt == req.scheduledAt.value)
            && (req.expiredAt.Some? ==> row.expiredAt == req.expiredAt.value)
            && (req.scheduledAt.None? ==> row.scheduledAt == ZERO_TIME)
            && (req.expiredAt.None? ==> row.expiredAt == ZERO_TIME)
            && row.maxAttempts == (if c.maxAttempts == 0 then 3 else c.maxAttempts)
            && row.status == Pending && row.attemptCount == 0 && row.nextRetryAt.None? && row.sentAt == ZERO_TIME
    ensures var provider := NewRow(c, req, id).provider;
            && (req.channel == CHANNEL_EMAIL ==> provider == "RESEND")
            && (req.channel == CHANNEL_SMS ==> provider == "TWILIO")
            && (req.channel == CHANNEL_PUSH || req.channel == CHANNEL_IN_APP ==> provider == "FIREBASE")
  {
  }

  /** The reasons for which EnqueueNotification turns a request away. */
  lemma RefusedByTagsExactly(req: Request)
    ensures !Validated(req) <==>
            || req.idempotencyKey == "" || |req.idempotencyKey| > 255 || req.source == "" || |req.source| > 255
            || req.title == "" || |req.title| > 255 || req.recipients == [] || |req.recipients| > 50
            || (req.channel != "EMAIL" && req.channel != "SMS" && req.channel != "PUSH" && req.channel != "IN_APP")
            || (req.kind != "WELCOME" && req.kind != "VERIFY_OTP" && req.kind != "FORGOT_PASSWORD"
                && req.kind != "RESET_PASSWORD" && req.kind != "MESSAGING_GROUP")
            || (req.notificationID != "" && !IsUuid(req.notificationID))
  {
  }

  /** The row of a request that passes its tags fits its columns and names a provider. */
  lemma ValidRowFits(c: Config, req: Request, id: Id)
    requires Validated(req)
    ensures var row := NewRow(c, req, id);
            && 1 <= |row.idempotencyKey| <= 255 && 1 <= |row.source| <= 255 && 1 <= |row.title| <= 255
            && |row.channel| <= 255 && 1 <= |row.kind| <= 255 && 1 <= |row.provider| <= 255
            && 1 <= |row.recipients| <= 50
  {
  }

  function NilIfZero(t: Time): Option<Time> {
    if t == ZERO_TIME then None else Some(t)
  }

  /** An empty column leaves the receiver's params; one that is not a JSON object gives an empty map. */
  function ParamsFromColumn(current: Params, column: Option<Json>): Params {
    if column.None? then current
    else match UnmarshalParams(column.value) case Some(p) => p case None => Some(map[])
  }

  /** The request after FromModel on receiver req. */
  function RequestFromModel(req: Request, m: Notification): Request {
    Request(
      m.idempotencyKey, m.source, m.channel, m.kind, m.title, m.message, m.recipients,
      ParamsFromColumn(req.params, m.params),
      if m.scheduledAt != ZERO_TIME then Some(m.scheduledAt) else req.scheduledAt,
      if m.expiredAt != ZERO_TIME then Some(m.expiredAt) else req.expiredAt,
      m.id)
  }

  /** SendNotificationReq as the receiver FromModel writes to. */
  class SendNotificationReq {
    var idempotencyKey: string
    var source: string
    var channel: string
    var kind: string
    var title: string
    var message: string
    var recipients: seq<string>
    var params: Params
    var scheduledAt: Option<Time>
    var expiredAt: Option<Time>
    var notificationID: Id

    constructor ()
      ensures Value() == BLANK
    {
      idempotencyKey, source, channel, kind, title, message := "", "", "", "", "", "";
      recipients, params, scheduledAt, expiredAt, notificationID := [], None, None, None, "";
    }

    function Value(): Request
      reads this
    {
      Request(idempotencyKey, source, channel, kind, title, message, recipients, params, scheduledAt, expiredAt,
              notificationID)
    }

    method FromModel(m: Option<Notification>)
      modifies this
      ensures Value() == if m.None? then old(Value()) else RequestFromModel(old(Value()), m.value)
    {
      if m.None? {
        return;
      }
      hide ParamsFromColumn;
      var n := m.value;
      CopyParams(n.params);
      CopyTimes(n);
      idempotencyKey, source, channel, kind := n.idempotencyKey, n.source, n.channel, n.kind;
      notificationID, title, message, recipients := n.id, n.title, n.message, n.recipients;
    }

    method CopyParams(column: Option<Json>)
      modifies this
      ensures Value() == old(Value()).(params := ParamsFromColumn(old(params), column))
    {
      if column.Some? {
        var parsed := UnmarshalParams(column.value);
        params := if parsed.None? then Some(map[]) else parsed.value;
      }
    }

    method CopyTimes(n: Notification)
      modifies this
      ensures Value() == old(Value()).(
                expiredAt := if n.expiredAt != ZERO_TIME then Some(n.expiredAt) else old(expiredAt),
                scheduledAt := if n.scheduledAt != ZERO_TIME then Some(n.scheduledAt) else old(scheduledAt))
    {
      if n.expiredAt != ZERO_TIME {
        expiredAt := Some(n.expiredAt);
      }
      if n.scheduledAt != ZERO_TIME {
        scheduledAt := Some(n.scheduledAt);
      }
    }
  }

  /** EnqueueNotification's check: scheduled_at is set and after the clock. */
  predicate InFuture(req: Request, now: Time) {
    req.scheduledAt.Some? && req.scheduledAt.value > now
  }

  /** A request as the send-queue consumer sees it: one JSON trip, then the row id written in. */
  function Transit(req: Request, id: Id): Request {
    req.(params := NormParams(req.params), notificationID := id)
  }

  /** What SendNotification is given, without the two times it never reads. */
  function Delivered(req: Request): Request {
    req.(scheduledAt := None, expiredAt := None)
  }

  /** The request a row rebuilds. */
  function Rebuilt(row: Notification): Request {
    RequestFromModel(BLANK, row)
  }

  /** Storing a request and rebuilding it returns it, up to JSON normalisation, nil for zero times and the row id. */
  lemma RowRoundTrip(c: Config, req: Request, id: Id, row: Notification)
    requires SameBody(row, NewRow(c, req, id))
    ensures Rebuilt(row) == req.(
              params := if MarshalableParams(req.params) then NormParams(req.params) else None,
              scheduledAt := if req.scheduledAt.None? then None else NilIfZero(req.scheduledAt.value),
              expiredAt := if req.expiredAt.None? then None else NilIfZero(req.expiredAt.value),
              notificationID := id)
    ensures MarshalableParams(Rebuilt(row).params) && Transit(Rebuilt(row), id) == Rebuilt(row)
    ensures MarshalableParams(req.params) ==> ParamsSurvive(req.params, Rebuilt(row).params)
  {
    if MarshalableParams(req.params) {
      RoundTripParams(req.params);
      ParamsReadBack(req.params);
    }
    hide Survives;
  }

  /** The immediate, scheduled and retry paths hand SendNotification one and the same request. */
  lemma PathsAgree(c: Config, req: Request, id: Id, row: Notification)
    requires SameBody(row, NewRow(c, req, id)) && MarshalableParams(req.params)
    ensures Delivered(Transit(req, id)) == Delivered(Transit(Rebuilt(row), id)) == Delivered(Rebuilt(row))
    ensures forall sent | sent == Transit(req, id) || sent == Transit(Rebuilt(row), id) || sent == Rebuilt(row) ::
              && sent.notificationID == id && sent.channel == req.channel && sent.kind == req.kind
              && sent.title == req.title && sent.message == req.message && sent.recipients == req.recipients
              && sent.idempotencyKey == req.idempotencyKey && sent.source == req.source
              && sent.params == Rebuilt(row).params && ParamsSurvive(req.params, sent.params)
  {
    RowRoundTrip(c, req, id, row);
    hide ParamsSurvive;
  }
}
