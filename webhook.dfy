/**
 * The TradingView webhook receiver: a shared-secret check, a payload-shape
 * check, the mapping of the alert's action to a signal type, and the
 * acknowledgement. It writes no state.
 */
module Webhook {
  import opened Json

  /** `process.env.TRADINGVIEW_WEBHOOK_SECRET || 'dev-secret'`. */
  function ConfiguredSecret(env: Option<string>): (secret: string)
    ensures secret != ""
    ensures env.Some? && env.value != "" ==> secret == env.value
    ensures env.None? || env.value == "" ==> secret == "dev-secret"
  {
    if env.Some? && env.value != "" then env.value else "dev-secret"
  }

  datatype Action = BuyAction | SellAction | CloseAction

  function ActionName(a: Action): string {
    match a
    case BuyAction => "buy"
    case SellAction => "sell"
    case CloseAction => "close"
  }

  function ParseAction(s: string): (r: Option<Action>)
    ensures r.Some? <==> s in ["buy", "sell", "close"]
    ensures r.Some? ==> ActionName(r.value) == s
  {
    if s == "buy" then Some(BuyAction)
    else if s == "sell" then Some(SellAction)
    else if s == "close" then Some(CloseAction)
    else None
  }

  /** The required part of a TradingView alert. */
  datatype Alert = Alert(ticker: string, action: Action, price: real)

  /** `validatePayload`: the type guard `body is TradingViewAlert`. */
  predicate ValidatePayload(body: Value): (ok: bool)
    // arrays get past the `typeof` test but have no such fields, so only objects pass
    ensures ok <==>
      body.JObject? &&
      "ticker" in body.fields && body.fields["ticker"].JString? &&
      "action" in body.fields && body.fields["action"].JString? &&
      body.fields["action"].s in ["buy", "sell", "close"] &&
      "price" in body.fields && body.fields["price"].JNumber?
  {
    // `!body || typeof body !== 'object'`: arrays pass this guard too
    Truthy(Some(body)) && (body.JObject? || body.JArray?) &&
    Field(body, "ticker").Some? && Field(body, "ticker").value.JString? &&
    Field(body, "action").Some? && Field(body, "action").value.JString? &&
    Field(body, "action").value.s in ["buy", "sell", "close"] &&
    Field(body, "price").Some? && Field(body, "price").value.JNumber?
  }

  /** The alert a valid payload describes, read after the type guard. */
  function Decode(body: Value): (r: Option<Alert>)
    ensures r.Some? <==> ValidatePayload(body)
    ensures r.Some? ==>
      body.JObject? &&
      body.fields["ticker"] == JString(r.value.ticker) &&
      body.fields["action"] == JString(ActionName(r.value.action)) &&
      body.fields["price"] == JNumber(r.value.price)
  {
    if !ValidatePayload(body) then None
    else
      var action := ParseAction(Field(body, "action").value.s);
      Some(Alert(Field(body, "ticker").value.s, action.value, Field(body, "price").value.n))
  }

  /** The smallest payload TradingView sends for `a`. */
  function Encode(a: Alert): Value {
    JObject(map[
      "ticker" := JString(a.ticker),
      "action" := JString(ActionName(a.action)),
      "price" := JNumber(a.price)])
  }

  lemma DecodeEncode(a: Alert)
    ensures ValidatePayload(Encode(a))
    ensures Decode(Encode(a)) == Some(a)
  {
  }

  /** Fields other than `ticker`, `action` and `price` never affect validation. */
  lemma OptionalFieldsIgnored(fields: map<string, Value>, key: string, v: Value)
    requires key !in {"ticker", "action", "price"}
    ensures ValidatePayload(JObject(fields[key := v])) == ValidatePayload(JObject(fields))
    ensures Decode(JObject(fields[key := v])) == Decode(JObject(fields))
  {
  }

  datatype SignalType = Buy | Sell

  function SignalName(t: SignalType): string {
    match t
    case Buy => "BUY"
    case Sell => "SELL"
  }

  /** `alert.action === 'buy' ? 'BUY' : 'SELL'`: `close` is folded into SELL. */
  function SignalOf(a: Action): (t: SignalType)
    ensures t == Buy <==> a == BuyAction
    ensures a == CloseAction ==> t == Sell
  {
    if a == BuyAction then Buy else Sell
  }

  /** The answer of POST. */
  datatype Reply =
    | Unauthorized                                               // 401
    | InvalidPayload                                             // 400
    | Accepted(signal: SignalType, ticker: string, message: string)  // 200, `received: true`
    | Failed                                                     // 500, the catch block

  function ReplyStatus(r: Reply): nat {
    match r
    case Unauthorized => 401
    case InvalidPayload => 400
    case Accepted(_, _, _) => 200
    case Failed => 500
  }

  /** The `received` flag of the acknowledgement. */
  predicate Received(r: Reply) {
    r.Accepted?
  }

  /** Either the `secret` query parameter or the `x-webhook-secret` header matches. */
  predicate Authorized(expected: string, secretParam: Option<string>, secretHeader: Option<string>) {
    secretParam == Some(expected) || secretHeader == Some(expected)
  }

  /** POST: secret first, then the body, then the action mapping. */
  function HandleAlert(expected: string, secretParam: Option<string>, secretHeader: Option<string>, body: Body): (r: Reply)
    ensures r == Unauthorized <==> !Authorized(expected, secretParam, secretHeader)
    ensures r == Failed <==> Authorized(expected, secretParam, secretHeader) && body.Malformed?
    ensures r == InvalidPayload <==>
      Authorized(expected, secretParam, secretHeader) && body.Parsed? && !ValidatePayload(body.value)
    ensures r.Accepted? ==>
      body.Parsed? && Decode(body.value).Some? &&
      var alert := Decode(body.value).value;
      r.ticker == alert.ticker && r.signal == SignalOf(alert.action) &&
      r.message == "Signal processed: " + SignalName(r.signal) + " " + alert.ticker
  {
    if !Authorized(expected, secretParam, secretHeader) then Unauthorized
    else match body
      case Malformed => Failed
      case Parsed(v) =>
        match Decode(v)
        case None => InvalidPayload
        case Some(alert) =>
          var signal := SignalOf(alert.action);
          Accepted(signal, alert.ticker, "Signal processed: " + SignalName(signal) + " " + alert.ticker)
  }

  /** The secret is checked before the body is looked at. */
  lemma SecretCheckedFirst(expected: string, secretParam: Option<string>, secretHeader: Option<string>, b1: Body, b2: Body)
    requires !Authorized(expected, secretParam, secretHeader)
    ensures HandleAlert(expected, secretParam, secretHeader, b1) == HandleAlert(expected, secretParam, secretHeader, b2)
    ensures ReplyStatus(HandleAlert(expected, secretParam, secretHeader, b1)) == 401
  {
  }

  /** A correct secret with a bad payload is a 400, never a 401. */
  lemma BadPayloadIsNotAuthFailure(expected: string, secretParam: Option<string>, secretHeader: Option<string>, v: Value)
    requires Authorized(expected, secretParam, secretHeader)
    requires !ValidatePayload(v)
    ensures ReplyStatus(HandleAlert(expected, secretParam, secretHeader, Parsed(v))) == 400
  {
  }

  /** An authorized, well-formed alert is acknowledged with the signal its action names. */
  lemma AlertAcknowledged(expected: string, secretParam: Option<string>, secretHeader: Option<string>, a: Alert)
    requires Authorized(expected, secretParam, secretHeader)
    ensures HandleAlert(expected, secretParam, secretHeader, Parsed(Encode(a))) ==
      Accepted(SignalOf(a.action), a.ticker, "Signal processed: " + SignalName(SignalOf(a.action)) + " " + a.ticker)
    ensures Received(HandleAlert(expected, secretParam, secretHeader, Parsed(Encode(a))))
  {
    DecodeEncode(a);
  }

  datatype Health = Health(success: bool, status: string, message: string)

  /** GET: the health check, independent of any input or state. */
  function HealthCheck(): (h: Health)
    ensures h.success && h.status == "ready"
  {
    Health(true, "ready", "TradingView webhook endpoint is active")
  }
}
