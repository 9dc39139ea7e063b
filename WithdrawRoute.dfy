/** `POST /api/withdraw` (src/app/api/withdraw/route.ts): coerce the body,
    apply the env defaults, check the fields in a fixed order, then ask the
    SDK for a withdraw transaction and map its outcome to a response.
    The request coercions and the outcome mapping are shared with the
    `/api/withdraw/txn` variant. */
module WithdrawRoute {
  import opened Wrappers
  import opened Js
  import opened Text
  import opened ApiTypes
  import opened Breeze

  const INVALID_JSON: string := "Invalid JSON payload"
  const AMOUNT_NOT_POSITIVE: string := "Withdrawal amount must be a positive number"
  const FUND_ID_REQUIRED: string := "fundId is required. Provide it in the request body or configure BREEZE_FUND_ID."
  const USER_KEY_REQUIRED: string :=
    "userKey is required. Provide it in the request body or configure BREEZE_USER_KEY/BREEZE_USER_ID."
  const UNEXPECTED_RESPONSE: string := "Unexpected response from Breeze API"
  const UNKNOWN_ERROR: string := "Unknown error"

  /** The outcome of `request.json()`: the body, or the parse failure with
      the error's message when the thrown value is an `Error`. */
  type ParsedBody = Result<TransactionRequestPayload, Option<string>>

  /** The object passed to `createWithdrawTransaction`. */
  datatype WithdrawParams = WithdrawParams(
    fundId: string,
    userKey: string,
    amount: real,
    all: bool,
    payerKey: Option<string>)

  /** Whether `getBreezeSdk()` returned a client or threw. */
  datatype SdkAvailability = SdkAvailable | SdkInitFailed(message: string)

  /** What `createWithdrawTransaction` did: returned a string, returned
      some other value (with its `message` property, if any), threw a
      `BreezeApiError` (with its `status`, if any), or threw something else
      (with its message when it is an `Error`). */
  datatype SdkOutcome =
    | TransactionString(transaction: string)
    | NonStringResult(resultMessage: Option<string>)
    | ApiError(status: Option<int>, errorMessage: string)
    | OtherError(thrownMessage: Option<string>)

  /** The response, and the request handed to the SDK if it was called. */
  datatype RouteResult = RouteResult(response: Response, sdkRequest: Option<WithdrawParams>)

  /** `amountValue` when it passes the positivity check: a number is taken
      as is, a string is parsed, anything else never passes. */
  function AcceptedAmount(amount: JsValue, parseFloat: NumberParser): (r: Option<real>)
    ensures r.Some? <==>
      || (amount.JNumber? && amount.n.Finite? && amount.n.value > 0.0)
      || (amount.JString? && parseFloat(amount.s).Finite? && parseFloat(amount.s).value > 0.0)
    ensures r.Some? ==> r.value > 0.0
    ensures r.Some? && amount.JNumber? ==> r.value == amount.n.value
    ensures r.Some? && amount.JString? ==> parseFloat(amount.s) == Finite(r.value)
  {
    var amountValue := if amount.JString? then JNumber(parseFloat(amount.s)) else amount;
    if amountValue.JNumber? && amountValue.n.Finite? && amountValue.n.value > 0.0 then Some(amountValue.n.value)
    else None
  }

  /** `allFlag`: a string counts only when it is exactly "true"; any other
      value by its truthiness. */
  function CoerceAll(all: JsValue): (r: bool)
    ensures all.JString? ==> (r <==> all.s == "true")
    ensures !all.JString? ==> (r <==> Truthy(all))
  {
    if all.JString? then all.s == "true" else Truthy(all)
  }

  /** The string flag is not its truthiness: "false", "0" or "TRUE" are
      truthy strings yet give `all == false`. */
  lemma StringFlagIsNotTruthiness(s: string)
    requires s != "" && s != "true"
    ensures Truthy(JString(s)) && !CoerceAll(JString(s))
  {
  }

  /** `body.x?.trim() || fallback`: the trimmed body value unless it is
      missing or blank, in which case the fallback unchanged. */
  function PickKey(bodyValue: Option<string>, fallback: Option<string>): (r: Option<string>)
    ensures bodyValue.Some? && Trim(bodyValue.value) != "" ==> r == Some(Trim(bodyValue.value))
    ensures bodyValue.None? || Trim(bodyValue.value) == "" ==> r == fallback
  {
    if bodyValue.Some? && Trim(bodyValue.value) != "" then Some(Trim(bodyValue.value)) else fallback
  }

  /** A picked key is usable exactly when the body supplies a non-blank
      value or the fallback is non-empty; a body value never carries
      surrounding whitespace. */
  lemma PickKeyPresence(bodyValue: Option<string>, fallback: Option<string>)
    ensures Present(PickKey(bodyValue, fallback)) <==>
      (bodyValue.Some? && Trim(bodyValue.value) != "") || Present(fallback)
    ensures bodyValue.Some? && Trim(bodyValue.value) != "" ==>
      var k := PickKey(bodyValue, fallback).value;
      k != "" && !IsWhitespace(k[0]) && !IsWhitespace(k[|k| - 1])
  {
    if bodyValue.Some? {
      TrimEmptyIffBlank(bodyValue.value);
    }
  }

  /** `metadata` of the success response, built from the SDK request. */
  function MetadataOf(p: WithdrawParams): (m: TransactionMetadata)
    ensures m.fundId == p.fundId && m.userKey == p.userKey && m.payerKey == p.payerKey
    ensures m.amount == p.amount && m.all == p.all
  {
    TransactionMetadata(p.fundId, p.userKey, p.payerKey, p.amount, p.all)
  }

  /** `x || default` on an optional message. */
  function MessageOr(message: Option<string>, default: string): (r: string)
    ensures Present(message) ==> r == message.value
    ensures !Present(message) ==> r == default
  {
    if Present(message) then message.value else default
  }

  /** The `try` block: call the SDK with `params` and map what happens to
      a response. A `BreezeApiError` keeps its status unless the status is
      missing or 0, which become 502. */
  function Dispatch(params: WithdrawParams, sdk: SdkAvailability, outcome: SdkOutcome): (r: Response)
    ensures sdk.SdkInitFailed? ==> r == Response(500, ErrorBody(sdk.message, NoDetails))
    ensures r.body.SuccessBody? <==> sdk.SdkAvailable? && outcome.TransactionString?
    ensures sdk.SdkAvailable? && outcome.TransactionString? ==>
      r == Response(200, SuccessBody(outcome.transaction, MetadataOf(params)))
    ensures sdk.SdkAvailable? && outcome.NonStringResult? ==>
      r == Response(502, ErrorBody(MessageOr(outcome.resultMessage, UNEXPECTED_RESPONSE), UpstreamPayload))
    ensures sdk.SdkAvailable? && outcome.ApiError? ==>
      r.body == ErrorBody(outcome.errorMessage, UpstreamPayload)
      && r.status == (if outcome.status.None? || outcome.status.value == 0 then 502 else outcome.status.value)
    ensures sdk.SdkAvailable? && outcome.OtherError? ==>
      r == Response(500, ErrorBody(outcome.thrownMessage.GetOr(UNKNOWN_ERROR), NoDetails))
  {
    if sdk.SdkInitFailed? then Response(500, ErrorBody(sdk.message, NoDetails))
    else
      match outcome
      case TransactionString(t) => Response(200, SuccessBody(t, MetadataOf(params)))
      case NonStringResult(m) => Response(502, ErrorBody(MessageOr(m, UNEXPECTED_RESPONSE), UpstreamPayload))
      case ApiError(status, m) =>
        Response(if status.None? || status.value == 0 then 502 else status.value, ErrorBody(m, UpstreamPayload))
      case OtherError(m) => Response(500, ErrorBody(m.GetOr(UNKNOWN_ERROR), NoDetails))
  }

  /** Failures on the SDK side are server errors (5xx), except a
      `BreezeApiError`, which passes its own status through; a 200 with an
      error body can only come from such an error. */
  lemma DispatchStatusClasses(params: WithdrawParams, sdk: SdkAvailability, outcome: SdkOutcome)
    ensures var r := Dispatch(params, sdk, outcome);
      && (sdk.SdkInitFailed? || outcome.NonStringResult? || outcome.OtherError? ==> r.status >= 500)
      && (r.status == 200 && r.body.ErrorBody? ==> sdk.SdkAvailable? && outcome == ApiError(Some(200), r.body.error))
      && (sdk.SdkAvailable? && outcome.ApiError? && outcome.status.Some? && outcome.status.value != 0 ==>
            r.status == outcome.status.value)
  {
  }

  /** The response to a body `request.json()` could not parse. */
  function InvalidJson(parseError: Option<string>): (r: Response)
    ensures r.status == 400 && r.body.ErrorBody? && r.body.error == INVALID_JSON
    ensures parseError.Some? <==> r.body.details.ParseMessage?
    ensures parseError.Some? ==> r.body.details.message == parseError.value
  {
    Response(400, ErrorBody(INVALID_JSON, if parseError.Some? then ParseMessage(parseError.value) else NoDetails))
  }

  function BadRequest(error: string): Response {
    Response(400, ErrorBody(error, NoDetails))
  }

  /** The checks before the `try` block, in order: amount, fundId, userKey.
      The first that fails gives the 400 response; otherwise the request
      for the SDK, with an empty payer key dropped (`payerKey || undefined`). */
  function Validate(body: TransactionRequestPayload, env: Env, parseFloat: NumberParser): (r: Result<WithdrawParams, Response>)
    ensures AcceptedAmount(body.amount, parseFloat).None? ==> r == Failure(BadRequest(AMOUNT_NOT_POSITIVE))
    ensures AcceptedAmount(body.amount, parseFloat).Some? ==>
      var ctx := GetDefaultBreezeContext(env);
      var fundId := PickKey(body.fundId, ctx.fundId);
      var userKey := PickKey(body.userKey, ctx.userKey);
      var payerKey := PickKey(body.payerKey, ctx.payerKey);
      && (!Present(fundId) ==> r == Failure(BadRequest(FUND_ID_REQUIRED)))
      && (Present(fundId) && !Present(userKey) ==> r == Failure(BadRequest(USER_KEY_REQUIRED)))
      && (Present(fundId) && Present(userKey) ==>
            r == Success(WithdrawParams(fundId.value, userKey.value, AcceptedAmount(body.amount, parseFloat).value,
                                        CoerceAll(body.all), if Present(payerKey) then payerKey else None)))
  {
    var amountValue := AcceptedAmount(body.amount, parseFloat);
    if amountValue.None? then Failure(BadRequest(AMOUNT_NOT_POSITIVE))
    else
      var ctx := GetDefaultBreezeContext(env);
      var fundId := PickKey(body.fundId, ctx.fundId);
      var userKey := PickKey(body.userKey, ctx.userKey);
      var payerKey := PickKey(body.payerKey, ctx.payerKey);
      var allFlag := CoerceAll(body.all);
      if !Present(fundId) then Failure(BadRequest(FUND_ID_REQUIRED))
      else if !Present(userKey) then Failure(BadRequest(USER_KEY_REQUIRED))
      else Success(WithdrawParams(fundId.value, userKey.value, amountValue.value, allFlag,
                                  if Present(payerKey) then payerKey else None))
  }

  /** A request that passes the checks is complete: a positive amount,
      non-empty fund and user keys, and no empty payer key. */
  predicate CompleteRequest(p: WithdrawParams) {
    p.amount > 0.0 && p.fundId != "" && p.userKey != "" && (p.payerKey.Some? ==> p.payerKey.value != "")
  }

  /** `POST`. `createWithdraw` stands for the SDK's answer to a request. */
  function Post(body: ParsedBody, env: Env, sdk: SdkAvailability,
                createWithdraw: WithdrawParams -> SdkOutcome, parseFloat: NumberParser): (r: RouteResult)
    ensures body.Failure? ==> r == RouteResult(InvalidJson(body.error), None)
    ensures body.Success? && Validate(body.value, env, parseFloat).Failure? ==>
      r == RouteResult(Validate(body.value, env, parseFloat).error, None)
    ensures body.Success? && Validate(body.value, env, parseFloat).Success? ==>
      var p := Validate(body.value, env, parseFloat).value;
      && CompleteRequest(p)
      && r.response == Dispatch(p, sdk, createWithdraw(p))
      && r.sdkRequest == (if sdk.SdkAvailable? then Some(p) else None)
  {
    if body.Failure? then RouteResult(InvalidJson(body.error), None)
    else
      var v := Validate(body.value, env, parseFloat);
      if v.Failure? then RouteResult(v.error, None)
      else
        var p := v.value;
        var response := Dispatch(p, sdk, createWithdraw(p));
        RouteResult(response, if sdk.SdkAvailable? then Some(p) else None)
  }

  /** The SDK is only ever asked for a complete request, and only when the
      body parsed and every check passed. */
  lemma SdkSeesOnlyCompleteRequests(body: ParsedBody, env: Env, sdk: SdkAvailability,
                                   createWithdraw: WithdrawParams -> SdkOutcome, parseFloat: NumberParser)
    ensures var r := Post(body, env, sdk, createWithdraw, parseFloat);
      r.sdkRequest.Some? ==>
        && body.Success?
        && Validate(body.value, env, parseFloat) == Success(r.sdkRequest.value)
        && CompleteRequest(r.sdkRequest.value)
        && r.sdkRequest.value.amount == AcceptedAmount(body.value.amount, parseFloat).value
  {
  }

  /** A rejected amount is answered before the environment or the SDK is
      consulted: the response is the same whatever they are. */
  lemma AmountRejectionIgnoresContext(body: TransactionRequestPayload, env1: Env, env2: Env,
                                     sdk1: SdkAvailability, sdk2: SdkAvailability,
                                     create1: WithdrawParams -> SdkOutcome, create2: WithdrawParams -> SdkOutcome,
                                     parseFloat: NumberParser)
    requires AcceptedAmount(body.amount, parseFloat).None?
    ensures Post(Success(body), env1, sdk1, create1, parseFloat) == Post(Success(body), env2, sdk2, create2, parseFloat)
    ensures Post(Success(body), env1, sdk1, create1, parseFloat).response.status == 400
  {
  }

  /** A success response echoes exactly the request the SDK was given. */
  lemma SuccessEchoesRequest(body: ParsedBody, env: Env, sdk: SdkAvailability,
                             createWithdraw: WithdrawParams -> SdkOutcome, parseFloat: NumberParser)
    ensures var r := Post(body, env, sdk, createWithdraw, parseFloat);
      r.response.body.SuccessBody? ==>
        && r.response.status == 200
        && r.sdkRequest.Some?
        && createWithdraw(r.sdkRequest.value) == TransactionString(r.response.body.transaction)
        && r.response.body.metadata == MetadataOf(r.sdkRequest.value)
  {
  }

  /** Non-blank body keys override the environment entirely. */
  lemma BodyKeysOverrideEnv(body: TransactionRequestPayload, env1: Env, env2: Env, parseFloat: NumberParser)
    requires body.fundId.Some? && Trim(body.fundId.value) != ""
    requires body.userKey.Some? && Trim(body.userKey.value) != ""
    requires body.payerKey.Some? && Trim(body.payerKey.value) != ""
    ensures Validate(body, env1, parseFloat) == Validate(body, env2, parseFloat)
  {
  }
}
