/** `POST /api/withdraw/txn` (src/app/api/withdraw/txn/route.ts): the same
    pipeline as `/api/withdraw`, except that the fund is always the
    configured one, the user key is the trimmed `userId` of the body with
    no fallback, and the payer is the user. */
module WithdrawTxnRoute {
  import opened Wrappers
  import opened Js
  import opened Text
  import opened ApiTypes
  import opened Breeze
  import opened WithdrawRoute

  /** What `POST` does: answer with a response, or let an exception escape
      the handler (the framework then answers on its own). */
  datatype TxnOutcome = Handled(result: RouteResult) | Unhandled(exception: string)

  const MISSING_FUND_FIELD: string := "TypeError: Cannot read properties of undefined (reading 'id')"

  /** The handler as written: it destructures a `fund` field that the
      default context does not have, so `defaultFund` is undefined and
      reading `defaultFund.id` throws, outside the `try` block, for every
      request that gets past the amount check. */
  function PostAsWritten(body: ParsedBody, env: Env, sdk: SdkAvailability,
                         createWithdraw: WithdrawParams -> SdkOutcome, parseFloat: NumberParser): (r: TxnOutcome)
    ensures body.Failure? ==> r == Handled(RouteResult(InvalidJson(body.error), None))
    ensures body.Success? && AcceptedAmount(body.value.amount, parseFloat).None? ==>
      r == Handled(RouteResult(BadRequest(AMOUNT_NOT_POSITIVE), None))
    ensures body.Success? && AcceptedAmount(body.value.amount, parseFloat).Some? ==> r == Unhandled(MISSING_FUND_FIELD)
  {
    if body.Failure? then Handled(RouteResult(InvalidJson(body.error), None))
    else if AcceptedAmount(body.value.amount, parseFloat).None? then
      Handled(RouteResult(BadRequest(AMOUNT_NOT_POSITIVE), None))
    else Unhandled(MISSING_FUND_FIELD)
  }

  /** As written, the SDK is never called, whatever the request and the
      configuration. */
  lemma AsWrittenNeverCallsSdk(body: ParsedBody, env: Env, sdk: SdkAvailability,
                               createWithdraw: WithdrawParams -> SdkOutcome, parseFloat: NumberParser)
    ensures var r := PostAsWritten(body, env, sdk, createWithdraw, parseFloat);
      r.Unhandled? || (r.result.sdkRequest.None? && r.result.response.status == 400)
  {
  }

  /** A concrete well-formed request with a configured fund: the handler as
      written throws, while the corrected handler sends it to the SDK. */
  lemma AsWrittenRejectsConfiguredRequest()
    ensures var body := TransactionRequestPayload(JNumber(Finite(1.0)), None, None, None, Some("wallet"), JUndefined);
            var env := map["BREEZE_FUND_ID" := "fund-1"];
            var create := (p: WithdrawParams) => TransactionString("tx");
            var parse := (s: string) => NaN;
      && PostAsWritten(Success(body), env, SdkAvailable, create, parse).Unhandled?
      && Post(Success(body), env, SdkAvailable, create, parse).sdkRequest
         == Some(WithdrawParams("fund-1", "wallet", 1.0, false, Some("wallet")))
  {
    var body := TransactionRequestPayload(JNumber(Finite(1.0)), None, None, None, Some("wallet"), JUndefined);
    var env := map["BREEZE_FUND_ID" := "fund-1"];
    assert GetDefaultBreezeContext(env).fundId == Some("fund-1");
    TrimOfTrimmed("wallet");
    assert Trim("wallet") == "wallet" by {
      assert !IsWhitespace("wallet"[0]) && !IsWhitespace("wallet"[5]);
    }
  }

  /** `body.userId?.trim()`: no fallback to the environment. */
  function UserKeyOf(userId: Option<string>): (r: Option<string>)
    ensures userId.None? ==> r.None?
    ensures userId.Some? ==> r == Some(Trim(userId.value))
    ensures Present(r) <==> userId.Some? && Trim(userId.value) != ""
  {
    if userId.Some? then Some(Trim(userId.value)) else None
  }

  /** The corrected checks: the fund is the configured `BREEZE_FUND_ID`,
      checked first; then the user key; the payer is the user. */
  function Validate(body: TransactionRequestPayload, env: Env, parseFloat: NumberParser): (r: Result<WithdrawParams, Response>)
    ensures AcceptedAmount(body.amount, parseFloat).None? ==> r == Failure(BadRequest(AMOUNT_NOT_POSITIVE))
    ensures AcceptedAmount(body.amount, parseFloat).Some? ==>
      var fundId := GetDefaultBreezeContext(env).fundId;
      var userKey := UserKeyOf(body.userId);
      && (!Present(fundId) ==> r == Failure(BadRequest(FUND_ID_REQUIRED)))
      && (Present(fundId) && !Present(userKey) ==> r == Failure(BadRequest(USER_KEY_REQUIRED)))
      && (Present(fundId) && Present(userKey) ==>
            r == Success(WithdrawParams(fundId.value, userKey.value, AcceptedAmount(body.amount, parseFloat).value,
                                        CoerceAll(body.all), userKey)))
  {
    var amountValue := AcceptedAmount(body.amount, parseFloat);
    if amountValue.None? then Failure(BadRequest(AMOUNT_NOT_POSITIVE))
    else
      var fundId := GetDefaultBreezeContext(env).fundId;
      var userKey := UserKeyOf(body.userId);
      var payerKey := userKey;
      var allFlag := CoerceAll(body.all);
      if !Present(fundId) then Failure(BadRequest(FUND_ID_REQUIRED))
      else if !Present(userKey) then Failure(BadRequest(USER_KEY_REQUIRED))
      else Success(WithdrawParams(fundId.value, userKey.value, amountValue.value, allFlag, payerKey))
  }

  /** `POST`, with the fund read from the configured default context. */
  function Post(body: ParsedBody, env: Env, sdk: SdkAvailability,
                createWithdraw: WithdrawParams -> SdkOutcome, parseFloat: NumberParser): (r: RouteResult)
    ensures body.Failure? ==> r == RouteResult(InvalidJson(body.error), None)
    ensures body.Success? && Validate(body.value, env, parseFloat).Failure? ==>
      r == RouteResult(Validate(body.value, env, parseFloat).error, None)
    ensures body.Success? && Validate(body.value, env, parseFloat).Success? ==>
      var p := Validate(body.value, env, parseFloat).value;
      && CompleteRequest(p)
      && p.payerKey == Some(p.userKey)
      && r.response == Dispatch(p, sdk, createWithdraw(p))
      && r.sdkRequest == (if sdk.SdkAvailable? then Some(p) else None)
  {
    if body.Failure? then RouteResult(InvalidJson(body.error), None)
    else
      var v := Validate(body.value, env, parseFloat);
      if v.Failure? then RouteResult(v.error, None)
      else
        var p := v.value;
        RouteResult(Dispatch(p, sdk, createWithdraw(p)), if sdk.SdkAvailable? then Some(p) else None)
  }

  /** Any `fundId` or `userKey` in the body, and every env variable but
      `BREEZE_FUND_ID`, is ignored. */
  lemma BodyFundAndEnvUserAreIgnored(body: TransactionRequestPayload, fundId: Option<string>, userKey: Option<string>,
                                     env1: Env, env2: Env, parseFloat: NumberParser)
    requires EnvGet(env1, "BREEZE_FUND_ID") == EnvGet(env2, "BREEZE_FUND_ID")
    ensures Validate(body, env1, parseFloat) == Validate(body.(fundId := fundId, userKey := userKey), env2, parseFloat)
  {
  }

  /** A missing or blank `userId` is refused even when the environment
      configures a user key. */
  lemma MissingUserIdHasNoFallback(body: TransactionRequestPayload, env: Env, parseFloat: NumberParser)
    requires AcceptedAmount(body.amount, parseFloat).Some?
    requires Present(EnvGet(env, "BREEZE_FUND_ID"))
    requires body.userId.None? || Trim(body.userId.value) == ""
    ensures Validate(body, env, parseFloat) == Failure(BadRequest(USER_KEY_REQUIRED))
  {
  }

  /** The early rejections (bad JSON, bad amount) are those of
      `/api/withdraw`, and with no fund configured the fund check is
      reported before the user check. */
  lemma EarlyRejectionsMatchPlainRoute(body: ParsedBody, env: Env, sdk: SdkAvailability,
                                       createWithdraw: WithdrawParams -> SdkOutcome, parseFloat: NumberParser)
    requires body.Failure? || AcceptedAmount(body.value.amount, parseFloat).None?
    ensures Post(body, env, sdk, createWithdraw, parseFloat) == WithdrawRoute.Post(body, env, sdk, createWithdraw, parseFloat)
    ensures Post(body, env, sdk, createWithdraw, parseFloat).response.status == 400
  {
  }

  lemma FundCheckPrecedesUserCheck(body: TransactionRequestPayload, env: Env, parseFloat: NumberParser)
    requires AcceptedAmount(body.amount, parseFloat).Some?
    requires !Present(EnvGet(env, "BREEZE_FUND_ID"))
    ensures Validate(body, env, parseFloat) == Failure(BadRequest(FUND_ID_REQUIRED))
  {
  }
}
