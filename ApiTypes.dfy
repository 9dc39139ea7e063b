/** The record shapes exchanged between the backend routes and the
    dashboard (src/types/api.ts). Numbers the routes have already coerced
    are finite and held as exact reals. */
module ApiTypes {
  import opened Wrappers
  import opened Js

  /** `TransactionRequestPayload`, as the parsed JSON body of a withdraw
      request. The fields are dynamically typed where the routes test their
      type; `userId` is read by the txn route although the type omits it. */
  datatype TransactionRequestPayload = TransactionRequestPayload(
    amount: JsValue,
    fundId: Option<string>,
    userKey: Option<string>,
    payerKey: Option<string>,
    userId: Option<string>,
    all: JsValue)

  /** `TransactionMetadata`. */
  datatype TransactionMetadata = TransactionMetadata(
    fundId: string,
    userKey: string,
    payerKey: Option<string>,
    amount: real,
    all: bool)

  /** What the error body's `details` carries: nothing, the JSON parser's
      message, or the upstream payload (opaque here). */
  datatype Details = NoDetails | ParseMessage(message: string) | UpstreamPayload

  /** `TransactionErrorResponse` and `WithdrawSuccessResponse`. */
  datatype ResponseBody =
    | ErrorBody(error: string, details: Details)
    | SuccessBody(transaction: string, metadata: TransactionMetadata)

  /** A JSON response with its HTTP status. */
  datatype Response = Response(status: int, body: ResponseBody)

  /** `MetricsSummary`. */
  datatype MetricsSummary = MetricsSummary(
    currentApy: Option<real>,
    totalYieldEarned: real,
    totalPositionValue: real,
    totalPortfolioValue: real,
    lastUpdated: Option<string>,
    baseAsset: Option<string>)

  /** The `yieldBalance` of a balance entry. */
  datatype YieldBalance = YieldBalance(fundId: string, funds: real, amountOfYield: real, fundApy: real)

  /** `MetricsBalanceEntry` / `TokenBalanceEntry`; decimals are whole numbers. */
  datatype TokenBalanceEntry = TokenBalanceEntry(
    tokenAddress: string,
    tokenSymbol: string,
    tokenName: string,
    decimals: int,
    totalBalance: real,
    normalizedBalance: real,
    yieldBalance: Option<YieldBalance>)

  /** `MetricsSuccessResponse` without the raw upstream payloads. */
  datatype MetricsSuccessResponse = MetricsSuccessResponse(
    userId: string,
    fundId: Option<string>,
    summary: MetricsSummary,
    balances: seq<TokenBalanceEntry>)
}
