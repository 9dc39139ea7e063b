# breeze-apy core, modelled in Dafny

This project models the logic of the breeze-apy yield-fund dashboard that is not presentation. It covers five areas.

- **Capital breakdown.** Resolving the base asset, picking its token-balance entry, and splitting capital into principal, earned and idle, with the earning and idle percentages. Labelling the age of the last update.
- **Helpers.** Decimal scaling, number coercion and display helpers.
- **Form input.** Amount validation for the deposit and withdraw forms, and the form helpers: quick-fill amounts, `aria-describedby` joining and quick-fill labels.
- **Backend.** The two withdraw request handlers (`/api/withdraw` and `/api/withdraw/txn`), the SDK configuration, the lazily cached SDK client, and the env-provided default context.
- **Client state.** The dashboard page's decisions: what to do with cached data when the wallet account changes, which error wins, when the skeleton shows, and the manual-refresh guard. Also the reference-counted body scroll lock and the query-key structure that cache invalidation relies on.

Each source file is one module:

| module | source |
|---|---|
| `DashboardMetrics` | `src/lib/dashboardMetrics.ts` |
| `Utils` | `src/lib/utils.ts` |
| `AmountValidation` | `src/hooks/useAmountValidation.ts` |
| `FormUtils` | `src/lib/formUtils.ts` |
| `Breeze` | `src/lib/breeze.ts` |
| `WithdrawRoute` | `src/app/api/withdraw/route.ts` |
| `WithdrawTxnRoute` | `src/app/api/withdraw/txn/route.ts` |
| `Dashboard` | `src/app/page.tsx` |
| `BodyScrollLock` | `src/hooks/useBodyScrollLock.ts` |
| `Constants` | `src/constants.ts` |
| `ApiTypes` | the record shapes of `src/types/api.ts` |

Three support modules sit under these:

- `Wrappers` holds `Option` and `Result`.
- `Js` holds JavaScript numbers with NaN and the infinities, dynamically typed JSON values, and truthiness.
- `Text` holds `trim`, ASCII `toUpperCase`, comma removal, decimal rendering and `join`.

How the model stands in for things it cannot see:

- **Numbers.** Numbers are exact reals. `Js.JsNumber` keeps NaN and the infinities apart, so the guards on `Number.isFinite` and `Number.isNaN` are modelled exactly.
- **Parsing, formatting and time.** These are parameters of the functions that use them:
  - `Number.parseFloat` and `Number(...)` (`Js.NumberParser`);
  - `new Date(s).getTime()` (`string -> Option<int>`);
  - `toFixed(2)` and `toLocaleString`;
  - the clock reading `Date.now()`.
- **Environment.** `process.env` is a map from variable names to strings.
- **Upstream SDK.** The SDK's answer to a withdraw request is a parameter `createWithdraw: WithdrawParams -> SdkOutcome`. An outcome is a transaction string, a non-string value, a `BreezeApiError`, or another thrown value. Whether `getBreezeSdk()` threw is a parameter `SdkAvailability`. Each route result records the request handed to the SDK, if any, so "the SDK is never called" can be stated.
- **Mutable state.** State that the source updates in place is modelled as classes:
  - the `cachedSdk` slot (`Breeze.SdkCache`);
  - the page's ref, refresh flag and cache calls (`Dashboard.DashboardController`);
  - the scroll lock's module variables with the body's `overflow` (`BodyScrollLock.ScrollLock`);
  - the quick-fill closure (`FormUtils.QuickFillHandler`).

  Where the source has a pure counterpart (the scroll lock, the account-change decision, the SDK configuration, the quick-fill amount), a method's new state is stated through that function of the old state and the properties are proved about the function. `BeginRefresh` and `RefreshSettled` set the refresh flag and state it directly.

## Model

| member | source | states |
|---|---|---|
| DashboardMetrics.AssetCode | src/lib/dashboardMetrics.ts:19-24 | a non-blank asset string gives its trimmed upper-cased form; a missing or blank one gives "USDC"; the result is never blank |
| DashboardMetrics.AssetCodeIsIdempotent | src/lib/dashboardMetrics.ts:18-25 | resolving an already resolved code returns it unchanged |
| DashboardMetrics.UpperTrimmedIsFixed | src/lib/dashboardMetrics.ts:20-21 | a trimmed, upper-cased string is left unchanged by trimming and upper-casing again |
| DashboardMetrics.ResolveBaseAssetCode | src/lib/dashboardMetrics.ts:18-25 | the summary's `baseAsset` resolved as above, or "USDC" when there are no metrics |
| DashboardMetrics.FindFirst | src/lib/dashboardMetrics.ts:37-48 | None exactly when no entry has the USDC mint or a symbol or name equal to the target ignoring case; otherwise the entry at the first index that does |
| DashboardMetrics.FindBaseAssetTokenBalance | src/lib/dashboardMetrics.ts:27-49 | None for a missing or empty list; otherwise the first matching entry, with the target upper-cased |
| DashboardMetrics.PercentSplit | src/lib/dashboardMetrics.ts:84-87 | for non-negative earning and idle with a positive sum, each percentage is 100·part/sum, lies in [0,100], and the two add up to exactly 100 |
| DashboardMetrics.Allocate | src/lib/dashboardMetrics.ts:78-87 | earningTotal = max(principal+earned, 0) ≥ 0; idle = max(held − earningTotal, 0) ≥ 0; when the sum is 0 both percentages are 0, otherwise earningPercent·sum = 100·earningTotal and idlePercent·sum = 100·idle, both in [0,100], summing to 100 |
| DashboardMetrics.BuildCapitalBreakdown | src/lib/dashboardMetrics.ts:59-98 | with a yield balance, principal and earned are its funds and yield divided by 10^decimals of the entry; without one, the portfolio value and the summary's total yield (0 without metrics); held is the override, else the entry's normalised balance, else 0; totals and percentages (their values included) as `Allocate` |
| DashboardMetrics.CombinedIsLargerOfHeldAndEarning | src/lib/dashboardMetrics.ts:78-84 | earning plus idle equals the larger of the held balance and the earning total |
| DashboardMetrics.DefaultDecimalsIsUnused | src/lib/dashboardMetrics.ts:64-67 | the result never depends on `defaultDecimals` |
| DashboardMetrics.MissingBalanceFallsBackToMetrics | src/lib/dashboardMetrics.ts:70-83 | with no entry and nothing held, idle is 0 and earningTotal is max(portfolio + total yield, 0) |
| DashboardMetrics.AgeBucket | src/lib/dashboardMetrics.ts:110-127 | "just now" exactly for ages under 60 000 ms, future ones included; otherwise a minute, hour or day count n ≥ 1 with n·unit ≤ age < (n+1)·unit, minutes under 60 and hours under 24 |
| DashboardMetrics.PluralSuffix | src/lib/dashboardMetrics.ts:118-127 | a unit followed by the plural suffix and " ago" ends in "s ago" exactly when the count is not 1 |
| DashboardMetrics.AgeLabelPlural | src/lib/dashboardMetrics.ts:116-127 | every non-"just now" label ends in "s ago" exactly when its count is not 1 |
| DashboardMetrics.AgeLabelShowsCount | src/lib/dashboardMetrics.ts:116-127 | every non-"just now" label starts with "Updated " and then decimal digits that read back as the count |
| DashboardMetrics.FormatLastUpdatedLabel | src/lib/dashboardMetrics.ts:100-128 | None exactly for a missing, empty or unparsable timestamp; otherwise the label of the bucketed age `now − t`, "Updated just now" under a minute |
| Utils.ToNumber | src/lib/utils.ts:9-20 | a finite number gives itself, a string whose parse is finite gives that value, everything else 0 |
| Utils.NormaliseWithDecimals | src/lib/utils.ts:22-32 | 0 when the amount or the decimals is not finite; otherwise the r with r·10^decimals = amount |
| Utils.ToAtomicUnits | src/lib/utils.ts:75-77 | value·10^decimals with no rounding: the result divided by 10^decimals is the value |
| Utils.AtomicRoundTrip | src/lib/utils.ts:22-32 | normalising then converting back to atomic units returns the amount, and the other way round |
| Utils.NormaliseIdentities | src/lib/utils.ts:30-31 | decimals 0 return the amount and amount 0 returns 0 |
| Utils.SlicePublicKey | src/lib/utils.ts:65-73 | "" for a missing or empty key; otherwise the first min(4,n) characters, "...", and the last min(4,n) |
| Utils.SlicePublicKeyLength | src/lib/utils.ts:70-72 | a key of at least 8 characters gives 11 characters |
| Utils.FormatPercent | src/lib/utils.ts:57-63 | "-" exactly for a missing or NaN value; otherwise the result ends in "%" |
| Utils.FormatNumber | src/lib/utils.ts:34-37 | "0.00" for any value that is not finite |
| Text.Trim | src/lib/dashboardMetrics.ts:20-21 | `trim()`: a contiguous slice of the input with no whitespace at either end, and only whitespace removed |
| Text.TrimEmptyIffBlank | src/lib/dashboardMetrics.ts:20 | trimming gives "" exactly when every character is whitespace |
| Text.TrimOfTrimmed | src/app/api/withdraw/route.ts:43-45 | trimming is idempotent |
| Text.ToUpperFacts | src/lib/dashboardMetrics.ts:35-40 | upper-casing is idempotent, and a character is whitespace after it exactly when it was before |
| Text.RemoveCommas | src/hooks/useAmountValidation.ts:21 | `replace(/,/g, "")`: no comma remains, and every other character keeps its count |
| Text.RemoveCommasSingleton | src/hooks/useAmountValidation.ts:21 | a single character is kept unless it is a comma; with `RemoveCommasAppend` this fixes the result in order |
| Text.RemoveCommasWithoutCommas | src/hooks/useAmountValidation.ts:21 | a string without commas is unchanged |
| Text.RemoveCommasAppend | src/hooks/useAmountValidation.ts:21 | comma removal distributes over concatenation |
| Text.NatToStringRoundTrip | src/lib/dashboardMetrics.ts:118 | the decimal rendering of a count reads back as that count |
| Text.JoinLength | src/lib/formUtils.ts:30 | `join(sep)` has the total length of the parts plus one separator between each pair |
| Text.JoinSnoc | src/lib/formUtils.ts:30 | joining one more part appends the separator and the part |
| AmountValidation.NormaliseAmountInput | src/hooks/useAmountValidation.ts:21 | the input with its commas removed (`Text.RemoveCommas`), then trimmed (`Text.Trim`); no comma remains |
| AmountValidation.ParseAmount | src/hooks/useAmountValidation.ts:19-25 | NaN for "" and for a normalised input that is blank or "."; otherwise finite exactly when the parse of the normalised input is, and then equal to it |
| AmountValidation.UseAmountValidation | src/hooks/useAmountValidation.ts:12-65 | parsedAmount is `ParseAmount` of the input; empty amount gives NaN, not valid, no message; isPositive iff finite and > 0; exceedsBalance iff the check is on, a balance is given, the amount is positive and larger; isValid iff positive and not exceeding; the positive-amount message takes precedence over the balance message; the message is empty iff the amount is empty or valid |
| AmountValidation.AmountEqualToBalanceIsValid | src/hooks/useAmountValidation.ts:29-32 | an amount equal to the balance is valid |
| AmountValidation.NoCeilingMeansPositiveIsValid | src/hooks/useAmountValidation.ts:29-31 | without a balance or with the check off, valid iff positive |
| AmountValidation.PositiveParseIsAccepted | src/hooks/useAmountValidation.ts:19-47 | a non-empty input is positive exactly when its normalised text is neither "" nor "." and parses finite and > 0; such an amount not above the balance (or with no ceiling) is valid with no message; any other non-empty input gets the positive-amount message |
| AmountValidation.ThousandsSeparatorIsIgnored | src/hooks/useAmountValidation.ts:21 | a comma between two parts of the input does not change the normalised text, hence not the parsed amount |
| Js.Mul | src/lib/formUtils.ts:13 | `balance * percentage` is finite exactly when both factors are, and is then their product |
| FormUtils.NearestWhole | src/lib/formUtils.ts:17 | `toFixed`'s choice of n: the whole number within (y − 0.5, y + 0.5], the larger one on a tie |
| FormUtils.NearestWholeIsUnique | src/lib/formUtils.ts:17 | no other whole number meets that bound, so the choice is the only one |
| FormUtils.RoundToScaleIsNearest | src/lib/formUtils.ts:17 | the rounded value is a whole number of 1/scale units, within half a unit of x, and non-negative for x ≥ 0 |
| FormUtils.RoundToDecimalsIsNearest | src/lib/formUtils.ts:17 | `Number(x.toFixed(d))` is the nearest whole number of 10^-d units, within half a unit of x, and non-negative for x ≥ 0 |
| FormUtils.RoundingIsExactOnRepresentable | src/lib/formUtils.ts:17 | a value with at most d places is unchanged by the rounding |
| FormUtils.QuickFillAmount | src/lib/formUtils.ts:10-19 | an amount is set exactly when the balance and balance·percentage are finite and positive; it is that product rounded to `decimals` places |
| FormUtils.MaxFillsWholeBalance | src/lib/formUtils.ts:10-19 | "Max" fills in exactly a balance that has at most `decimals` places |
| FormUtils.QuickFillHandler.Apply | src/lib/formUtils.ts:10-20 | nothing is called when no amount is set; otherwise `setAmount` once with `QuickFillAmount`, then `onAmountChange` if given |
| FormUtils.TruthyIds | src/lib/formUtils.ts:29 | `filter(Boolean)`: only non-empty ids remain, and none remain exactly when every id is missing or empty |
| FormUtils.TruthyIdsSingleton | src/lib/formUtils.ts:29 | a single id is kept, as its string, exactly when it is truthy; with `TruthyIdsAppend` this fixes which ids remain and their order |
| FormUtils.TruthyIdsAppend | src/lib/formUtils.ts:29 | the filter keeps order: it distributes over concatenation |
| FormUtils.CreateAriaDescribedBy | src/lib/formUtils.ts:26-31 | undefined exactly when no id survives; otherwise the surviving ids joined by single spaces, never empty |
| FormUtils.CreateAriaDescribedBySnoc | src/lib/formUtils.ts:26-31 | one more id is appended after a space, starts the list, or changes nothing when falsy |
| FormUtils.QuickFillPercentagesAreAscending | src/lib/formUtils.ts:36 | the options are strictly ascending, in (0,1], ending at 1 |
| FormUtils.FormatQuickFillLabel | src/lib/formUtils.ts:41-43 | "Max" exactly for 1; otherwise `Math.round(p·100)` followed by "%" |
| FormUtils.QuickFillLabels | src/lib/formUtils.ts:36-43 | the four labels are "25%", "50%", "75%" and "Max" |
| Constants.MetricsByUser | src/constants.ts:5-8 | ["metrics", u]: two elements, the user second, with `metrics.all` as prefix |
| Constants.TokenBalancesByUser | src/constants.ts:9-12 | ["token-balances", u], with `tokenBalances.all` as prefix |
| Constants.FamiliesAreDisjoint | src/constants.ts:6-10 | the families never share a first element, so a prefix filter on one never matches the other |
| Constants.ByUserIsInjective | src/constants.ts:7-11 | different users get different keys in both families |
| Constants.StringAt | src/constants.ts:4-13 | on an array key, a string exactly at the positions below its length, namely that element |
| Constants.MatchesArrayKeyIffPrefix | src/constants.ts:4-13 | on array keys the cache's non-exact match is exactly "the filter is a prefix of the key" |
| Constants.TokenBalancesObjectIsNeverMatched | src/constants.ts:9-12 | the object `QUERY_KEYS.tokenBalances` has no property "0", so no non-empty filter, `tokenBalances.all` included, matches it |
| Constants.UsdcBaseAssetIsConsistent | src/constants.ts:15-22 | the USDC base asset has the USDC mint, symbol "USDC" and 6 decimals |
| Breeze.EnvGet | src/lib/breeze.ts:12-18 | reading a variable: present exactly when set, with its value |
| Breeze.ResolveConfig | src/lib/breeze.ts:11-30 | fails with the exact message when the key is unset or empty, or when a non-empty timeout converts to NaN; otherwise passes the key and base URL through, has no timeout exactly when the variable is unset or empty, and never a NaN one |
| Breeze.ResolveConfigSucceedsIff | src/lib/breeze.ts:12-23 | resolution succeeds exactly when the key is present and a present timeout is a number |
| Breeze.ResolveConfigReadsOnlyItsVariables | src/lib/breeze.ts:12-18 | only the three SDK variables affect the result |
| Breeze.SdkCache.GetBreezeSdk | src/lib/breeze.ts:32-45 | a cached client is returned unchanged without reading the environment; a failed resolution leaves the slot empty; otherwise a fresh client with the resolved settings is cached and returned |
| Breeze.SdkCache.GetBreezeSdkTwice | src/lib/breeze.ts:32-45 | after a successful call the next returns the same instance, whatever the environment; after a failed one the next retries the resolution |
| Breeze.FirstSet | src/lib/breeze.ts:58-60 | the value of the first listed variable that is set, None when none is |
| Breeze.GetDefaultBreezeContext | src/lib/breeze.ts:56-68 | userId and fundId are their variables; userKey is the first set of USER_KEY and USER_ID; payerKey the first set of PAYER_KEY, USER_KEY and USER_ID |
| Breeze.EmptyUserKeyShadowsUserId | src/lib/breeze.ts:58 | `??` keeps an empty BREEZE_USER_KEY, so the user key is "" even when BREEZE_USER_ID is set |
| Breeze.ContextKeysAreSetTogether | src/lib/breeze.ts:57-60 | a user key exists iff one of the user variables is set; then a payer key exists; without PAYER_KEY it equals the user key |
| WithdrawRoute.AcceptedAmount | src/app/api/withdraw/route.ts:27-30 | passes exactly a finite positive number, or a string whose parse is finite and positive; the value is that number |
| WithdrawRoute.CoerceAll | src/app/api/withdraw/route.ts:46 | a string is true iff it is "true"; anything else by truthiness |
| WithdrawRoute.StringFlagIsNotTruthiness | src/app/api/withdraw/route.ts:46 | any other non-empty string is truthy yet gives false |
| WithdrawRoute.PickKey | src/app/api/withdraw/route.ts:43-45 | the trimmed body value when non-blank, else the fallback unchanged |
| WithdrawRoute.PickKeyPresence | src/app/api/withdraw/route.ts:43-45 | the key is usable iff the body value is non-blank or the fallback non-empty; a body value has no surrounding whitespace |
| WithdrawRoute.MessageOr | src/app/api/withdraw/route.ts:82 | `m || default` on a message |
| WithdrawRoute.Dispatch | src/app/api/withdraw/route.ts:68-119 | SDK init failure gives 500 with its message; a string gives 200 with the metadata of the request; a non-string gives 502 with its message or the default; a `BreezeApiError` keeps its status unless missing or 0 (then 502); another error gives 500 with its message or "Unknown error"; a success body iff the SDK returned a string |
| WithdrawRoute.DispatchStatusClasses | src/app/api/withdraw/route.ts:78-119 | failures other than `BreezeApiError` are 5xx; a 200 with an error body can only be an API error carrying status 200 |
| WithdrawRoute.InvalidJson | src/app/api/withdraw/route.ts:14-25 | 400 "Invalid JSON payload", with the parser's message as details when it was an `Error` |
| WithdrawRoute.Validate | src/app/api/withdraw/route.ts:27-66 | checks amount, then fundId, then userKey, with the exact 400 messages; otherwise the request with the coerced amount and flag and the payer key dropped when empty |
| WithdrawRoute.Post | src/app/api/withdraw/route.ts:11-120 | bad JSON, then validation failures, answered without calling the SDK; otherwise the request is complete and the response is `Dispatch` of the SDK's outcome for it |
| WithdrawRoute.SdkSeesOnlyCompleteRequests | src/app/api/withdraw/route.ts:30-76 | the SDK is only called after every check passed, with a positive amount and non-empty keys |
| WithdrawRoute.AmountRejectionIgnoresContext | src/app/api/withdraw/route.ts:27-41 | a rejected amount gives the same 400 whatever the environment and the SDK |
| WithdrawRoute.SuccessEchoesRequest | src/app/api/withdraw/route.ts:89-99 | a success response is 200 and its metadata echoes exactly the request the SDK answered |
| WithdrawRoute.BodyKeysOverrideEnv | src/app/api/withdraw/route.ts:43-45 | non-blank body keys make the environment irrelevant |
| WithdrawTxnRoute.PostAsWritten | src/app/api/withdraw/txn/route.ts:42-44 | as written: bad JSON and bad amounts get their 400s; every other request throws reading `id` of the missing `fund` field |
| WithdrawTxnRoute.AsWrittenNeverCallsSdk | src/app/api/withdraw/txn/route.ts:42-81 | as written, no request ever reaches the SDK |
| WithdrawTxnRoute.AsWrittenRejectsConfiguredRequest | src/app/api/withdraw/txn/route.ts:42-44 | a concrete configured request that throws as written and reaches the SDK once corrected |
| WithdrawTxnRoute.UserKeyOf | src/app/api/withdraw/txn/route.ts:45 | the trimmed `userId`, absent without one; usable iff non-blank |
| WithdrawTxnRoute.Validate | src/app/api/withdraw/txn/route.ts:27-71 | amount, then the configured fund, then the user key from `userId`; the payer is the user |
| WithdrawTxnRoute.Post | src/app/api/withdraw/txn/route.ts:11-125 | as the plain route, with the request complete and its payer key equal to its user key |
| WithdrawTxnRoute.BodyFundAndEnvUserAreIgnored | src/app/api/withdraw/txn/route.ts:42-46 | body `fundId`/`userKey` and every variable but BREEZE_FUND_ID are ignored |
| WithdrawTxnRoute.MissingUserIdHasNoFallback | src/app/api/withdraw/txn/route.ts:45-71 | a missing or blank `userId` is refused with 400 even when the environment has a user key |
| WithdrawTxnRoute.EarlyRejectionsMatchPlainRoute | src/app/api/withdraw/txn/route.ts:14-40 | bad JSON and bad amounts get the same 400 responses as `/api/withdraw` |
| WithdrawTxnRoute.FundCheckPrecedesUserCheck | src/app/api/withdraw/txn/route.ts:51-71 | with no configured fund the fund error is reported, whatever the user |
| Dashboard.AccountChangeAction | src/app/page.tsx:41-49 | remove iff a present account goes to none; invalidate iff it changes to another present account; nothing otherwise |
| Dashboard.AccountChangeCases | src/app/page.tsx:41-49 | leaving a present account always clears or invalidates; no previous account, or the same one, does nothing |
| Dashboard.DashboardController.HandleWalletAccountChange | src/app/page.tsx:37-54 | performs the decided cache operation, at most one, and the ref then holds the next id |
| Dashboard.CacheActionMatchesFetching | src/app/page.tsx:41-74 | the remove is issued only when the queries have just been disabled; the invalidate only while they are enabled for the new account |
| Dashboard.DisconnectStopsAndClears | src/app/page.tsx:41-42 | a disconnect disables both queries and issues the remove |
| Dashboard.CacheActionsMissTokenBalancesAsWritten | src/app/page.tsx:41-48 | as written, a remove or invalidate reaches the previous account's metrics query but never the token-balances query, whose key is the same for every account |
| Dashboard.CacheActionsReachBothQueries | src/app/page.tsx:41-48 | with per-user token-balance keys, every remove or invalidate reaches both queries of the previous account, and a switched account gets new keys for both |
| Dashboard.NormaliseQueryError | src/app/page.tsx:84-96 | an `Error` is kept, a truthy non-`Error` becomes an error of its string, a falsy one none |
| Dashboard.CombinedError | src/app/page.tsx:98 | the metrics error, else the balances error; none iff neither |
| Dashboard.ShouldShowSkeleton | src/app/page.tsx:100-106 | never with an error; always while the wallet restores; otherwise iff some data is missing and something loads |
| Dashboard.RefreshIndicatorFacts | src/app/page.tsx:108-125 | the indicator is on during a manual refresh and during any load; with the manual refresh settled and both queries idle it is off |
| Dashboard.SkeletonFacts | src/app/page.tsx:100-125 | an error is never hidden by the skeleton; with both data sets, or nothing loading, it shows only while the wallet restores; outside restoration a skeleton implies the refresh indicator |
| Dashboard.DashboardController.BeginRefresh | src/app/page.tsx:108-113 | starts iff no refresh is in flight; the flag is then set |
| Dashboard.DashboardController.RefreshSettled | src/app/page.tsx:115-121 | after the refetches settle the flag is clear; the outcome is not an input, so success and failure end alike |
| Dashboard.DashboardController.DoubleRefresh | src/app/page.tsx:108-122 | a second request while one is in flight does not start; after settling a new one does |
| BodyScrollLock.Lock | src/hooks/useBodyScrollLock.ts:6-17 | adds one lock; the lock taken at 0 saves the overflow and sets "hidden", nested ones only count; preserves consistency |
| BodyScrollLock.Unlock | src/hooks/useBodyScrollLock.ts:19-34 | a no-op at 0; otherwise one fewer; the unlock reaching 0 restores the saved value (or "") and forgets it; preserves consistency |
| BodyScrollLock.LockThenUnlock | src/hooks/useBodyScrollLock.ts:6-34 | a lock then an unlock leave a consistent state as it was |
| BodyScrollLock.Locks | src/hooks/useBodyScrollLock.ts:16 | n locks add n and keep the state consistent |
| BodyScrollLock.Unlocks | src/hooks/useBodyScrollLock.ts:20-24 | n unlocks subtract n but never go below 0 |
| BodyScrollLock.LocksThenUnlocksRestore | src/hooks/useBodyScrollLock.ts:6-34 | n locks followed by n unlocks restore the state, original overflow included |
| BodyScrollLock.PartialUnlockKeepsHidden | src/hooks/useBodyScrollLock.ts:11-33 | while any nested lock is held the overflow is "hidden" |
| BodyScrollLock.EffectAndCleanup | src/hooks/useBodyScrollLock.ts:36-48 | an enabled effect and its cleanup cancel out; a disabled effect on an unlocked page changes nothing |
| BodyScrollLock.ScrollLock.LockBodyScroll | src/hooks/useBodyScrollLock.ts:6-17 | the new state is `Lock` of the old |
| BodyScrollLock.ScrollLock.UnlockBodyScroll | src/hooks/useBodyScrollLock.ts:19-34 | the new state is `Unlock` of the old |
| BodyScrollLock.ScrollLock.RunEffect | src/hooks/useBodyScrollLock.ts:36-48 | locks and registers the unlocking cleanup when enabled, unlocks otherwise |

## Findings

| source | as written | input that shows it | evidently intended | confidence | as-written member | corrected member |
|---|---|---|---|---|---|---|
| src/app/api/withdraw/txn/route.ts:42-44 | destructures `fund` from `getDefaultBreezeContext()`, whose result has no such field, then reads `defaultFund.id` outside the `try` block | body `{amount: 1, userId: "wallet"}` with BREEZE_FUND_ID="fund-1": the read of `id` on undefined throws and the request never reaches the SDK | the fund id is the configured BREEZE_FUND_ID, as the route's own error message says | high, not executed | WithdrawTxnRoute.PostAsWritten, WithdrawTxnRoute.AsWrittenRejectsConfiguredRequest | WithdrawTxnRoute.Post |
| src/hooks/useTokenBalances.ts:19 | keys the token-balances query by the object `QUERY_KEYS.tokenBalances` rather than by `tokenBalances.byUser(userId)`, while `removeDashboardData` and `invalidateDashboardData` filter by `tokenBalances.all` with `exact: false` | wallet A connected, then disconnected (or switched to wallet B): the filter's position 0 is looked up as property "0" of the object, which has none, so A's balances stay cached and are shown for B | the query is keyed per user like the metrics query, so the page's remove and invalidate reach it | medium, not executed (the match rule is the cache library's) | Dashboard.TokenBalancesQueryKeyAsWritten, Dashboard.CacheActionsMissTokenBalancesAsWritten | Dashboard.TokenBalancesQueryKey, Dashboard.CacheActionsReachBothQueries |

## Left out

- IEEE-754 arithmetic: numbers are exact reals. Float rounding is left out, including the "floating-point noise" in `idle`, as are overflow to Infinity and `10 ** d` underflowing to 0. The last of these is the `factor ? … : amount` branch of `normaliseWithDecimals`.
- Utils.NormaliseWithDecimals: decimals are taken to be whole numbers. A fractional decimals value is not modelled.
- Utils.FormatNumber: only the non-finite guard is stated. `toLocaleString`, and the `toFixed(2)` detour for values of at least 1e21, are abstract.
- Utils.FormatPercent: `toFixed(2)` is an abstract parameter. Only the "-" guard and the trailing "%" are stated.
- The digit grammar of `parseFloat`/`Number` is not modelled, including prefix parsing such as "12abc" → 12. Nor is the format `new Date` accepts. All of these are parameters.
- FormUtils.QuickFillHandler.Apply: `setAmount` receives the rounded number rather than its `toString()` text. Number-to-string rendering is not modelled, and neither is `toFixed`'s RangeError for more than 100 decimals.
- DashboardMetrics.BuildCapitalBreakdown: a NaN `heldBalanceOverride` cannot be expressed. A NaN passes `typeof … === "number"` in the source. Decimals of an entry are whole numbers.
- `Date.now()` is the parameter `now`; the React `useMemo`/`useEffect`/`useCallback` scheduling is not modelled. `useBodyScrollLock` is modelled as one run of its effect plus its cleanup.
- A body whose fields have the wrong JSON type is not modelled. For example, a numeric `fundId` makes `.trim` throw. So is a body that is not an object. The string fields of the payload are optional strings.
- The actual SDK, `BreezeApiError.response` and the upstream payloads are opaque. The `details` of an error body only record which kind of payload it carries.
- When the txn route as written throws, the framework's own error response is outside the model.
- The cache library behind `useRefetchData` is modelled only through its non-exact key match (`Constants.Matches`) and the page's decision (remove, invalidate, nothing). Which cached data is dropped or refetched, the `delay` re-run of the invalidate, and `refetchType: "active"` are not modelled.
- `console.error` in the refresh handler is not modelled, nor the stale-closure timing of `isManualRefresh` across renders.
- `prepareTransaction` is a foreign call (base64 decoding per section 4 of RFC 4648 and Solana transaction deserialisation). So is `cn` (clsx and tailwind-merge). Both are left out.
- `USDC_FUND` and `SOLANA_RPC_CLUSTER` in `src/constants.ts` read the environment at load time or are unused by the core. `USDC_MINT_ADDRESS` and `USDC_DECIMALS` are modelled although the file does not export them.
- Text.ToUpper and Text.Trim: upper-casing is ASCII only. Trimming uses the common whitespace characters rather than the full Unicode set.
- `toAtomicUnits` multiplies without rounding. `buildCapitalBreakdown` subtracts in plain arithmetic rather than fixed-point. Its `defaultDecimals` can never take effect, because a yield balance always comes with its entry's decimals (`DashboardMetrics.DefaultDecimalsIsUnused`).
