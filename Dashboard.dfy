/** The dashboard page's client-side decisions (src/app/page.tsx): what to
    do with cached data when the wallet account changes, which error to
    show, when to show the loading skeleton, and the manual-refresh guard. */
module Dashboard {
  import opened Wrappers
  import opened Js
  import opened Constants

  /** The cache operation the account-change handler performs. */
  datatype CacheAction = RemoveDashboardData | InvalidateDashboardData | NoAction

  /** The decision of `handleWalletAccountChange`: drop the cached data when
      the wallet disconnects, mark it stale when it switches to another
      account, and leave it alone otherwise. */
  function AccountChangeAction(previousUserId: Option<string>, nextUserId: Option<string>): (a: CacheAction)
    ensures a == RemoveDashboardData <==> Present(previousUserId) && !Present(nextUserId)
    ensures a == InvalidateDashboardData <==> Present(previousUserId) && Present(nextUserId) && nextUserId != previousUserId
  {
    if !Present(nextUserId) && Present(previousUserId) then RemoveDashboardData
    else if Present(nextUserId) && Present(previousUserId) && nextUserId != previousUserId then InvalidateDashboardData
    else NoAction
  }

  /** Whenever the account the data belonged to goes away, the data is
      either removed or invalidated; with no previous account, or the same
      one again, nothing happens. */
  lemma AccountChangeCases(previousUserId: Option<string>, nextUserId: Option<string>)
    ensures Present(previousUserId) && nextUserId != previousUserId ==>
      AccountChangeAction(previousUserId, nextUserId) != NoAction
    ensures !Present(previousUserId) ==> AccountChangeAction(previousUserId, nextUserId) == NoAction
    ensures AccountChangeAction(previousUserId, previousUserId) == NoAction
  {
  }

  /** `enabled: Boolean(userId)` of both queries. */
  predicate FetchEnabled(userId: Option<string>) {
    userId.Some? && userId.value != ""
  }

  /** The decision and the queries' `enabled` flag agree: the remove is
      issued only when the queries have just been switched off, the
      invalidate only while they are on for the new account. */
  lemma CacheActionMatchesFetching(previousUserId: Option<string>, nextUserId: Option<string>)
    ensures AccountChangeAction(previousUserId, nextUserId) == RemoveDashboardData ==> !FetchEnabled(nextUserId)
    ensures AccountChangeAction(previousUserId, nextUserId) == InvalidateDashboardData ==> FetchEnabled(nextUserId)
  {
  }

  /** A disconnect both disables the queries and issues the remove. */
  lemma DisconnectStopsAndClears(previousUserId: Option<string>)
    requires Present(previousUserId)
    ensures !FetchEnabled(None)
    ensures AccountChangeAction(previousUserId, None) == RemoveDashboardData
  {
  }

  /** The key `useMetrics` gives its query: per user when an id is
      present, the family key otherwise. */
  function MetricsQueryKey(userId: Option<string>): KeyValue {
    if Present(userId) then ArrayKey(MetricsByUser(userId.value)) else ArrayKey(METRICS_ALL)
  }

  /** The key `useTokenBalances` gives its query as written: the whole
      `QUERY_KEYS.tokenBalances` object, whatever the user. */
  function TokenBalancesQueryKeyAsWritten(userId: Option<string>): KeyValue {
    TOKEN_BALANCES_OBJECT
  }

  /** The key the token-balances query evidently should have, built like
      the metrics key: per user when an id is present. */
  function TokenBalancesQueryKey(userId: Option<string>): KeyValue {
    if Present(userId) then ArrayKey(TokenBalancesByUser(userId.value)) else ArrayKey(TOKEN_BALANCES_ALL)
  }

  /** Whether a cache action touches a query with this key: both of
      `useRefetchData`'s operations filter by the two family keys with
      `exact: false`. */
  predicate Reaches(action: CacheAction, key: KeyValue) {
    action != NoAction && (Matches(METRICS_ALL, key) || Matches(TOKEN_BALANCES_ALL, key))
  }

  /** As written, the remove and the invalidate reach the metrics query of
      the previous account but never the token-balances query, and that
      query's key does not change with the account: after a disconnect the
      balances stay cached, and after a switch the new account is shown the
      old account's balances. */
  lemma {:induction false} CacheActionsMissTokenBalancesAsWritten(previousUserId: Option<string>, nextUserId: Option<string>)
    ensures var a := AccountChangeAction(previousUserId, nextUserId);
      && (a != NoAction ==> Reaches(a, MetricsQueryKey(previousUserId)))
      && !Reaches(a, TokenBalancesQueryKeyAsWritten(previousUserId))
    ensures TokenBalancesQueryKeyAsWritten(previousUserId) == TokenBalancesQueryKeyAsWritten(nextUserId)
  {
    var a := AccountChangeAction(previousUserId, nextUserId);
    if a != NoAction {
      MatchesArrayKeyIffPrefix(METRICS_ALL, MetricsByUser(previousUserId.value));
    }
    TokenBalancesObjectIsNeverMatched(METRICS_ALL);
    TokenBalancesObjectIsNeverMatched(TOKEN_BALANCES_ALL);
  }

  /** With per-user token-balance keys, every remove or invalidate reaches
      both queries of the previous account, and a switch to another account
      reads fresh cache entries for both. */
  lemma {:induction false} CacheActionsReachBothQueries(previousUserId: Option<string>, nextUserId: Option<string>)
    ensures var a := AccountChangeAction(previousUserId, nextUserId);
      a != NoAction ==> Reaches(a, MetricsQueryKey(previousUserId)) && Reaches(a, TokenBalancesQueryKey(previousUserId))
    ensures Present(previousUserId) && Present(nextUserId) && previousUserId != nextUserId ==>
      && MetricsQueryKey(previousUserId) != MetricsQueryKey(nextUserId)
      && TokenBalancesQueryKey(previousUserId) != TokenBalancesQueryKey(nextUserId)
  {
    var a := AccountChangeAction(previousUserId, nextUserId);
    if a != NoAction {
      MatchesArrayKeyIffPrefix(METRICS_ALL, MetricsByUser(previousUserId.value));
      MatchesArrayKeyIffPrefix(TOKEN_BALANCES_ALL, TokenBalancesByUser(previousUserId.value));
    }
    if Present(previousUserId) && Present(nextUserId) && previousUserId != nextUserId {
      ByUserIsInjective(previousUserId.value, nextUserId.value);
    }
  }

  /** A query's `error` as react-query hands it over. */
  datatype RawError = NoError | ErrorValue(message: string) | NonErrorValue(value: JsValue)

  /** The page's error normalisation: an `Error` is kept, any other truthy
      value becomes `new Error(String(value))`, a falsy one none. Errors
      are represented by their message; `toString` is `String(...)`. */
  function NormaliseQueryError(e: RawError, toString: JsValue -> string): (r: Option<string>)
    ensures r.None? <==> e.NoError? || (e.NonErrorValue? && !Truthy(e.value))
    ensures e.ErrorValue? ==> r == Some(e.message)
    ensures e.NonErrorValue? && Truthy(e.value) ==> r == Some(toString(e.value))
  {
    match e
    case ErrorValue(m) => Some(m)
    case NonErrorValue(v) => if Truthy(v) then Some(toString(v)) else None
    case NoError => None
  }

  /** `combinedError`: the metrics error wins over the balances error. */
  function CombinedError(metricsError: Option<string>, tokenBalancesError: Option<string>): (r: Option<string>)
    ensures r.None? <==> metricsError.None? && tokenBalancesError.None?
    ensures metricsError.Some? ==> r == metricsError
    ensures metricsError.None? ==> r == tokenBalancesError
  {
    metricsError.OrElse(tokenBalancesError)
  }

  /** What the page reads of one query. */
  datatype QueryView = QueryView(hasData: bool, isLoading: bool, isFetching: bool)

  predicate Loading(q: QueryView) {
    q.isLoading || q.isFetching
  }

  /** `isWalletRestoring`: connecting, or connected without an account yet. */
  predicate IsWalletRestoring(connecting: bool, connected: bool, userId: Option<string>) {
    connecting || (connected && !Present(userId))
  }

  /** `shouldShowSkeleton`. */
  function ShouldShowSkeleton(combinedError: Option<string>, walletRestoring: bool,
                              metrics: QueryView, tokenBalances: QueryView): (r: bool)
    ensures combinedError.Some? ==> !r
    ensures combinedError.None? && walletRestoring ==> r
    ensures combinedError.None? && !walletRestoring ==>
      (r <==> (!metrics.hasData || !tokenBalances.hasData) && (Loading(metrics) || Loading(tokenBalances)))
  {
    combinedError.None? &&
    (walletRestoring || ((!metrics.hasData || !tokenBalances.hasData) && (Loading(metrics) || Loading(tokenBalances))))
  }

  /** `isRefreshing`. */
  predicate IsRefreshing(isManualRefresh: bool, metrics: QueryView, tokenBalances: QueryView) {
    isManualRefresh || Loading(metrics) || Loading(tokenBalances)
  }

  /** The refresh indicator shows for the whole of a manual refresh and for
      any background load; once the manual refresh has settled and both
      queries are idle, it is off. */
  lemma RefreshIndicatorFacts(isManualRefresh: bool, metrics: QueryView, tokenBalances: QueryView)
    ensures IsRefreshing(true, metrics, tokenBalances)
    ensures Loading(metrics) || Loading(tokenBalances) ==> IsRefreshing(isManualRefresh, metrics, tokenBalances)
    ensures !Loading(metrics) && !Loading(tokenBalances) ==> !IsRefreshing(false, metrics, tokenBalances)
  {
  }

  /** An error is never hidden behind the skeleton; once both data sets
      are there, or nothing is loading, the skeleton shows only while the
      wallet restores; and outside wallet restoration a skeleton always
      comes with the refresh indicator. */
  lemma SkeletonFacts(combinedError: Option<string>, walletRestoring: bool, isManualRefresh: bool,
                      metrics: QueryView, tokenBalances: QueryView)
    ensures ShouldShowSkeleton(combinedError, walletRestoring, metrics, tokenBalances) ==> combinedError.None?
    ensures metrics.hasData && tokenBalances.hasData ==>
      (ShouldShowSkeleton(combinedError, walletRestoring, metrics, tokenBalances) <==> combinedError.None? && walletRestoring)
    ensures !Loading(metrics) && !Loading(tokenBalances) ==>
      (ShouldShowSkeleton(combinedError, walletRestoring, metrics, tokenBalances) <==> combinedError.None? && walletRestoring)
    ensures ShouldShowSkeleton(combinedError, walletRestoring, metrics, tokenBalances) && !walletRestoring ==>
      IsRefreshing(isManualRefresh, metrics, tokenBalances)
  {
  }

  /** The page's mutable state: the `previousUserIdRef` ref, the
      `isManualRefresh` state, and the cache operations performed so far. */
  class DashboardController {
    var previousUserId: Option<string>
    var isManualRefresh: bool
    var cacheCalls: seq<CacheAction>

    constructor ()
      ensures previousUserId == None && !isManualRefresh && cacheCalls == []
    {
      previousUserId := None;
      isManualRefresh := false;
      cacheCalls := [];
    }

    /** `handleWalletAccountChange(nextUserId)`: performs at most one cache
        operation, as `AccountChangeAction` decides, and always records the
        new account in the ref. */
    method HandleWalletAccountChange(nextUserId: Option<string>) returns (action: CacheAction)
      modifies this
      ensures action == AccountChangeAction(old(previousUserId), nextUserId)
      ensures cacheCalls == old(cacheCalls) + (if action == NoAction then [] else [action])
      ensures previousUserId == nextUserId
      ensures isManualRefresh == old(isManualRefresh)
    {
      var previous := previousUserId;
      action := NoAction;
      if !Present(nextUserId) && Present(previous) {
        action := RemoveDashboardData;
        cacheCalls := cacheCalls + [action];
      } else if Present(nextUserId) && Present(previous) && nextUserId != previous {
        action := InvalidateDashboardData;
        cacheCalls := cacheCalls + [action];
      }
      previousUserId := nextUserId;
    }

    /** The synchronous part of `handleRefresh`: a request while a refresh
        is in flight returns at once; otherwise the flag is raised and both
        refetches start. */
    method BeginRefresh() returns (started: bool)
      modifies this
      ensures started <==> !old(isManualRefresh)
      ensures isManualRefresh
      ensures previousUserId == old(previousUserId) && cacheCalls == old(cacheCalls)
    {
      if isManualRefresh {
        return false;
      }
      isManualRefresh := true;
      started := true;
    }

    /** The `finally` of `handleRefresh`: once both refetches have settled,
        whether they succeeded or not, the flag is cleared; the outcome is
        not an input. */
    method RefreshSettled()
      modifies this
      ensures !isManualRefresh
      ensures previousUserId == old(previousUserId) && cacheCalls == old(cacheCalls)
    {
      isManualRefresh := false;
    }

    /** Two refresh requests in a row, the second before the first settled:
        only the first starts; after it settles a new one can start again. */
    method DoubleRefresh() returns (first: bool, second: bool, third: bool)
      requires !isManualRefresh
      modifies this
      ensures first && !second && third
      ensures isManualRefresh
    {
      first := BeginRefresh();
      second := BeginRefresh();
      RefreshSettled();
      third := BeginRefresh();
    }
  }
}
