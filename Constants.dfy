/** The query keys the client cache is organised by, and the constants of
    the USDC base asset. */
module Constants {
  import opened Wrappers
  import opened Text

  /** A react-query key: a list of strings. */
  type QueryKey = seq<string>

  const METRICS_ALL: QueryKey := ["metrics"]
  const TOKEN_BALANCES_ALL: QueryKey := ["token-balances"]

  /** `QUERY_KEYS.metrics.byUser(userId)`. */
  function MetricsByUser(userId: string): (k: QueryKey)
    ensures |k| == 2 && k[1] == userId
    ensures MatchesFilter(METRICS_ALL, k)
  {
    METRICS_ALL + [userId]
  }

  /** `QUERY_KEYS.tokenBalances.byUser(userId)`. */
  function TokenBalancesByUser(userId: string): (k: QueryKey)
    ensures |k| == 2 && k[1] == userId
    ensures MatchesFilter(TOKEN_BALANCES_ALL, k)
  {
    TOKEN_BALANCES_ALL + [userId]
  }

  /** Non-exact key matching, as the cache's `invalidateQueries` and
      `removeQueries` apply a filter key with `exact: false`: the filter
      is a prefix of the key. */
  predicate MatchesFilter(filter: QueryKey, key: QueryKey) {
    filter <= key
  }

  /** A filter on one family never touches a key of the other family, so
      invalidating metrics leaves token balances alone and vice versa. */
  lemma FamiliesAreDisjoint(u: string, v: string)
    ensures !MatchesFilter(METRICS_ALL, TokenBalancesByUser(v))
    ensures !MatchesFilter(TOKEN_BALANCES_ALL, MetricsByUser(u))
    ensures MetricsByUser(u)[0] != TokenBalancesByUser(v)[0]
  {
    assert MetricsByUser(u)[0] == "metrics";
    assert TokenBalancesByUser(v)[0] == "token-balances";
    assert "metrics"[0] != "token-balances"[0];
  }

  /** Different users get different keys in both families. */
  lemma ByUserIsInjective(u: string, v: string)
    ensures MetricsByUser(u) == MetricsByUser(v) ==> u == v
    ensures TokenBalancesByUser(u) == TokenBalancesByUser(v) ==> u == v
  {
    if MetricsByUser(u) == MetricsByUser(v) {
      assert MetricsByUser(u)[1] == MetricsByUser(v)[1];
    }
    if TokenBalancesByUser(u) == TokenBalancesByUser(v) {
      assert TokenBalancesByUser(u)[1] == TokenBalancesByUser(v)[1];
    }
  }

  /** What a cached query is keyed by at run time: an array of strings (a
      key builder's result), or a plain object, given by its string-valued
      properties and the names of its other properties (arrays, functions). */
  datatype KeyValue = ArrayKey(parts: QueryKey) | ObjectKey(stringFields: map<string, string>, otherFields: set<string>)

  /** The string at `key[i]`, if that property holds a string: an array's
      i-th element, or an object's property named by the digits of i. */
  function StringAt(key: KeyValue, i: nat): (r: Option<string>)
    ensures key.ArrayKey? ==> (r.Some? <==> i < |key.parts|)
    ensures key.ArrayKey? && i < |key.parts| ==> r == Some(key.parts[i])
  {
    match key
    case ArrayKey(parts) => if i < |parts| then Some(parts[i]) else None
    case ObjectKey(fields, _) => if NatToString(i) in fields then Some(fields[NatToString(i)]) else None
  }

  /** The cache's non-exact key match (`exact: false` in `invalidateQueries`
      and `removeQueries`): every position of the filter array must hold
      the same string in the query's key, the key's properties being looked
      up by the filter's indices. */
  predicate Matches(filter: QueryKey, key: KeyValue) {
    forall i :: 0 <= i < |filter| ==> StringAt(key, i) == Some(filter[i])
  }

  /** On array keys the match is the prefix relation of `MatchesFilter`. */
  lemma MatchesArrayKeyIffPrefix(filter: QueryKey, parts: QueryKey)
    ensures Matches(filter, ArrayKey(parts)) <==> MatchesFilter(filter, parts)
  {
    if Matches(filter, ArrayKey(parts)) && |filter| > 0 {
      assert StringAt(ArrayKey(parts), |filter| - 1).Some?;
    }
  }

  /** `QUERY_KEYS.tokenBalances` itself, the object `{ all, byUser }`,
      which is what the token-balances query is keyed by. */
  const TOKEN_BALANCES_OBJECT: KeyValue := ObjectKey(map[], {"all", "byUser"})

  /** The object key is not matched by the token-balances filter, nor by any
      other non-empty filter: it has no property "0". */
  lemma TokenBalancesObjectIsNeverMatched(filter: QueryKey)
    requires |filter| > 0
    ensures !Matches(filter, TOKEN_BALANCES_OBJECT)
    ensures !Matches(TOKEN_BALANCES_ALL, TOKEN_BALANCES_OBJECT)
  {
    assert StringAt(TOKEN_BALANCES_OBJECT, 0).None?;
  }

  const USDC_MINT_ADDRESS: string := "EPjFWdd5AufqSSqeM2qN1xzybapC8G4wEGGkZwyTDt1v"
  const USDC_DECIMALS: nat := 6

  /** `BaseAssetInfo`: the token a fund is denominated in. */
  datatype BaseAssetInfo = BaseAssetInfo(mint: string, symbol: string, decimals: nat)

  const USDC_BASE_ASSET: BaseAssetInfo := BaseAssetInfo(USDC_MINT_ADDRESS, "USDC", USDC_DECIMALS)

  /** The USDC base asset carries the USDC mint and six decimals. */
  lemma UsdcBaseAssetIsConsistent()
    ensures USDC_BASE_ASSET.decimals == USDC_DECIMALS == 6
    ensures USDC_BASE_ASSET.mint == USDC_MINT_ADDRESS && |USDC_MINT_ADDRESS| == 44
    ensures USDC_BASE_ASSET.symbol == "USDC"
  {
  }
}
