/** The capital breakdown shown on the dashboard and the helpers that
    feed it (src/lib/dashboardMetrics.ts). */
module DashboardMetrics {
  import opened Wrappers
  import opened Js
  import opened Text
  import opened ApiTypes
  import Constants
  import Utils

  /** `CapitalBreakdown`. */
  datatype CapitalBreakdown = CapitalBreakdown(
    baseAsset: string,
    principal: real,
    earned: real,
    earningTotal: real,
    idle: real,
    earningPercent: real,
    idlePercent: real)

  predicate IsBlank(s: string) {
    Trim(s) == ""
  }

  /** The base-asset code carried by an optional `baseAsset` field: the
      value trimmed and upper-cased when it is a non-blank string, "USDC"
      otherwise. */
  function AssetCode(asset: Option<string>): (r: string)
    ensures asset.Some? && !IsBlank(asset.value) ==> r == ToUpper(Trim(asset.value))
    ensures asset.None? || IsBlank(asset.value) ==> r == "USDC"
    ensures !IsBlank(r)
  {
    if asset.Some? && Trim(asset.value) != "" then
      var t := Trim(asset.value);
      ToUpperFacts(t);
      assert !IsWhitespace(ToUpper(t)[0]);
      TrimEmptyIffBlank(ToUpper(t));
      ToUpper(t)
    else
      assert !IsWhitespace("USDC"[0]);
      TrimEmptyIffBlank("USDC");
      "USDC"
  }

  /** Upper-casing a trimmed, non-blank string gives a code that resolves to itself. */
  lemma UpperTrimmedIsFixed(t: string)
    requires t != [] && !IsWhitespace(t[0]) && !IsWhitespace(t[|t| - 1])
    ensures AssetCode(Some(ToUpper(t))) == ToUpper(t)
  {
    var c := ToUpper(t);
    ToUpperFacts(t);
    TrimOfTrimmed(c);
    TrimEmptyIffBlank(c);
    assert IsWhitespace(c[0]) == IsWhitespace(t[0]);
  }

  /** A resolved code resolves to itself: it is already trimmed and upper-case. */
  lemma AssetCodeIsIdempotent(asset: Option<string>)
    ensures AssetCode(Some(AssetCode(asset))) == AssetCode(asset)
  {
    if asset.Some? && !IsBlank(asset.value) {
      UpperTrimmedIsFixed(Trim(asset.value));
    } else {
      UpperTrimmedIsFixed("USDC");
      assert ToUpper("USDC") == "USDC";
    }
  }

  /** `resolveBaseAssetCode`: the code of the summary's `baseAsset`, or
      "USDC" when there are no metrics. */
  function ResolveBaseAssetCode(metrics: Option<MetricsSuccessResponse>): (r: string)
    ensures metrics.Some? ==> r == AssetCode(metrics.value.summary.baseAsset)
    ensures metrics.None? ==> r == "USDC"
    ensures !IsBlank(r)
  {
    AssetCode(if metrics.Some? then metrics.value.summary.baseAsset else None)
  }

  /** The test `Array.find` applies to each balance entry: the USDC mint
      address, or a symbol or name equal to the target ignoring case. */
  predicate IsBaseAssetEntry(entry: TokenBalanceEntry, target: string) {
    || entry.tokenAddress == Constants.USDC_MINT_ADDRESS
    || ToUpper(entry.tokenSymbol) == ToUpper(target)
    || ToUpper(entry.tokenName) == ToUpper(target)
  }

  /** `Array.prototype.find` with that test: the first matching entry. */
  function FindFirst(entries: seq<TokenBalanceEntry>, target: string): (r: Option<TokenBalanceEntry>)
    ensures r.None? <==> forall i :: 0 <= i < |entries| ==> !IsBaseAssetEntry(entries[i], target)
    ensures r.Some? ==> exists i :: (0 <= i < |entries| && entries[i] == r.value
      && IsBaseAssetEntry(r.value, target)
      && forall j :: 0 <= j < i ==> !IsBaseAssetEntry(entries[j], target))
  {
    if entries == [] then None
    else if IsBaseAssetEntry(entries[0], target) then Some(entries[0])
    else
      var rest := FindFirst(entries[1..], target);
      FirstMatchShifts(entries, target, rest);
      rest
  }

  /** The first match after a non-matching head is the first match of the whole list. */
  lemma FirstMatchShifts(entries: seq<TokenBalanceEntry>, target: string, rest: Option<TokenBalanceEntry>)
    requires entries != [] && !IsBaseAssetEntry(entries[0], target)
    requires rest.None? <==> forall i :: 0 <= i < |entries[1..]| ==> !IsBaseAssetEntry(entries[1..][i], target)
    requires rest.Some? ==> exists i :: (0 <= i < |entries[1..]| && entries[1..][i] == rest.value
      && IsBaseAssetEntry(rest.value, target)
      && forall j :: 0 <= j < i ==> !IsBaseAssetEntry(entries[1..][j], target))
    ensures rest.None? <==> forall i :: 0 <= i < |entries| ==> !IsBaseAssetEntry(entries[i], target)
    ensures rest.Some? ==> exists i :: (0 <= i < |entries| && entries[i] == rest.value
      && IsBaseAssetEntry(rest.value, target)
      && forall j :: 0 <= j < i ==> !IsBaseAssetEntry(entries[j], target))
  {
    assert forall i :: 1 <= i < |entries| ==> entries[i] == entries[1..][i - 1];
    if rest.Some? {
      var i :| 0 <= i < |entries[1..]| && entries[1..][i] == rest.value
        && IsBaseAssetEntry(rest.value, target)
        && forall j :: 0 <= j < i ==> !IsBaseAssetEntry(entries[1..][j], target);
      assert entries[i + 1] == rest.value;
      forall j | 0 <= j < i + 1 ensures !IsBaseAssetEntry(entries[j], target) {
        if j > 0 { assert entries[j] == entries[1..][j - 1]; }
      }
    }
  }

  /** `findBaseAssetTokenBalance`: null for a missing or empty list,
      otherwise the first entry that is the base asset, or null. */
  function FindBaseAssetTokenBalance(balances: Option<seq<TokenBalanceEntry>>, baseAssetCode: string)
    : (r: Option<TokenBalanceEntry>)
    ensures balances.None? || balances.value == [] ==> r.None?
    ensures balances.Some? ==> r == FindFirst(balances.value, baseAssetCode)
  {
    if balances.None? || balances.value == [] then None
    else FindFirst(balances.value, baseAssetCode)
  }

  function Max(a: real, b: real): real { if a >= b then a else b }

  /** x/c lies in [0, 1] when 0 <= x <= c. */
  lemma FractionBounds(x: real, c: real)
    requires 0.0 <= x <= c && c > 0.0
    ensures 0.0 <= x / c <= 1.0
  {
    assert x / c * c == x;
  }

  /** Two non-negative shares of a positive whole are each between 0 and
      100 percent of it, each is 100·share/whole, and they add up to 100
      percent. */
  lemma PercentSplit(e: real, i: real)
    requires e >= 0.0 && i >= 0.0
    ensures e + i > 0.0 ==>
      && 0.0 <= (e / (e + i)) * 100.0 <= 100.0
      && 0.0 <= (i / (e + i)) * 100.0 <= 100.0
      && (e / (e + i)) * 100.0 + (i / (e + i)) * 100.0 == 100.0
      && (e / (e + i)) * 100.0 * (e + i) == 100.0 * e
      && (i / (e + i)) * 100.0 * (e + i) == 100.0 * i
  {
    var c := e + i;
    if c > 0.0 {
      FractionBounds(e, c);
      FractionBounds(i, c);
      SharesOfWhole(e, i, c);
      ShareTimesWhole(e, c);
      ShareTimesWhole(i, c);
    }
  }

  /** A share of c, as a percentage, times c is a hundred times the part. */
  lemma ShareTimesWhole(x: real, c: real)
    requires c > 0.0
    ensures (x / c) * 100.0 * c == 100.0 * x
  {
    assert (x / c) * c == x;
  }

  /** e/c + i/c = 1 when e + i = c > 0. */
  lemma SharesOfWhole(e: real, i: real, c: real)
    requires c > 0.0 && e + i == c
    ensures (e / c) * 100.0 + (i / c) * 100.0 == 100.0
  {
    assert e / c + i / c == (e + i) / c;
    assert (e + i) / c == 1.0;
  }

  /** The arithmetic core of `buildCapitalBreakdown`: earning capital is
      principal plus earned clamped at zero, idle capital is what the held
      balance has beyond it (clamped at zero), and the percentages split
      their sum. */
  function Allocate(baseAsset: string, principal: real, earned: real, held: real): (r: CapitalBreakdown)
    ensures r.baseAsset == baseAsset && r.principal == principal && r.earned == earned
    ensures r.earningTotal >= 0.0 && r.idle >= 0.0
    ensures r.earningTotal == Max(principal + earned, 0.0)
    ensures r.idle == Max(held - r.earningTotal, 0.0)
    ensures r.idle > 0.0 ==> r.earningTotal + r.idle == held
    ensures r.earningTotal + r.idle == 0.0 ==> r.earningPercent == 0.0 && r.idlePercent == 0.0
    ensures r.earningTotal + r.idle > 0.0 ==>
      && 0.0 <= r.earningPercent <= 100.0
      && 0.0 <= r.idlePercent <= 100.0
      && r.earningPercent + r.idlePercent == 100.0
      && r.earningPercent * (r.earningTotal + r.idle) == 100.0 * r.earningTotal
      && r.idlePercent * (r.earningTotal + r.idle) == 100.0 * r.idle
  {
    var earningTotal := Max(principal + earned, 0.0);
    var idle := Max(held - earningTotal, 0.0);
    var combined := Max(earningTotal + idle, 0.0);
    var earningPercent := if combined > 0.0 then (earningTotal / combined) * 100.0 else 0.0;
    var idlePercent := if combined > 0.0 then (idle / combined) * 100.0 else 0.0;
    PercentSplit(earningTotal, idle);
    CapitalBreakdown(baseAsset, principal, earned, earningTotal, idle, earningPercent, idlePercent)
  }

  /** `buildCapitalBreakdown`. The principal and the earned amount come from
      the entry's yield balance scaled by its decimals (or the default), or,
      without one, from the portfolio value and the summary's total yield
      (0 without metrics). The held balance is the override when one is
      given, else the entry's normalised balance, else 0. */
  function BuildCapitalBreakdown(
    metrics: Option<MetricsSuccessResponse>,
    baseAssetBalance: Option<TokenBalanceEntry>,
    portfolioValue: real,
    heldBalanceOverride: Option<real>,
    defaultDecimals: int): (r: CapitalBreakdown)
    ensures r.baseAsset == ResolveBaseAssetCode(metrics)
    ensures baseAssetBalance.Some? && baseAssetBalance.value.yieldBalance.Some? ==>
      var entry := baseAssetBalance.value;
      && r.principal == Utils.NormaliseWithDecimals(Finite(entry.yieldBalance.value.funds), Finite(entry.decimals as real))
      && r.earned == Utils.NormaliseWithDecimals(Finite(entry.yieldBalance.value.amountOfYield), Finite(entry.decimals as real))
    ensures !(baseAssetBalance.Some? && baseAssetBalance.value.yieldBalance.Some?) ==>
      && r.principal == portfolioValue
      && r.earned == (if metrics.Some? then metrics.value.summary.totalYieldEarned else 0.0)
    ensures r == Allocate(r.baseAsset, r.principal, r.earned,
      if heldBalanceOverride.Some? then heldBalanceOverride.value
      else if baseAssetBalance.Some? then baseAssetBalance.value.normalizedBalance else 0.0)
  {
    var baseAsset := ResolveBaseAssetCode(metrics);
    var heldBalance :=
      if heldBalanceOverride.Some? then heldBalanceOverride.value
      else if baseAssetBalance.Some? then baseAssetBalance.value.normalizedBalance else 0.0;
    if baseAssetBalance.Some? && baseAssetBalance.value.yieldBalance.Some? then
      var entry := baseAssetBalance.value;
      var decimals := Finite(entry.decimals as real);
      assert (entry.decimals as real).Floor == entry.decimals;
      var principal := Utils.NormaliseWithDecimals(Finite(entry.yieldBalance.value.funds), decimals);
      var earned := Utils.NormaliseWithDecimals(Finite(entry.yieldBalance.value.amountOfYield), decimals);
      Allocate(baseAsset, principal, earned, heldBalance)
    else
      var earned := if metrics.Some? then metrics.value.summary.totalYieldEarned else 0.0;
      Allocate(baseAsset, portfolioValue, earned, heldBalance)
  }

  /** Earning plus idle capital is the larger of the held balance and the
      earning total: the held balance is never double-counted. */
  lemma CombinedIsLargerOfHeldAndEarning(
    metrics: Option<MetricsSuccessResponse>,
    baseAssetBalance: Option<TokenBalanceEntry>,
    portfolioValue: real,
    held: real,
    defaultDecimals: int)
    ensures var r := BuildCapitalBreakdown(metrics, baseAssetBalance, portfolioValue, Some(held), defaultDecimals);
      r.earningTotal + r.idle == Max(held, r.earningTotal)
  {
  }

  /** The default decimals never matter: a yield balance only exists inside
      an entry, and every entry carries its own decimals. */
  lemma DefaultDecimalsIsUnused(
    metrics: Option<MetricsSuccessResponse>,
    baseAssetBalance: Option<TokenBalanceEntry>,
    portfolioValue: real,
    heldBalanceOverride: Option<real>,
    d1: int, d2: int)
    ensures BuildCapitalBreakdown(metrics, baseAssetBalance, portfolioValue, heldBalanceOverride, d1)
         == BuildCapitalBreakdown(metrics, baseAssetBalance, portfolioValue, heldBalanceOverride, d2)
  {
  }

  /** With no balance entry and nothing held, all capital counts as earning
      and idle is zero. */
  lemma MissingBalanceFallsBackToMetrics(metrics: MetricsSuccessResponse, portfolioValue: real)
    ensures var r := BuildCapitalBreakdown(Some(metrics), None, portfolioValue, Some(0.0), Constants.USDC_DECIMALS);
      && r.idle == 0.0
      && r.earningTotal == Max(portfolioValue + metrics.summary.totalYieldEarned, 0.0)
  {
  }

  /** How old the last update is, bucketed as `formatLastUpdatedLabel` does. */
  datatype Age = JustNow | Minutes(n: nat) | Hours(n: nat) | Days(n: nat)

  const MINUTE_MS: int := 60 * 1000
  const HOUR_MS: int := 60 * MINUTE_MS
  const DAY_MS: int := 24 * HOUR_MS

  /** Floor division into minutes, hours and days, each bucket holding the
      whole number of units that have fully elapsed. Negative ages (a
      timestamp in the future) count as just now. */
  function AgeBucket(diffMs: int): (a: Age)
    ensures a.JustNow? <==> diffMs < MINUTE_MS
    ensures a.Minutes? ==> 1 <= a.n < 60 && a.n * MINUTE_MS <= diffMs < (a.n + 1) * MINUTE_MS
    ensures a.Hours? ==> 1 <= a.n < 24 && a.n * HOUR_MS <= diffMs < (a.n + 1) * HOUR_MS
    ensures a.Days? ==> 1 <= a.n && a.n * DAY_MS <= diffMs < (a.n + 1) * DAY_MS
  {
    if diffMs < MINUTE_MS then JustNow
    else
      var minutes := diffMs / MINUTE_MS;
      if minutes < 60 then Minutes(minutes)
      else
        var hours := minutes / 60;
        if hours < 24 then Hours(hours)
        else Days(hours / 24)
  }

  function Plural(n: nat): string {
    if n == 1 then "" else "s"
  }

  /** The label text for an age bucket. */
  function AgeLabel(a: Age): string {
    match a
    case JustNow => "Updated just now"
    case Minutes(n) => "Updated " + NatToString(n) + " min" + Plural(n) + " ago"
    case Hours(n) => "Updated " + NatToString(n) + " hr" + Plural(n) + " ago"
    case Days(n) => "Updated " + NatToString(n) + " day" + Plural(n) + " ago"
  }

  lemma PluralSuffix(prefix: string, n: nat)
    requires |prefix| >= 1 && prefix[|prefix| - 1] != 's'
    ensures var t := prefix + Plural(n) + " ago";
      |t| >= 5 && (t[|t| - 5..] == "s ago" <==> n != 1)
  {
    var t := prefix + Plural(n) + " ago";
    if n == 1 {
      assert t == prefix + " ago";
      assert t[|t| - 5] == prefix[|prefix| - 1];
      assert t[|t| - 5..][0] != "s ago"[0];
    } else {
      assert t == prefix + "s ago";
    }
  }

  /** The unit is plural exactly when the count is not one. */
  lemma AgeLabelPlural(a: Age)
    requires !a.JustNow?
    ensures var text := AgeLabel(a);
      |text| >= 5 && (text[|text| - 5..] == "s ago" <==> a.n != 1)
  {
    var unit := match a case Minutes(_) => " min" case Hours(_) => " hr" case Days(_) => " day" case JustNow => " ";
    var prefix := "Updated " + NatToString(a.n) + unit;
    assert prefix[|prefix| - 1] == unit[|unit| - 1];
    assert AgeLabel(a) == prefix + Plural(a.n) + " ago";
    PluralSuffix(prefix, a.n);
  }

  /** A label other than "just now" shows the count itself: after
      "Updated " come decimal digits that read back as the count. */
  lemma AgeLabelShowsCount(a: Age)
    requires !a.JustNow?
    ensures var d := NatToString(a.n);
      && AgeLabel(a)[..8 + |d|] == "Updated " + d
      && DigitsValue(d) == a.n
  {
    var d := NatToString(a.n);
    var unit := match a case Minutes(_) => " min" case Hours(_) => " hr" case Days(_) => " day" case JustNow => " ";
    assert AgeLabel(a) == ("Updated " + d) + (unit + Plural(a.n) + " ago");
    NatToStringRoundTrip(a.n);
  }

  /** `formatLastUpdatedLabel` with the clock reading `now` and the date
      parser (`new Date(s).getTime()`, None for an invalid date) as inputs. */
  function FormatLastUpdatedLabel(lastUpdated: Option<string>, now: int, parseDate: string -> Option<int>)
    : (r: Option<string>)
    ensures lastUpdated.None? || lastUpdated.value == "" || parseDate(lastUpdated.value).None? <==> r.None?
    ensures r.Some? ==> r.value == AgeLabel(AgeBucket(now - parseDate(lastUpdated.value).value))
    ensures r.Some? && now - parseDate(lastUpdated.value).value < MINUTE_MS ==> r.value == "Updated just now"
  {
    if lastUpdated.None? || lastUpdated.value == "" then None
    else
      var parsed := parseDate(lastUpdated.value);
      if parsed.None? then None
      else Some(AgeLabel(AgeBucket(now - parsed.value)))
  }
}
