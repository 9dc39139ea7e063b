/** Number coercion, decimal scaling and display guards
    (src/lib/utils.ts). */
module Utils {
  import opened Js
  import opened Wrappers

  /** `toNumber`: keep a finite number, parse a string, and fall back to 0
      for everything else. */
  function ToNumber(value: JsValue, parseFloat: NumberParser): (r: real)
    ensures value.JNumber? && value.n.Finite? ==> r == value.n.value
    ensures value.JString? && parseFloat(value.s).Finite? ==> r == parseFloat(value.s).value
    ensures !(value.JNumber? && value.n.Finite?) && !(value.JString? && parseFloat(value.s).Finite?)
            ==> r == 0.0
  {
    match value
    case JNumber(n) => if n.Finite? then n.value else 0.0
    case JString(s) =>
      var parsed := parseFloat(s);
      if parsed.Finite? then parsed.value else 0.0
    case _ => 0.0
  }

  /** 10^n for a natural n. */
  function Pow10(n: nat): (r: real)
    ensures r >= 1.0
  {
    if n == 0 then 1.0 else 10.0 * Pow10(n - 1)
  }

  /** `10 ** d` for an integer d, exactly. */
  function Scale10(d: int): (r: real)
    ensures r > 0.0
  {
    if d >= 0 then Pow10(d) else 1.0 / Pow10(-d)
  }

  predicate IsIntegral(x: real) {
    x.Floor as real == x
  }

  /** `normaliseWithDecimals(amount, decimals)`: an atomic amount expressed
      in whole units, amount / 10^decimals, or 0 when either input is not
      finite. Decimals are whole numbers here. */
  function NormaliseWithDecimals(amount: JsNumber, decimals: JsNumber): (r: real)
    requires decimals.Finite? ==> IsIntegral(decimals.value)
    ensures !amount.Finite? || !decimals.Finite? ==> r == 0.0
    ensures amount.Finite? && decimals.Finite? ==> r * Scale10(decimals.value.Floor) == amount.value
  {
    if !amount.Finite? || !decimals.Finite? then 0.0
    else amount.value / Scale10(decimals.value.Floor)
  }

  /** `toAtomicUnits(value, decimals)`: value * 10^decimals, no rounding. */
  function ToAtomicUnits(value: real, decimals: int): (r: real)
    ensures r / Scale10(decimals) == value
  {
    value * Scale10(decimals)
  }

  /** Scaling down and back up returns the atomic amount exactly, for every
      amount and every whole number of decimals. */
  lemma AtomicRoundTrip(a: real, d: int)
    ensures ToAtomicUnits(NormaliseWithDecimals(Finite(a), Finite(d as real)), d) == a
    ensures NormaliseWithDecimals(Finite(ToAtomicUnits(a, d)), Finite(d as real)) == a
  {
    assert (d as real).Floor == d;
  }

  /** Zero decimals is the identity and zero stays zero. */
  lemma NormaliseIdentities(a: real, d: int)
    ensures NormaliseWithDecimals(Finite(a), Finite(0.0)) == a
    ensures NormaliseWithDecimals(Finite(0.0), Finite(d as real)) == 0.0
  {
    assert (0.0).Floor == 0;
    assert (d as real).Floor == d;
  }

  function Min(a: int, b: int): int { if a < b then a else b }

  /** `slicePublicKey`: the first four characters, "...", and the last four
      (`slice(-4)` takes the whole key when it is shorter). */
  function SlicePublicKey(publicKey: Option<string>): (r: string)
    ensures publicKey.None? || publicKey.value == "" ==> r == ""
    ensures publicKey.Some? && publicKey.value != "" ==>
      var s, m := publicKey.value, Min(4, |publicKey.value|);
      && |r| == 2 * m + 3
      && r[..m] == s[..m]
      && r[m..m + 3] == "..."
      && r[m + 3..] == s[|s| - m..]
  {
    if publicKey.None? || publicKey.value == "" then ""
    else
      var s := publicKey.value;
      var m := Min(4, |s|);
      s[..m] + "..." + s[|s| - m..]
  }

  /** A key of at least eight characters is shown as eleven. */
  lemma SlicePublicKeyLength(s: string)
    requires |s| >= 8
    ensures |SlicePublicKey(Some(s))| == 11
  {
  }

  /** `formatPercent`: "-" for a missing or NaN value, otherwise the value
      with two decimals (rendered by `toFixed2`) followed by "%". */
  function FormatPercent(value: Option<JsNumber>, toFixed2: JsNumber -> string): (r: string)
    ensures |r| >= 1
    ensures r == "-" <==> value.None? || value.value.NaN?
    ensures value.Some? && !value.value.NaN? ==> r[|r| - 1] == '%'
  {
    if value.None? || value.value.NaN? then "-"
    else
      var r := toFixed2(value.value) + "%";
      assert r[|r| - 1] != "-"[0];
      r
  }

  /** `formatNumber`: "0.00" for a value that is not finite, otherwise its
      two-decimal locale rendering (`toLocale`). */
  function FormatNumber(value: JsNumber, toLocale: real -> string): (r: string)
    ensures !value.Finite? ==> r == "0.00"
  {
    if !value.Finite? then "0.00" else toLocale(value.value)
  }
}
