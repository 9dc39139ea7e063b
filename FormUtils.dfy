/** Form helpers (src/lib/formUtils.ts): quick-fill buttons that set a
    fraction of the balance, and the `aria-describedby` builder. */
module FormUtils {
  import opened Wrappers
  import opened Js
  import opened Text
  import Utils

  /** The whole number nearest to y, ties rounded up; the bounds pin it
      down uniquely (see `NearestWholeIsUnique`). */
  function NearestWhole(y: real): (n: int)
    ensures -0.5 < n as real - y <= 0.5
  {
    (y + 0.5).Floor
  }

  /** Only one whole number lies in (y - 0.5, y + 0.5]. */
  lemma NearestWholeIsUnique(y: real, m: int)
    requires -0.5 < m as real - y <= 0.5
    ensures NearestWhole(y) == m
  {
  }

  /** The nearest whole number of 1/scale units to x, ties rounded up. */
  function RoundToScale(x: real, scale: real): real
    requires scale >= 1.0
  {
    NearestWhole(x * scale) as real / scale
  }

  /** `Number(x.toFixed(decimals))` on exact reals: the nearest whole
      number of 10^-decimals units, ties rounded up. */
  function RoundToDecimals(x: real, decimals: nat): real
  {
    RoundToScale(x, Utils.Pow10(decimals))
  }

  /** The rounded value is a whole number of units, lies within half a unit
      of x, and keeps a non-negative x non-negative. */
  lemma RoundToScaleIsNearest(x: real, scale: real)
    requires scale >= 1.0
    ensures RoundToScale(x, scale) * scale == NearestWhole(x * scale) as real
    ensures -0.5 < RoundToScale(x, scale) * scale - x * scale <= 0.5
    ensures x >= 0.0 ==> RoundToScale(x, scale) >= 0.0
  {
    var n := NearestWhole(x * scale);
    UnitsTimesScale(x, scale, n);
    assert RoundToScale(x, scale) == n as real / scale;
  }

  /** The rounded value has at most `decimals` places, lies within half a
      unit in the last place of x, and keeps a non-negative x non-negative. */
  lemma RoundToDecimalsIsNearest(x: real, decimals: nat, unit: real)
    requires unit == Utils.Pow10(decimals)
    ensures RoundToDecimals(x, decimals) * unit == NearestWhole(x * unit) as real
    ensures -0.5 < RoundToDecimals(x, decimals) * unit - x * unit <= 0.5
    ensures x >= 0.0 ==> RoundToDecimals(x, decimals) >= 0.0
  {
    RoundToScaleIsNearest(x, unit);
  }

  /** The rounding arithmetic with the scale as a plain number. */
  lemma UnitsTimesScale(x: real, p: real, n: int)
    requires p >= 1.0 && -0.5 < n as real - x * p <= 0.5
    ensures (n as real / p) * p == n as real
    ensures Utils.IsIntegral((n as real / p) * p)
    ensures -0.5 < (n as real / p) * p - x * p <= 0.5
    ensures x >= 0.0 ==> n as real / p >= 0.0
  {
    assert (n as real / p) * p == n as real;
    if x >= 0.0 {
      assert x * p >= 0.0;
      assert n >= 0;
    }
  }

  /** What a quick-fill click sets: nothing unless the balance is finite
      and positive and the chosen fraction of it is finite and positive;
      otherwise that fraction rounded to `decimals` places. */
  function QuickFillAmount(balance: JsNumber, percentage: JsNumber, decimals: nat): (r: Option<real>)
    ensures r.Some? <==> balance.Finite? && balance.value > 0.0 && percentage.Finite? && percentage.value > 0.0
    ensures r.Some? ==> r.value == RoundToDecimals(balance.value * percentage.value, decimals) && r.value >= 0.0
  {
    if !balance.Finite? || balance.value <= 0.0 then None
    else
      var targetAmount := Mul(balance, percentage);
      if !targetAmount.Finite? || targetAmount.value <= 0.0 then None
      else
        assert targetAmount.value == balance.value * percentage.value;
        assert percentage.Finite? && percentage.value > 0.0;
        RoundToDecimalsIsNearest(targetAmount.value, decimals, Utils.Pow10(decimals));
        Some(RoundToDecimals(targetAmount.value, decimals))
  }

  /** Rounding a value that already has at most `decimals` places changes nothing. */
  lemma RoundingIsExactOnRepresentable(x: real, decimals: nat)
    requires Utils.IsIntegral(x * Utils.Pow10(decimals))
    ensures RoundToDecimals(x, decimals) == x
  {
    ExactAtScale(x, Utils.Pow10(decimals));
  }

  lemma ExactAtScale(x: real, scale: real)
    requires scale >= 1.0 && Utils.IsIntegral(x * scale)
    ensures RoundToScale(x, scale) == x
  {
    var y := x * scale;
    NearestWholeIsUnique(y, y.Floor);
    ScaleCancels(x, scale);
  }

  lemma ScaleCancels(x: real, p: real)
    requires p >= 1.0
    ensures (x * p) / p == x
  {
  }

  /** The "Max" button fills in exactly the balance when the balance has at
      most `decimals` places. */
  lemma MaxFillsWholeBalance(b: real, decimals: nat)
    requires b > 0.0 && Utils.IsIntegral(b * Utils.Pow10(decimals))
    ensures QuickFillAmount(Finite(b), Finite(1.0), decimals) == Some(b)
  {
    assert b * 1.0 == b;
    RoundingIsExactOnRepresentable(b, decimals);
  }

  /** A call the handler makes: `setAmount(formatted)` or `onAmountChange()`. */
  datatype FormCall = SetAmount(amount: real) | AmountChanged

  /** The closure `createQuickFillHandler` returns, with the calls it has
      made so far. */
  class QuickFillHandler {
    const balance: JsNumber
    const decimals: nat
    const hasOnAmountChange: bool
    var calls: seq<FormCall>

    /** `createQuickFillHandler(balance, setAmount, decimals, onAmountChange)`;
        `decimals` defaults to 6 and `onAmountChange` is optional. */
    constructor (balance: JsNumber, decimals: nat := 6, hasOnAmountChange: bool := false)
      ensures this.balance == balance && this.decimals == decimals
      ensures this.hasOnAmountChange == hasOnAmountChange && calls == []
    {
      this.balance := balance;
      this.decimals := decimals;
      this.hasOnAmountChange := hasOnAmountChange;
      calls := [];
    }

    /** One click on a quick-fill option: at most one `setAmount`, then
        `onAmountChange` when it was given. */
    method Apply(percentage: JsNumber)
      modifies this
      ensures QuickFillAmount(balance, percentage, decimals).None? ==> calls == old(calls)
      ensures QuickFillAmount(balance, percentage, decimals).Some? ==>
        calls == old(calls) + [SetAmount(QuickFillAmount(balance, percentage, decimals).value)]
                 + (if hasOnAmountChange then [AmountChanged] else [])
    {
      if !balance.Finite? || balance.value <= 0.0 {
        return;
      }
      var targetAmount := Mul(balance, percentage);
      if !targetAmount.Finite? || targetAmount.value <= 0.0 {
        return;
      }
      var formatted := RoundToDecimals(targetAmount.value, decimals);
      calls := calls + [SetAmount(formatted)];
      if hasOnAmountChange {
        calls := calls + [AmountChanged];
      }
    }
  }

  predicate IsTruthyId(id: Option<string>) {
    id.Some? && id.value != ""
  }

  /** `ids.filter(Boolean)`. */
  function TruthyIds(ids: seq<Option<string>>): (r: seq<string>)
    ensures |r| <= |ids|
    ensures forall i :: 0 <= i < |r| ==> r[i] != ""
    ensures r == [] <==> forall i :: 0 <= i < |ids| ==> !IsTruthyId(ids[i])
  {
    if ids == [] then []
    else
      var rest := TruthyIds(ids[1..]);
      assert forall i :: 1 <= i < |ids| ==> ids[i] == ids[1..][i - 1];
      if IsTruthyId(ids[0]) then [ids[0].value] + rest else rest
  }

  /** On a single id the filter keeps its string exactly when it is truthy;
      with `TruthyIdsAppend` this fixes which ids remain and in what order. */
  lemma TruthyIdsSingleton(id: Option<string>)
    ensures TruthyIds([id]) == if IsTruthyId(id) then [id.value] else []
  {
    assert [id][1..] == [];
  }

  /** The filter keeps the order of the ids: it distributes over concatenation. */
  lemma {:induction false} TruthyIdsAppend(a: seq<Option<string>>, b: seq<Option<string>>)
    ensures TruthyIds(a + b) == TruthyIds(a) + TruthyIds(b)
  {
    if a == [] {
      assert a + b == b;
    } else {
      assert (a + b)[1..] == a[1..] + b;
      TruthyIdsAppend(a[1..], b);
    }
  }

  /** `createAriaDescribedBy`: the truthy ids joined by single spaces, or
      undefined when none is left. */
  function CreateAriaDescribedBy(ids: seq<Option<string>>): (r: Option<string>)
    ensures r.None? <==> forall i :: 0 <= i < |ids| ==> !IsTruthyId(ids[i])
    ensures r.Some? ==> r.value == Join(TruthyIds(ids), " ") && r.value != ""
  {
    var validIds := TruthyIds(ids);
    if |validIds| > 0 then
      JoinLength(validIds, " ");
      Some(Join(validIds, " "))
    else None
  }

  /** One more id appends it after a space, or starts the list; a falsy id
      changes nothing. */
  lemma CreateAriaDescribedBySnoc(ids: seq<Option<string>>, id: Option<string>)
    ensures var before, after := CreateAriaDescribedBy(ids), CreateAriaDescribedBy(ids + [id]);
      && (!IsTruthyId(id) ==> after == before)
      && (IsTruthyId(id) && before.None? ==> after == Some(id.value))
      && (IsTruthyId(id) && before.Some? ==> after == Some(before.value + " " + id.value))
  {
    TruthyIdsAppend(ids, [id]);
    TruthyIdsSingleton(id);
    assert TruthyIds(ids) + [] == TruthyIds(ids);
    if IsTruthyId(id) && TruthyIds(ids) != [] {
      JoinSnoc(TruthyIds(ids), id.value, " ");
    }
  }

  /** `QUICK_FILL_PERCENTAGES`. */
  const QUICK_FILL_PERCENTAGES: seq<real> := [0.25, 0.5, 0.75, 1.0]

  /** The options are strictly ascending fractions of the balance ending at the whole balance. */
  lemma QuickFillPercentagesAreAscending()
    ensures forall i, j :: 0 <= i < j < |QUICK_FILL_PERCENTAGES| ==> QUICK_FILL_PERCENTAGES[i] < QUICK_FILL_PERCENTAGES[j]
    ensures forall i :: 0 <= i < |QUICK_FILL_PERCENTAGES| ==> 0.0 < QUICK_FILL_PERCENTAGES[i] <= 1.0
    ensures QUICK_FILL_PERCENTAGES[|QUICK_FILL_PERCENTAGES| - 1] == 1.0
  {
  }

  /** `formatQuickFillLabel`: "Max" for the whole balance, otherwise the
      percentage rounded to a whole number (`Math.round`) and "%". */
  function FormatQuickFillLabel(percentage: real): (r: string)
    ensures |r| >= 1
    ensures r == "Max" <==> percentage == 1.0
    ensures percentage != 1.0 ==> r[|r| - 1] == '%' && r[..|r| - 1] == IntToString((percentage * 100.0 + 0.5).Floor)
  {
    if percentage == 1.0 then "Max"
    else
      var r := IntToString((percentage * 100.0 + 0.5).Floor) + "%";
      assert r[|r| - 1] != "Max"[2];
      r
  }

  /** The labels of the four options. */
  lemma QuickFillLabels()
    ensures FormatQuickFillLabel(QUICK_FILL_PERCENTAGES[0]) == "25%"
    ensures FormatQuickFillLabel(QUICK_FILL_PERCENTAGES[1]) == "50%"
    ensures FormatQuickFillLabel(QUICK_FILL_PERCENTAGES[2]) == "75%"
    ensures FormatQuickFillLabel(QUICK_FILL_PERCENTAGES[3]) == "Max"
  {
    assert (0.25 * 100.0 + 0.5).Floor == 25;
    assert (0.5 * 100.0 + 0.5).Floor == 50;
    assert (0.75 * 100.0 + 0.5).Floor == 75;
    assert NatToString(25) == "25";
    assert NatToString(50) == "50";
    assert NatToString(75) == "75";
  }
}
