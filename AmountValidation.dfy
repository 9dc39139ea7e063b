/** The amount check shared by the deposit and withdraw forms
    (src/hooks/useAmountValidation.ts), as a function of its inputs. */
module AmountValidation {
  import opened Wrappers
  import opened Js
  import opened Text
  import Utils

  datatype ActionType = Deposit | Withdraw

  function ActionName(a: ActionType): string {
    match a
    case Deposit => "deposit"
    case Withdraw => "withdraw"
  }

  /** What the hook returns. */
  datatype ValidationResult = ValidationResult(
    parsedAmount: JsNumber,
    isValid: bool,
    isPositive: bool,
    exceedsBalance: bool,
    validationMessage: string)

  /** Thousands separators removed, surrounding whitespace trimmed. */
  function NormaliseAmountInput(amount: string): (r: string)
    ensures r == Trim(RemoveCommas(amount))
    ensures ',' !in r
  {
    var t := Trim(RemoveCommas(amount));
    assert forall i :: 0 <= i < |t| ==> t[i] == RemoveCommas(amount)[LeadingWhitespace(RemoveCommas(amount)) + i];
    t
  }

  /** The memoised `parsedAmount`: NaN for an empty input, for an input
      that normalises to "" or ".", and for a parse that is not finite. */
  function ParseAmount(amount: string, parseFloat: NumberParser): (r: JsNumber)
    ensures r.Finite? || r.NaN?
    ensures amount == "" || NormaliseAmountInput(amount) in {"", "."} ==> r.NaN?
    ensures r.Finite? ==> r == parseFloat(NormaliseAmountInput(amount))
    ensures amount != "" && NormaliseAmountInput(amount) !in {"", "."} && parseFloat(NormaliseAmountInput(amount)).Finite? ==>
      r == parseFloat(NormaliseAmountInput(amount))
  {
    if amount == "" then NaN
    else
      var normalized := NormaliseAmountInput(amount);
      if normalized == "" || normalized == "." then NaN
      else
        var parsed := parseFloat(normalized);
        if parsed.Finite? then parsed else NaN
  }

  /** `parsed > availableBalance` for a finite parsed amount. */
  predicate GreaterThan(x: real, balance: JsNumber) {
    match balance
    case Finite(b) => x > b
    case NegInfinity => true
    case _ => false
  }

  /** `useAmountValidation` with the parser and the number formatter as
      inputs. `availableBalance` is None for null or absent. */
  function UseAmountValidation(
    amount: string,
    availableBalance: Option<JsNumber>,
    baseAsset: string,
    actionType: ActionType,
    checkBalance: bool,
    parseFloat: NumberParser,
    toLocale: real -> string): (r: ValidationResult)
    ensures r.parsedAmount == ParseAmount(amount, parseFloat)
    ensures amount == "" ==> r.parsedAmount.NaN? && !r.isValid && r.validationMessage == ""
    ensures r.isPositive <==> r.parsedAmount.Finite? && r.parsedAmount.value > 0.0
    ensures r.exceedsBalance <==>
      checkBalance && availableBalance.Some? && r.isPositive && GreaterThan(r.parsedAmount.value, availableBalance.value)
    ensures r.isValid <==> r.isPositive && !r.exceedsBalance
    ensures amount != "" && !r.isPositive ==> r.validationMessage == "Enter a positive " + ActionName(actionType) + " amount"
    ensures r.exceedsBalance ==>
      r.validationMessage == "Amount exceeds available balance ("
        + Utils.FormatNumber(availableBalance.value, toLocale) + " " + baseAsset + ")"
    ensures r.validationMessage == "" <==> amount == "" || r.isValid
  {
    var parsedAmount := ParseAmount(amount, parseFloat);
    var isPositive := parsedAmount.Finite? && parsedAmount.value > 0.0;
    var exceedsBalance :=
      if !checkBalance || availableBalance.None? || !isPositive then false
      else GreaterThan(parsedAmount.value, availableBalance.value);
    var validationMessage :=
      if amount == "" then ""
      else if !isPositive then "Enter a positive " + ActionName(actionType) + " amount"
      else if checkBalance && exceedsBalance && availableBalance.Some? then
        "Amount exceeds available balance (" + Utils.FormatNumber(availableBalance.value, toLocale) + " " + baseAsset + ")"
      else "";
    ValidationResult(parsedAmount, isPositive && !exceedsBalance, isPositive, exceedsBalance, validationMessage)
  }

  /** An amount equal to the balance is allowed; only a strictly larger one is refused. */
  lemma AmountEqualToBalanceIsValid(amount: string, b: real, baseAsset: string, actionType: ActionType,
                                    parseFloat: NumberParser, toLocale: real -> string)
    requires b > 0.0
    requires amount != "" && NormaliseAmountInput(amount) !in {"", "."}
    requires parseFloat(NormaliseAmountInput(amount)) == Finite(b)
    ensures UseAmountValidation(amount, Some(Finite(b)), baseAsset, actionType, true, parseFloat, toLocale).isValid
  {
  }

  /** Turning the balance check off, or having no balance, only removes the
      over-balance refusal: validity is then exactly positivity. */
  lemma NoCeilingMeansPositiveIsValid(amount: string, availableBalance: Option<JsNumber>, baseAsset: string,
                                      actionType: ActionType, checkBalance: bool,
                                      parseFloat: NumberParser, toLocale: real -> string)
    requires !checkBalance || availableBalance.None?
    ensures var r := UseAmountValidation(amount, availableBalance, baseAsset, actionType, checkBalance, parseFloat, toLocale);
      r.isValid <==> r.isPositive
  {
  }

  /** A non-empty input whose normalised text parses to a finite positive
      number is accepted as positive; it is valid unless the balance check
      is on and the amount is larger than the balance, and then no message
      is shown. Any other non-empty input gets the positive-amount message. */
  lemma PositiveParseIsAccepted(amount: string, availableBalance: Option<JsNumber>, baseAsset: string,
                                actionType: ActionType, checkBalance: bool,
                                parseFloat: NumberParser, toLocale: real -> string)
    requires amount != ""
    ensures var r := UseAmountValidation(amount, availableBalance, baseAsset, actionType, checkBalance, parseFloat, toLocale);
      var n := NormaliseAmountInput(amount);
      && (r.isPositive <==> n !in {"", "."} && parseFloat(n).Finite? && parseFloat(n).value > 0.0)
      && (r.isPositive && !(checkBalance && availableBalance.Some? && GreaterThan(parseFloat(n).value, availableBalance.value)) ==>
            r.isValid && r.validationMessage == "")
      && (!r.isPositive ==> r.validationMessage == "Enter a positive " + ActionName(actionType) + " amount")
  {
  }

  /** Thousands separators do not change the amount: a comma between two
      parts of the input is dropped before parsing. */
  lemma {:induction false} ThousandsSeparatorIsIgnored(a: string, b: string)
    ensures NormaliseAmountInput(a + "," + b) == NormaliseAmountInput(a + b)
  {
    RemoveCommasAppend(a + ",", b);
    RemoveCommasAppend(a, ",");
    RemoveCommasAppend(a, b);
    RemoveCommasSingleton(',');
    assert RemoveCommas(a) + [] == RemoveCommas(a);
  }
}
