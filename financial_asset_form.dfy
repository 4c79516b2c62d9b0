/** The financial-instrument form: its submit checks, the record it saves,
    and its currency and liquidity handlers. */
module FinancialAssetForm {
  import opened Wrappers
  import opened Js
  import opened FormFields

  /** The form state; `rate` holds the currency and the exchange-rate fields. */
  datatype FinancialFormData = FinancialFormData(
    assetTypeKey: string, description: string, symbol: string, rate: RateFields,
    quantity: NumText, purchasePrice: NumText, currentValue: NumText,
    updateMethod: string, exchange: string, notes: string, liquidity: LiquidityData)

  /** A new instrument starts immediately liquid, with no release date. */
  const DefaultLiquidity := LiquidityData(true, "")

  /** The empty form of a new instrument. */
  function FreshForm(today: string): (f: FinancialFormData)
    ensures f.rate == RateFields(Ils, Manual, Blank, today)
    ensures f.liquidity == DefaultLiquidity && ConsistentLiquidity(f.liquidity)
  {
    FinancialFormData("", "", "", RateFields(Ils, Manual, Blank, today),
                      Blank, Blank, Blank, "manual", "", "", DefaultLiquidity)
  }

  // ---------------------------------------------------------------------------
  // Submit

  datatype FinancialError = TypeMissing | DescriptionMissing | ValueInvalid | QuantityInvalid | RateMissing

  function ErrorMessage(e: FinancialError): string {
    match e
    case TypeMissing => "נא לבחור סוג מכשיר פינнси."
    case DescriptionMissing => "נא למלא שם הנייר / תיאור."
    case ValueInvalid => "נא למלא שווי נוכחי במספרים."
    case QuantityInvalid => "נא למלא כמות במספרים."
    case RateMissing => RateMessage
  }

  /** The first failing check of `handleSubmit`, `None` when all pass. */
  function Validate(f: FinancialFormData): (r: Option<FinancialError>)
    ensures f.assetTypeKey == "" ==> r == Some(TypeMissing)
    ensures f.assetTypeKey != "" && Trim(f.description) == "" ==> r == Some(DescriptionMissing)
    ensures (f.assetTypeKey != "" && Trim(f.description) != "" && f.currentValue.MissingOrNaN())
              ==> r == Some(ValueInvalid)
    ensures (f.assetTypeKey != "" && Trim(f.description) != "" && f.currentValue.Numeric? && f.quantity.MissingOrNaN())
              ==> r == Some(QuantityInvalid)
    ensures r == Some(RateMissing) ==> RateInvalid(f.rate)
    ensures r.None? <==>
              && f.assetTypeKey != "" && Trim(f.description) != ""
              && f.currentValue.Numeric? && f.quantity.Numeric? && !RateInvalid(f.rate)
  {
    if f.assetTypeKey == "" then Some(TypeMissing)
    else if Trim(f.description) == "" then Some(DescriptionMissing)
    else if f.currentValue.MissingOrNaN() then Some(ValueInvalid)
    else if f.quantity.MissingOrNaN() then Some(QuantityInvalid)
    else if RateInvalid(f.rate) then Some(RateMissing)
    else None
  }

  /** The saved record (`dataToSubmit`); `None` is null. */
  datatype FinancialPayload = FinancialPayload(
    category: string, assetTypeKey: string, description: string, symbol: string, currency: string,
    quantity: real, averagePurchasePrice: Option<real>, currentValue: real,
    updateMethod: string, exchangePlatform: string, notes: string, lastUpdatedManual: string,
    liquidity: LiquidityData, exchangeRate: Option<real>, exchangeRateDate: Option<string>)

  /** `dataToSubmit`, built once the checks pass; `now` is the save time. The
      description is saved as typed, the symbol upper-cased, quantity and value
      as `Number(...) || 0`, the purchase price only when one was typed. */
  function Payload(f: FinancialFormData, now: string): (p: FinancialPayload)
    requires Validate(f).None?
    ensures p.category == "financial_instruments" && p.description == f.description
    ensures |p.symbol| == |f.symbol| && forall i :: 0 <= i < |p.symbol| ==> !('a' <= p.symbol[i] <= 'z')
    ensures forall i :: 0 <= i < |f.symbol| ==> p.symbol[i] == UpperChar(f.symbol[i])
    ensures p.quantity == f.quantity.value && p.currentValue == f.currentValue.value
    ensures p.averagePurchasePrice.Some? <==> f.purchasePrice.Numeric?
    ensures p.averagePurchasePrice.Some? ==> p.averagePurchasePrice.value == f.purchasePrice.value
    ensures p.liquidity == f.liquidity
    ensures p.currency == f.rate.currency
    ensures p.exchangeRate.None? <==> f.rate.currency == Ils
    ensures p.exchangeRate.Some? ==> p.exchangeRate.value == f.rate.rate.value > 0.0
    ensures p.exchangeRateDate.Some? ==> p.exchangeRate.Some? && p.exchangeRateDate.value == f.rate.rateDate
  {
    SavedRateFacts(f.rate);
    FinancialPayload(
      "financial_instruments", f.assetTypeKey, f.description, ToUpper(f.symbol), f.rate.currency,
      f.quantity.NumberOrZero(),
      if f.purchasePrice.Truthy() then f.purchasePrice.ToNumber() else None,
      f.currentValue.NumberOrZero(),
      f.updateMethod, f.exchange, f.notes, now, f.liquidity,
      SavedRate(f.rate), SavedRateDate(f.rate))
  }

  datatype SubmitOutcome = Rejected(message: string) | Saved(payload: FinancialPayload)

  /** `handleSubmit`: the first failing check's message, or the record saved. */
  function Submit(f: FinancialFormData, now: string): (r: SubmitOutcome)
    ensures r.Rejected? <==> Validate(f).Some?
    ensures r.Rejected? ==> r.message == ErrorMessage(Validate(f).value)
    ensures r.Saved? ==> r.payload == Payload(f, now)
  {
    match Validate(f)
    case Some(e) => Rejected(ErrorMessage(e))
    case None => Saved(Payload(f, now))
  }

  // ---------------------------------------------------------------------------
  // Handlers

  /** `handleCurrencyChange`; nothing outside the rate fields changes. */
  function ChangeCurrency(prev: FinancialFormData, value: string, today: string): (next: FinancialFormData)
    ensures next == prev.(rate := next.rate)
    ensures next.rate.currency == value && next.rate.rate == Blank && next.rate.rateDate == today
    ensures next.rate.source == (if value == Ils then Manual else prev.rate.source)
  {
    prev.(rate := CurrencyChange(prev.rate, value, today))
  }

  /** A form that could be saved cannot be saved right after switching to a
      foreign currency, and the reason given is the missing rate. */
  lemma {:induction false} ForeignCurrencyNeedsRate(f: FinancialFormData, value: string, today: string)
    requires Validate(f).None? && value != Ils
    ensures Validate(ChangeCurrency(f, value, today)) == Some(RateMissing)
  {
    CurrencyChangeNeedsNewRate(f.rate, value, today);
  }

  /** The "immediately liquid" switch; nothing outside `liquidity` changes. */
  function SwitchLiquid(prev: FinancialFormData, checked: bool): (next: FinancialFormData)
    ensures next == prev.(liquidity := next.liquidity)
    ensures next.liquidity.isImmediatelyLiquid == checked && ConsistentLiquidity(next.liquidity)
    ensures !checked ==> next.liquidity.releaseDate == prev.liquidity.releaseDate
  {
    ToggleLiquidFacts(prev.liquidity);
    prev.(liquidity := ToggleLiquid(prev.liquidity, checked))
  }
}
