/** The alternative-investment form: loading a saved asset, its submit checks,
    the record it saves, and its currency and liquidity handlers. */
module AlternativeForm {
  import opened Wrappers
  import opened Js
  import opened FormFields

  /** The form state; `rate` holds the currency and the exchange-rate fields,
      `investmentDate` is saved as the asset's open date. */
  datatype AlternativeFormData = AlternativeFormData(
    assetTypeKey: string, description: string, rate: RateFields,
    originalInvestment: NumText, currentValue: NumText, investmentDate: string,
    status: string, notes: string, liquidity: LiquidityData)

  /** A new or unset liquidity record: not immediately liquid, no release date. */
  const DefaultLiquidity := LiquidityData(false, "")

  /** The empty form of a new investment. */
  function FreshForm(today: string): (f: AlternativeFormData)
    ensures f.rate == RateFields(Ils, Manual, Blank, today)
    ensures !f.liquidity.isImmediatelyLiquid && f.liquidity.releaseDate == ""
    ensures f.status == "active"
  {
    AlternativeFormData("", "", RateFields(Ils, Manual, Blank, today),
                        Blank, Blank, "", "active", "", DefaultLiquidity)
  }

  /** A saved alternative asset as the form reads it; `None` is absent or null. */
  datatype StoredAlternative = StoredAlternative(
    assetTypeKey: Option<string>, description: Option<string>, currency: Option<string>,
    originalInvestmentValue: Option<real>, currentValue: Option<real>, openDate: Option<string>,
    investmentStatus: Option<string>, notes: Option<string>, liquidity: Option<LiquidityData>,
    exchangeRate: Option<real>, exchangeRateDate: Option<string>)

  /** The form filled from a saved asset: missing fields fall back to the
      defaults of a new form, in particular a missing liquidity record. */
  function Load(a: StoredAlternative, today: string): (f: AlternativeFormData)
    ensures a.liquidity.None? ==> f.liquidity == DefaultLiquidity
    ensures a.liquidity.Some? ==> f.liquidity == a.liquidity.value
    ensures f.rate == LoadRate(a.currency, a.exchangeRate, a.exchangeRateDate, today)
    ensures f.investmentDate == a.openDate.GetOr("") && f.currentValue == LoadNumber(a.currentValue)
  {
    AlternativeFormData(
      LoadText(a.assetTypeKey, ""), LoadText(a.description, ""),
      LoadRate(a.currency, a.exchangeRate, a.exchangeRateDate, today),
      LoadNumber(a.originalInvestmentValue), LoadNumber(a.currentValue), LoadText(a.openDate, ""),
      LoadText(a.investmentStatus, "active"), LoadText(a.notes, ""),
      LoadLiquidity(a.liquidity, DefaultLiquidity))
  }

  // ---------------------------------------------------------------------------
  // Submit

  datatype AlternativeError = TypeMissing | DescriptionMissing | ValueInvalid | CurrencyMissing | RateMissing

  function ErrorMessage(e: AlternativeError): string {
    match e
    case TypeMissing => "נא לבחור סוג נכס."
    case DescriptionMissing => "נא למלא שם הנכס / השקעה."
    case ValueInvalid => "נא למלא שווי נוכחי מוערך במספרים."
    case CurrencyMissing => "נא לבחור מטבע."
    case RateMissing => RateMessage
  }

  /** The first failing check of `handleSubmit`, `None` when all pass. */
  function Validate(f: AlternativeFormData): (r: Option<AlternativeError>)
    ensures f.assetTypeKey == "" ==> r == Some(TypeMissing)
    ensures f.assetTypeKey != "" && Trim(f.description) == "" ==> r == Some(DescriptionMissing)
    ensures (f.assetTypeKey != "" && Trim(f.description) != "" && f.currentValue.MissingOrNaN())
              ==> r == Some(ValueInvalid)
    ensures (f.assetTypeKey != "" && Trim(f.description) != "" && f.currentValue.Numeric? && f.rate.currency == "")
              ==> r == Some(CurrencyMissing)
    ensures r == Some(RateMissing) ==> RateInvalid(f.rate)
    ensures r.None? <==>
              && f.assetTypeKey != "" && Trim(f.description) != "" && f.currentValue.Numeric?
              && f.rate.currency != "" && !RateInvalid(f.rate)
  {
    if f.assetTypeKey == "" then Some(TypeMissing)
    else if Trim(f.description) == "" then Some(DescriptionMissing)
    else if f.currentValue.MissingOrNaN() then Some(ValueInvalid)
    else if f.rate.currency == "" then Some(CurrencyMissing)
    else if RateInvalid(f.rate) then Some(RateMissing)
    else None
  }

  /** The saved record (`dataToSubmit`); `None` is null. */
  datatype AlternativePayload = AlternativePayload(
    category: string, assetTypeKey: string, description: string, currency: string,
    originalInvestmentValue: Option<real>, currentValue: real, openDate: string,
    investmentStatus: string, notes: string, lastUpdatedManual: string, updateMethod: string,
    liquidity: LiquidityData, exchangeRate: Option<real>, exchangeRateDate: Option<string>)

  /** `dataToSubmit`, built once the checks pass; `now` is the save time. */
  function Payload(f: AlternativeFormData, now: string): (p: AlternativePayload)
    requires Validate(f).None?
    ensures p.category == "alternative_assets" && p.updateMethod == "manual"
    ensures p.description == f.description && p.currentValue == f.currentValue.value
    ensures p.openDate == f.investmentDate && p.investmentStatus == f.status
    ensures p.originalInvestmentValue.Some? <==> f.originalInvestment.Numeric?
    ensures p.originalInvestmentValue.Some? ==> p.originalInvestmentValue.value == f.originalInvestment.value
    ensures p.liquidity == f.liquidity
    ensures p.currency == f.rate.currency != ""
    ensures p.exchangeRate.None? <==> f.rate.currency == Ils
    ensures p.exchangeRate.Some? ==> p.exchangeRate.value == f.rate.rate.value > 0.0
    ensures p.exchangeRateDate.Some? ==> p.exchangeRate.Some? && p.exchangeRateDate.value == f.rate.rateDate
  {
    SavedRateFacts(f.rate);
    AlternativePayload(
      "alternative_assets", f.assetTypeKey, f.description, f.rate.currency,
      if f.originalInvestment.Truthy() then f.originalInvestment.ToNumber() else None,
      f.currentValue.value, f.investmentDate, f.status, f.notes, now, "manual",
      f.liquidity, SavedRate(f.rate), SavedRateDate(f.rate))
  }

  datatype SubmitOutcome = Rejected(message: string) | Saved(payload: AlternativePayload)

  /** `handleSubmit`: the first failing check's message, or the record saved. */
  function Submit(f: AlternativeFormData, now: string): (r: SubmitOutcome)
    ensures r.Rejected? <==> Validate(f).Some?
    ensures r.Rejected? ==> r.message == ErrorMessage(Validate(f).value)
    ensures r.Saved? ==> r.payload == Payload(f, now)
  {
    match Validate(f)
    case Some(e) => Rejected(ErrorMessage(e))
    case None => Saved(Payload(f, now))
  }

  /** Opening a saved asset and saving it unchanged keeps its current value,
      original investment, open date, liquidity record and (for a foreign
      currency) its exchange rate; an asset saved without a liquidity record
      comes back with the default one. */
  lemma {:induction false} LoadThenSave(a: StoredAlternative, today: string, now: string)
    requires Validate(Load(a, today)).None?
    ensures var p := Payload(Load(a, today), now);
      && Some(p.currentValue) == a.currentValue
      && p.originalInvestmentValue == a.originalInvestmentValue
      && p.openDate == a.openDate.GetOr("")
      && p.liquidity == a.liquidity.GetOr(DefaultLiquidity)
      && (p.currency != Ils ==> p.exchangeRate == a.exchangeRate)
  {
    var f := Load(a, today);
    assert a.currentValue.Some?;
    var p := Payload(f, now);
    if p.currency != Ils {
      LoadThenSaveRate(p.currency, a.exchangeRate, a.exchangeRateDate, today);
    }
  }

  // ---------------------------------------------------------------------------
  // Handlers

  /** `handleCurrencyChange`; nothing outside the rate fields changes. */
  function ChangeCurrency(prev: AlternativeFormData, value: string, today: string): (next: AlternativeFormData)
    ensures next == prev.(rate := next.rate)
    ensures next.rate.currency == value && next.rate.rate == Blank && next.rate.rateDate == today
    ensures next.rate.source == (if value == Ils then Manual else prev.rate.source)
  {
    prev.(rate := CurrencyChange(prev.rate, value, today))
  }

  /** A form that could be saved cannot be saved right after switching to
      another foreign currency, and the reason given is the missing rate. */
  lemma {:induction false} ForeignCurrencyNeedsRate(f: AlternativeFormData, value: string, today: string)
    requires Validate(f).None? && value != Ils && value != ""
    ensures Validate(ChangeCurrency(f, value, today)) == Some(RateMissing)
  {
    CurrencyChangeNeedsNewRate(f.rate, value, today);
  }

  /** The "immediately liquid" switch; nothing outside `liquidity` changes. */
  function SwitchLiquid(prev: AlternativeFormData, checked: bool): (next: AlternativeFormData)
    ensures next == prev.(liquidity := next.liquidity)
    ensures next.liquidity.isImmediatelyLiquid == checked && ConsistentLiquidity(next.liquidity)
    ensures !checked ==> next.liquidity.releaseDate == prev.liquidity.releaseDate
  {
    ToggleLiquidFacts(prev.liquidity);
    prev.(liquidity := ToggleLiquid(prev.liquidity, checked))
  }
}
