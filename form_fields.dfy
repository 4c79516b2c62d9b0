/** The parts the financial, alternative and real-estate asset forms share:
    the currency and exchange-rate fields with their submit check and saved
    values, the record loaded from a saved asset, and the "immediately liquid"
    switch. Dates are kept as the text the form holds ("" when empty). */
module FormFields {
  import opened Wrappers
  import opened Js
  import EconomicData

  const Ils := "ILS"

  /** The message every form shows when the rate guard fails. */
  const RateMessage := "עבור מטבע שאינו ש\"ח, נא למלא שער המרה חיובי."

  /** `exchange_rate_source`: typed by the user, or taken from the stored
      economic data. */
  datatype RateSource = Manual | System

  /** `currency`, `exchange_rate_source`, `exchange_rate` and `exchange_rate_date`. */
  datatype RateFields = RateFields(currency: string, source: RateSource, rate: NumText, rateDate: string)

  // ---------------------------------------------------------------------------
  // The exchange rate on submit

  /** The submit guard: a currency other than ILS needs a rate that reads as a
      number above zero (`!rate || isNaN(Number(rate)) || Number(rate) <= 0`). */
  predicate RateInvalid(f: RateFields) {
    f.currency != Ils && (f.rate.MissingOrNaN() || f.rate.value <= 0.0)
  }

  /** The saved `exchange_rate`: null for ILS and for an empty rate, and
      `Number(rate)` otherwise (NaN is saved as null). */
  function SavedRate(f: RateFields): (r: Option<real>)
    ensures r.Some? ==> f.currency != Ils && f.rate.Numeric? && r.value == f.rate.value
    ensures !RateInvalid(f) && f.currency != Ils ==> r.Some? && r.value > 0.0
  {
    if f.currency != Ils && f.rate.Truthy() then f.rate.ToNumber() else None
  }

  /** The saved `exchange_rate_date`: kept only beside a rate and only when
      the date is not empty. */
  function SavedRateDate(f: RateFields): (r: Option<string>)
    ensures r.Some? ==> r.value == f.rateDate && r.value != "" && f.currency != Ils && f.rate.Truthy()
    ensures !RateInvalid(f) && f.currency != Ils && f.rateDate != "" ==> r == Some(f.rateDate)
  {
    if f.currency != Ils && f.rate.Truthy() && f.rateDate != "" then Some(f.rateDate) else None
  }

  /** Whatever passes the submit guard is saved with a rate above zero unless
      the currency is ILS, in which case neither rate nor date is saved; a date
      never appears without its rate. */
  lemma {:induction false} SavedRateFacts(f: RateFields)
    requires !RateInvalid(f)
    ensures f.currency == Ils <==> SavedRate(f).None?
    ensures SavedRate(f).Some? ==> SavedRate(f).value > 0.0
    ensures SavedRateDate(f).Some? ==> SavedRate(f).Some?
  {
    if f.currency != Ils {
      assert f.rate.Numeric?;
    }
  }

  // ---------------------------------------------------------------------------
  // Handlers

  /** `handleCurrencyChange`: the new currency, an empty rate dated today, and
      the source forced to manual for ILS (kept otherwise). */
  function CurrencyChange(prev: RateFields, value: string, today: string): (next: RateFields)
    ensures next.currency == value && next.rate == Blank && next.rateDate == today
    ensures value == Ils ==> next.source == Manual
    ensures value != Ils ==> next.source == prev.source
  {
    RateFields(value, if value == Ils then Manual else prev.source, Blank, today)
  }

  /** After a currency change the form cannot be saved with a foreign currency
      until a rate is entered again, and for ILS nothing about the rate is saved. */
  lemma {:induction false} CurrencyChangeNeedsNewRate(prev: RateFields, value: string, today: string)
    ensures RateInvalid(CurrencyChange(prev, value, today)) <==> value != Ils
    ensures SavedRate(CurrencyChange(prev, value, today)).None?
    ensures SavedRateDate(CurrencyChange(prev, value, today)).None?
  {
    var next := CurrencyChange(prev, value, today);
    assert next.rate.MissingOrNaN();
  }

  /** The economic indicator a system rate is read from: only USD and EUR
      have one, and it is one of the two rates the economic-data page edits. */
  function SystemRateIndicator(currency: string): (r: Option<string>)
    ensures r.Some? <==> currency == "USD" || currency == "EUR"
    ensures currency == "USD" ==> r == Some(EconomicData.UsdIls)
    ensures currency == "EUR" ==> r == Some(EconomicData.EurIls)
    ensures r.Some? ==> EconomicData.CardDetails(r.value).editable
  {
    if currency == "USD" then Some(EconomicData.UsdIls)
    else if currency == "EUR" then Some(EconomicData.EurIls)
    else None
  }

  // ---------------------------------------------------------------------------
  // Loading a saved asset

  /** `x?.toString() || ''`: a saved number becomes its text (never empty,
      `"0"` included) and a missing one the empty field. */
  function LoadNumber(x: Option<real>): (t: NumText)
    ensures x.Some? ==> t == Numeric(x.value)
    ensures x.None? ==> t == Blank
  {
    if x.Some? then Numeric(x.value) else Blank
  }

  /** `s || fallback` on a saved text field. */
  function LoadText(s: Option<string>, fallback: string): (t: string)
    ensures s.Some? && s.value != "" ==> t == s.value
    ensures s.None? || s.value == "" ==> t == fallback
  {
    if s.Some? && s.value != "" then s.value else fallback
  }

  /** The rate fields a saved asset loads into: the source is manual exactly
      when a non-zero rate was saved; the rate text is the saved number (`""`
      when absent); an absent date becomes today. */
  function LoadRate(currency: Option<string>, rate: Option<real>, rateDate: Option<string>, today: string): (f: RateFields)
    ensures f.source == Manual <==> TruthyNumber(rate)
    ensures f.currency != ""
    ensures currency.Some? && currency.value != "" ==> f.currency == currency.value
    ensures rate.None? ==> f.rate == Blank
    ensures rate.Some? ==> f.rate == Numeric(rate.value)
  {
    RateFields(LoadText(currency, Ils), if TruthyNumber(rate) then Manual else System,
               LoadNumber(rate), LoadText(rateDate, today))
  }

  /** Saving a loaded asset unchanged gives back the rate it was loaded with,
      for every currency other than ILS. */
  lemma {:induction false} LoadThenSaveRate(currency: string, rate: Option<real>, rateDate: Option<string>, today: string)
    requires currency != Ils && currency != ""
    ensures SavedRate(LoadRate(Some(currency), rate, rateDate, today)) == rate
  {
    var f := LoadRate(Some(currency), rate, rateDate, today);
    assert f.currency == currency;
  }

  // ---------------------------------------------------------------------------
  // Liquidity

  /** `liquidity_data` of the financial and alternative forms. */
  datatype LiquidityData = LiquidityData(isImmediatelyLiquid: bool, releaseDate: string)

  /** An immediately liquid record carries no release date. */
  predicate ConsistentLiquidity(l: LiquidityData) {
    l.isImmediatelyLiquid ==> l.releaseDate == ""
  }

  /** The "immediately liquid" switch: on clears the release date, off keeps
      the previous one. */
  function ToggleLiquid(prev: LiquidityData, checked: bool): (next: LiquidityData)
    ensures next.isImmediatelyLiquid == checked
    ensures checked ==> next.releaseDate == ""
    ensures !checked ==> next.releaseDate == prev.releaseDate
  {
    prev.(isImmediatelyLiquid := checked, releaseDate := if checked then "" else prev.releaseDate)
  }

  /** The switch always leaves a consistent record; switching on and off
      again loses the release date for good, while off then on is the same as on. */
  lemma {:induction false} ToggleLiquidFacts(prev: LiquidityData)
    ensures forall c :: ConsistentLiquidity(ToggleLiquid(prev, c))
    ensures ToggleLiquid(ToggleLiquid(prev, true), false) == LiquidityData(false, "")
    ensures ToggleLiquid(ToggleLiquid(prev, false), true) == ToggleLiquid(prev, true)
  {
  }

  /** `asset.liquidity_data || fallback`: a missing record reads as the form's default. */
  function LoadLiquidity(saved: Option<LiquidityData>, fallback: LiquidityData): (l: LiquidityData)
    ensures saved.Some? ==> l == saved.value
    ensures saved.None? ==> l == fallback
  {
    saved.GetOr(fallback)
  }
}
