/** The real-estate form: its submit checks, the default description, the
    record it saves, and the rent-indexation and property-type handlers. */
module RealEstateForm {
  import opened Wrappers
  import opened Js
  import opened FormFields

  const InvestmentApartmentKey := "investment_apartment"

  /** The label shown for a property type. */
  function PropertyTypeLabel(typeKey: string): Option<string> {
    if typeKey == "residential_apartment" then Some("דירת מגורים")
    else if typeKey == InvestmentApartmentKey then Some("דירה להשקעה")
    else if typeKey == "office" then Some("משרד")
    else if typeKey == "retail" then Some("חנות / מסחרי")
    else if typeKey == "storage" then Some("מחסן")
    else if typeKey == "parking" then Some("חניה")
    else if typeKey == "land" then Some("קרקע")
    else if typeKey == "other" then Some("אחר")
    else None
  }

  /** The form state; `rate` holds the currency and the exchange-rate fields,
      `rentToLiquidAccount` is `liquidity_data.rent_to_liquid_account`. */
  datatype RealEstateFormData = RealEstateFormData(
    assetTypeKey: string, description: string, address: string, sizeSqm: NumText,
    rate: RateFields, currentValue: NumText, valuationSource: string, valuationDate: string,
    monthlyRentIncome: NumText, rentIndexationTypes: seq<string>, otherRentIndexationDetails: string,
    notes: string, rentToLiquidAccount: bool)

  // ---------------------------------------------------------------------------
  // Submit

  datatype RealEstateError =
    | TypeMissing | AddressMissing | SizeInvalid | ValueInvalid | ValuationSourceMissing
    | CurrencyMissing | RateMissing

  function ErrorMessage(e: RealEstateError): string {
    match e
    case TypeMissing => "נא לבחור סוג נכס."
    case AddressMissing => "נא למלא כתובת מלאה."
    case SizeInvalid => "נא למלא שטח במ\"ר במספרים."
    case ValueInvalid => "נא למלא שווי נוכחי במספרים."
    case ValuationSourceMissing => "נא לבחור מקור הערכת שווי."
    case CurrencyMissing => "נא לבחור מטבע."
    case RateMissing => RateMessage
  }

  /** The first failing check of `handleSubmit`, `None` when all pass. */
  function Validate(f: RealEstateFormData): (r: Option<RealEstateError>)
    ensures f.assetTypeKey == "" ==> r == Some(TypeMissing)
    ensures f.assetTypeKey != "" && Trim(f.address) == "" ==> r == Some(AddressMissing)
    ensures (f.assetTypeKey != "" && Trim(f.address) != "" && f.sizeSqm.MissingOrNaN()) ==> r == Some(SizeInvalid)
    ensures (f.assetTypeKey != "" && Trim(f.address) != "" && f.sizeSqm.Numeric? && f.currentValue.MissingOrNaN())
              ==> r == Some(ValueInvalid)
    ensures r == Some(ValuationSourceMissing) ==> f.valuationSource == ""
    ensures r == Some(CurrencyMissing) ==> f.rate.currency == ""
    ensures r == Some(RateMissing) ==> RateInvalid(f.rate)
    ensures r.None? <==>
              && f.assetTypeKey != "" && Trim(f.address) != "" && f.sizeSqm.Numeric? && f.currentValue.Numeric?
              && f.valuationSource != "" && f.rate.currency != "" && !RateInvalid(f.rate)
  {
    if f.assetTypeKey == "" then Some(TypeMissing)
    else if Trim(f.address) == "" then Some(AddressMissing)
    else if f.sizeSqm.MissingOrNaN() then Some(SizeInvalid)
    else if f.currentValue.MissingOrNaN() then Some(ValueInvalid)
    else if f.valuationSource == "" then Some(ValuationSourceMissing)
    else if f.rate.currency == "" then Some(CurrencyMissing)
    else if RateInvalid(f.rate) then Some(RateMissing)
    else None
  }

  /** The type label used in a default description; `נדל"ן` for an unknown type. */
  function DescriptionLabel(typeKey: string): (l: string)
    ensures PropertyTypeLabel(typeKey).Some? ==> l == PropertyTypeLabel(typeKey).value
    ensures l != [] && !IsSpace(l[0])
  {
    match PropertyTypeLabel(typeKey)
    case Some(name) => name
    case None => "נדל\"ן"
  }

  /** "<type label> ב<address>", the description of a record saved without one. */
  function DefaultDescription(typeKey: string, address: string): (d: string)
    ensures d == DescriptionLabel(typeKey) + " ב" + address
  {
    DescriptionLabel(typeKey) + " ב" + address
  }

  /** The saved description: the trimmed input, or the default one when
      nothing but white space was typed. */
  function SavedDescription(f: RealEstateFormData): (d: string)
    ensures Trim(f.description) != "" ==> d == Trim(f.description)
    ensures Trim(f.description) == "" ==> d == DefaultDescription(f.assetTypeKey, f.address)
  {
    if Trim(f.description) != "" then Trim(f.description)
    else DefaultDescription(f.assetTypeKey, f.address)
  }

  /** The saved description is never blank: a default one starts with the
      type label, which does not start with white space. */
  lemma {:induction false} SavedDescriptionNotBlank(f: RealEstateFormData)
    ensures Trim(SavedDescription(f)) != ""
  {
    var d := SavedDescription(f);
    if Trim(f.description) != "" {
      TrimIdempotentNonEmpty(f.description);
    } else {
      var typeLabel := DescriptionLabel(f.assetTypeKey);
      assert d[0] == typeLabel[0];
      TrimEmptyIff(d);
    }
  }

  /** The fields only an investment apartment saves (null for every other
      type); the indexation list stands for its JSON text. */
  datatype RentFields = RentFields(
    monthlyRentIncome: Option<real>, rentIndexationType: Option<seq<string>>,
    otherRentIndexationDetails: Option<string>, rentToLiquidAccount: Option<bool>)

  /** Rent income (when one was typed), the indexation list, the 'other'
      details (only with 'other' selected) and the liquidity record, all for
      investment apartments only. */
  function SavedRentFields(f: RealEstateFormData): (r: RentFields)
    ensures f.assetTypeKey != InvestmentApartmentKey ==> r == RentFields(None, None, None, None)
    ensures r.monthlyRentIncome.Some? ==> f.monthlyRentIncome.Numeric? && r.monthlyRentIncome.value == f.monthlyRentIncome.value
    ensures f.assetTypeKey == InvestmentApartmentKey ==>
              && (r.monthlyRentIncome.Some? <==> f.monthlyRentIncome.Numeric?)
              && r.rentIndexationType == Some(f.rentIndexationTypes)
              && r.rentToLiquidAccount == Some(f.rentToLiquidAccount)
              && (r.otherRentIndexationDetails.Some? <==> "other" in f.rentIndexationTypes)
    ensures r.otherRentIndexationDetails.Some? ==> r.otherRentIndexationDetails.value == f.otherRentIndexationDetails
  {
    if f.assetTypeKey != InvestmentApartmentKey then RentFields(None, None, None, None)
    else RentFields(
      if f.monthlyRentIncome.Truthy() then f.monthlyRentIncome.ToNumber() else None,
      Some(f.rentIndexationTypes),
      if "other" in f.rentIndexationTypes then Some(f.otherRentIndexationDetails) else None,
      Some(f.rentToLiquidAccount))
  }

  /** The saved record (`dataToSubmit`); `None` is null. */
  datatype RealEstatePayload = RealEstatePayload(
    category: string, assetTypeKey: string, description: string, address: string, size: real,
    currency: string, currentValue: real, valuationSource: string, lastValuationDate: string,
    rent: RentFields, notes: string, updateMethod: string, lastUpdatedManual: string,
    exchangeRate: Option<real>, exchangeRateDate: Option<string>)

  /** `dataToSubmit`, built once the checks pass; `now` is the save time. */
  function Payload(f: RealEstateFormData, now: string): (p: RealEstatePayload)
    requires Validate(f).None?
    ensures p.category == "real_estate" && p.updateMethod == "manual"
    ensures p.description == SavedDescription(f)
    ensures p.size == f.sizeSqm.value && p.currentValue == f.currentValue.value
    ensures p.lastValuationDate == f.valuationDate
    ensures p.rent == SavedRentFields(f)
    ensures p.currency == f.rate.currency != ""
    ensures p.exchangeRate.None? <==> f.rate.currency == Ils
    ensures p.exchangeRate.Some? ==> p.exchangeRate.value == f.rate.rate.value > 0.0
    ensures p.exchangeRateDate.Some? ==> p.exchangeRate.Some? && p.exchangeRateDate.value == f.rate.rateDate
  {
    SavedRateFacts(f.rate);
    RealEstatePayload(
      "real_estate", f.assetTypeKey, SavedDescription(f), f.address, f.sizeSqm.value,
      f.rate.currency, f.currentValue.value, f.valuationSource, f.valuationDate,
      SavedRentFields(f), f.notes, "manual", now,
      SavedRate(f.rate), SavedRateDate(f.rate))
  }

  datatype SubmitOutcome = Rejected(message: string) | Saved(payload: RealEstatePayload)

  /** `handleSubmit`: the first failing check's message, or the record saved. */
  function Submit(f: RealEstateFormData, now: string): (r: SubmitOutcome)
    ensures r.Rejected? <==> Validate(f).Some?
    ensures r.Rejected? ==> r.message == ErrorMessage(Validate(f).value)
    ensures r.Saved? ==> r.payload == Payload(f, now)
  {
    match Validate(f)
    case Some(e) => Rejected(ErrorMessage(e))
    case None => Saved(Payload(f, now))
  }

  // ---------------------------------------------------------------------------
  // Handlers

  /** `handleRentIndexationChange`: checking appends the value; unchecking
      removes every copy of it, and unchecking 'other' also clears its details. */
  function RentIndexationChange(prev: RealEstateFormData, value: string, checked: bool): (next: RealEstateFormData)
    ensures next == prev.(rentIndexationTypes := next.rentIndexationTypes,
                          otherRentIndexationDetails := next.otherRentIndexationDetails)
    ensures value in next.rentIndexationTypes <==> checked
    ensures forall x :: x != value ==> (x in next.rentIndexationTypes <==> x in prev.rentIndexationTypes)
    ensures checked ==> next.rentIndexationTypes == prev.rentIndexationTypes + [value]
    ensures next.otherRentIndexationDetails == (if !checked && value == "other" then "" else prev.otherRentIndexationDetails)
  {
    if checked then prev.(rentIndexationTypes := prev.rentIndexationTypes + [value])
    else
      var remaining := Without(prev.rentIndexationTypes, value);
      if value == "other" then prev.(rentIndexationTypes := remaining, otherRentIndexationDetails := "")
      else prev.(rentIndexationTypes := remaining)
  }

  /** Checking a value not yet selected and then unchecking it restores the
      selection; a selection without repeats keeps none. */
  lemma {:induction false} RentIndexationCheckUncheck(prev: RealEstateFormData, value: string)
    requires value !in prev.rentIndexationTypes && value != "other"
    ensures RentIndexationChange(RentIndexationChange(prev, value, true), value, false) == prev
  {
    var xs := prev.rentIndexationTypes;
    WithoutAppend(xs, [value], value);
    WithoutAbsent(xs, value);
    assert Without([value], value) == [];
    assert Without(xs + [value], value) == xs;
  }

  /** Selecting rent indexations never introduces a repeat. */
  lemma {:induction false} RentIndexationNoRepeats(prev: RealEstateFormData, value: string, checked: bool)
    requires NoDuplicates(prev.rentIndexationTypes)
    requires checked ==> value !in prev.rentIndexationTypes
    ensures NoDuplicates(RentIndexationChange(prev, value, checked).rentIndexationTypes)
  {
    var xs := prev.rentIndexationTypes;
    if checked {
      var ys := xs + [value];
      forall i, j | 0 <= i < j < |ys| ensures ys[i] != ys[j] {
        if j == |xs| {
          assert ys[i] == xs[i];
        }
      }
    } else {
      WithoutKeepsNoDuplicates(xs, value);
    }
  }

  /** Unchecking 'other' means its details are neither kept in the form nor saved. */
  lemma {:induction false} UncheckOtherDropsDetails(prev: RealEstateFormData)
    ensures RentIndexationChange(prev, "other", false).otherRentIndexationDetails == ""
    ensures SavedRentFields(RentIndexationChange(prev, "other", false)).otherRentIndexationDetails.None?
  {
  }

  /** Choosing a property type clears the rent-indexation selections and details. */
  function TypeChange(prev: RealEstateFormData, value: string): (next: RealEstateFormData)
    ensures next == prev.(assetTypeKey := value, rentIndexationTypes := [], otherRentIndexationDetails := "")
  {
    prev.(assetTypeKey := value, rentIndexationTypes := [], otherRentIndexationDetails := "")
  }

  /** After a type change the record carries no indexation details, and an
      investment apartment starts with an empty indexation list. */
  lemma {:induction false} TypeChangeSavesNoIndexation(prev: RealEstateFormData, value: string)
    ensures SavedRentFields(TypeChange(prev, value)).otherRentIndexationDetails.None?
    ensures SavedRentFields(TypeChange(prev, value)).rentIndexationType == (if value == InvestmentApartmentKey then Some([]) else None)
  {
  }
}
