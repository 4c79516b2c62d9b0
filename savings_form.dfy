/** The savings form: its submit checks, the record it saves, and the
    type/interest/indexation handlers. Dates are kept as the text the user
    entered ("" when empty). */
module SavingsForm {
  import opened Wrappers
  import opened Js

  const CheckingKey := "checking"
  const ChildSavingsKey := "child_savings"

  predicate IsDeposit(typeKey: string) {
    typeKey == "fixed_deposit" || typeKey == "savings_plan"
  }

  /** `SAVINGS_TYPES`: the label of a savings type. */
  function TypeLabel(typeKey: string): Option<string> {
    if typeKey == "fixed_deposit" then Some("פק\"מ")
    else if typeKey == "savings_plan" then Some("תוכנית חיסכון")
    else if typeKey == ChildSavingsKey then Some("חיסכון לכל ילד")
    else if typeKey == CheckingKey then Some("עו\"ש")
    else if typeKey == "other" then Some("אחר")
    else None
  }

  /** `INSTITUTIONS`: the label of an institution. */
  function InstitutionLabel(institution: string): Option<string> {
    if institution == "leumi" then Some("בנק לאומי")
    else if institution == "poalim" then Some("בנק הפועלים")
    else if institution == "discount" then Some("בנק דיסקונט")
    else if institution == "mizrahi" then Some("בנק מזרחי-טפחות")
    else if institution == "fibi" then Some("הבנק הבינלאומי")
    else if institution == "jerusalem" then Some("בנק ירושלים")
    else if institution == "union" then Some("בנק איגוד")
    else if institution == "menora" then Some("מנורה מבטחים")
    else if institution == "migdal" then Some("מגדל")
    else if institution == "clal" then Some("כלל")
    else if institution == "harel" then Some("הראל")
    else if institution == "phoenix" then Some("הפניקס")
    else if institution == "altshuler" then Some("אלטשולר שחם")
    else if institution == "psagot" then Some("פסגות")
    else if institution == "meitav" then Some("מיטב דש")
    else if institution == "other_financial" then Some("מוסד פיננסי אחר")
    else None
  }

  /** The form state. `liquid` is `liquidity_data.is_immediately_liquid`. */
  datatype SavingsFormData = SavingsFormData(
    assetTypeKey: string, description: string, institution: string,
    interestRate: NumText, interestType: string, indexationTypes: seq<string>, otherIndexationDetails: string,
    startDate: string, endDate: string, currency: string, currentValue: NumText,
    isLocked: bool, lockEndDate: string, updateMethod: string, notes: string,
    fundTrackNumber: string, monthlyDepositAmount: NumText, insuranceCoverageDetails: string,
    firstExitStationDate: string, exitStationIntervalValue: NumText, exitStationIntervalUnit: string,
    liquid: bool)

  // ---------------------------------------------------------------------------
  // Submit

  datatype SavingsError =
    | TypeMissing | InstitutionMissing | ValueInvalid | TrackMissing
    | DescriptionMissing | InterestTypeMissing | IndexationMissing | OtherIndexationMissing

  function ErrorMessage(e: SavingsError): string {
    match e
    case TypeMissing => "נא לבחור סוג חיסכון."
    case InstitutionMissing => "נא לבחור מוסד."
    case ValueInvalid => "נא למלא סכום/יתרה נוכחית במספרים."
    case TrackMissing => "נא למלא מספר מסלול השקעה."
    case DescriptionMissing => "נא למלא תיאור החיסכון."
    case InterestTypeMissing => "נא לבחור סוג ריבית."
    case IndexationMissing => "נא לבחור לפחות סוג הצמדה אחד."
    case OtherIndexationMissing => "נא למלא פרטי הצמדה אחרת."
  }

  /** The checks a savings type adds, in order. */
  function TypeCheck(f: SavingsFormData): Option<SavingsError> {
    if f.assetTypeKey == CheckingKey then None
    else if f.assetTypeKey == ChildSavingsKey then
      (if Trim(f.fundTrackNumber) == "" then Some(TrackMissing) else None)
    else if IsDeposit(f.assetTypeKey) then
      if Trim(f.description) == "" then Some(DescriptionMissing)
      else if f.interestType == "" then Some(InterestTypeMissing)
      else if f.interestType == "variable" && |f.indexationTypes| == 0 then Some(IndexationMissing)
      else if "other" in f.indexationTypes && Trim(f.otherIndexationDetails) == "" then Some(OtherIndexationMissing)
      else None
    else if Trim(f.description) == "" then Some(DescriptionMissing)
    else None
  }

  /** What every savings record needs, whatever its type. */
  predicate TypeRequirementsMet(f: SavingsFormData) {
    && (f.assetTypeKey == ChildSavingsKey ==> Trim(f.fundTrackNumber) != "")
    && (f.assetTypeKey != CheckingKey && f.assetTypeKey != ChildSavingsKey ==> Trim(f.description) != "")
    && (IsDeposit(f.assetTypeKey) ==>
          (f.interestType != ""
           && (f.interestType == "variable" ==> |f.indexationTypes| > 0)
           && ("other" in f.indexationTypes ==> Trim(f.otherIndexationDetails) != "")))
  }

  /** The first failing check of `handleSubmit`, `None` when all pass. */
  function Validate(f: SavingsFormData): (r: Option<SavingsError>)
    ensures f.assetTypeKey == "" ==> r == Some(TypeMissing)
    ensures f.assetTypeKey != "" && f.institution == "" ==> r == Some(InstitutionMissing)
    ensures f.assetTypeKey != "" && f.institution != "" && f.currentValue.MissingOrNaN() ==> r == Some(ValueInvalid)
    ensures r.None? <==> f.assetTypeKey != "" && f.institution != "" && f.currentValue.Numeric? && TypeRequirementsMet(f)
  {
    if f.assetTypeKey == "" then Some(TypeMissing)
    else if f.institution == "" then Some(InstitutionMissing)
    else if f.currentValue.MissingOrNaN() then Some(ValueInvalid)
    else TypeCheck(f)
  }

  /** The description used when none is typed. */
  function DefaultDescription(f: SavingsFormData): (d: string)
    ensures f.assetTypeKey == CheckingKey ==> d == "עו\"ש " + InstitutionLabel(f.institution).GetOr(f.institution)
    ensures f.assetTypeKey == ChildSavingsKey ==> d == "חיסכון לכל ילד " + InstitutionLabel(f.institution).GetOr(f.institution)
    ensures f.assetTypeKey != CheckingKey && f.assetTypeKey != ChildSavingsKey ==> d == TypeLabel(f.assetTypeKey).GetOr("חיסכון")
  {
    if f.assetTypeKey == CheckingKey then "עו\"ש " + InstitutionLabel(f.institution).GetOr(f.institution)
    else if f.assetTypeKey == ChildSavingsKey then "חיסכון לכל ילד " + InstitutionLabel(f.institution).GetOr(f.institution)
    else TypeLabel(f.assetTypeKey).GetOr("חיסכון")
  }

  /** The saved record (`dataToSubmit`); `None` is null, and an indexation list
      stands for its JSON text. */
  datatype SavingsPayload = SavingsPayload(
    category: string, assetTypeKey: string, description: string, institutionName: string,
    currency: string, currentValue: real, updateMethod: string, notes: string, lastUpdatedManual: string,
    isImmediatelyLiquid: bool,
    interestRate: Option<real>, interestType: Option<string>, indexationType: Option<seq<string>>,
    otherIndexationDetails: Option<string>,
    openDate: Option<string>, endDate: Option<string>, isLocked: Option<bool>, lockEndDate: Option<string>,
    fundTrackNumber: Option<string>, monthlyDepositAmount: Option<real>, insuranceCoverageDetails: Option<string>,
    firstExitStationDate: Option<string>, exitStationIntervalValue: Option<real>, exitStationIntervalUnit: Option<string>)

  /** `dataToSubmit`, built once the checks pass; `now` is the save time. */
  function Payload(f: SavingsFormData, now: string): (p: SavingsPayload)
    requires Validate(f).None?
    ensures p.category == "savings_deposits" && p.currentValue == f.currentValue.value
    ensures p.description == (if Trim(f.description) != "" then Trim(f.description) else DefaultDescription(f))
    ensures p.isImmediatelyLiquid <==> f.assetTypeKey == CheckingKey
  {
    var typeKey := f.assetTypeKey;
    var deposit := IsDeposit(typeKey);
    var variable := deposit && f.interestType == "variable";
    SavingsPayload(
      "savings_deposits", typeKey,
      if Trim(f.description) != "" then Trim(f.description) else DefaultDescription(f),
      f.institution, f.currency, f.currentValue.value, f.updateMethod, f.notes, now,
      typeKey == CheckingKey,
      if deposit && f.interestRate.Truthy() then f.interestRate.ToNumber() else None,
      if deposit then Some(f.interestType) else None,
      if variable then Some(f.indexationTypes) else None,
      if variable && "other" in f.indexationTypes then Some(f.otherIndexationDetails) else None,
      if typeKey != CheckingKey then Some(f.startDate) else None,
      if typeKey != CheckingKey && f.firstExitStationDate == "" then Some(f.endDate) else None,
      if deposit then Some(f.isLocked) else None,
      if deposit && f.isLocked then Some(f.lockEndDate) else None,
      if typeKey == ChildSavingsKey then Some(f.fundTrackNumber) else None,
      if typeKey == ChildSavingsKey && f.monthlyDepositAmount.Truthy() then f.monthlyDepositAmount.ToNumber() else None,
      if typeKey == ChildSavingsKey then Some(f.insuranceCoverageDetails) else None,
      if deposit && f.firstExitStationDate != "" then Some(f.firstExitStationDate) else None,
      if deposit && f.exitStationIntervalValue.Truthy() then f.exitStationIntervalValue.ToNumber() else None,
      if deposit && f.exitStationIntervalValue.Truthy() then Some(f.exitStationIntervalUnit) else None)
  }

  datatype SubmitOutcome = Rejected(message: string) | Saved(payload: SavingsPayload)

  /** `handleSubmit`: the first failing check's message, or the record saved. */
  function Submit(f: SavingsFormData, now: string): (r: SubmitOutcome)
    ensures r.Rejected? <==> Validate(f).Some?
    ensures r.Rejected? ==> r.message == ErrorMessage(Validate(f).value)
    ensures r.Saved? ==> r.payload == Payload(f, now)
  {
    match Validate(f)
    case Some(e) => Rejected(ErrorMessage(e))
    case None => Saved(Payload(f, now))
  }

  /** The record never carries both an end date and a first exit station; for
      the 'other' type an entered exit station removes the end date and is
      itself not saved. */
  lemma {:induction false} EndDateOrExitStation(f: SavingsFormData, now: string)
    requires Validate(f).None?
    ensures !(Payload(f, now).endDate.Some? && Payload(f, now).firstExitStationDate.Some?)
    ensures f.assetTypeKey == "other" && f.firstExitStationDate != "" ==>
              Payload(f, now).endDate.None? && Payload(f, now).firstExitStationDate.None?
  {
  }

  /** Interest, indexation, lock and exit-station fields are saved only for
      deposits; indexation only with variable interest; the lock end date only
      when locked; the open date never for a checking account. */
  lemma {:induction false} ConditionalFields(f: SavingsFormData, now: string)
    requires Validate(f).None?
    ensures var p := Payload(f, now);
      && (!IsDeposit(f.assetTypeKey) ==> p.interestRate.None? && p.interestType.None? && p.indexationType.None?
                                         && p.otherIndexationDetails.None? && p.isLocked.None? && p.lockEndDate.None?
                                         && p.firstExitStationDate.None? && p.exitStationIntervalValue.None?)
      && (p.indexationType.Some? <==> IsDeposit(f.assetTypeKey) && f.interestType == "variable")
      && (p.lockEndDate.Some? <==> IsDeposit(f.assetTypeKey) && f.isLocked)
      && (p.openDate.None? <==> f.assetTypeKey == CheckingKey)
      && (p.fundTrackNumber.Some? <==> f.assetTypeKey == ChildSavingsKey)
  {
  }

  /** A deposit is saved only with an interest type, and with variable interest
      only with at least one indexation. */
  lemma {:induction false} SavedDepositIsComplete(f: SavingsFormData, now: string)
    requires Submit(f, now).Saved? && IsDeposit(f.assetTypeKey)
    ensures var p := Submit(f, now).payload;
      && p.interestType.Some? && p.interestType.value != ""
      && (p.indexationType.Some? ==> |p.indexationType.value| > 0)
      && Trim(p.description) != ""
  {
    TrimIdempotentNonEmpty(f.description);
  }

  // ---------------------------------------------------------------------------
  // Handlers

  datatype SelectField = AssetTypeKey | Institution | Currency | InterestType | ExitStationIntervalUnit

  /** `handleSelectChange`. */
  function SelectChange(prev: SavingsFormData, field: SelectField, value: string): (next: SavingsFormData)
    ensures field == AssetTypeKey ==> next == prev.(
      assetTypeKey := value, interestType := "", indexationTypes := [], otherIndexationDetails := "",
      fundTrackNumber := "", monthlyDepositAmount := Blank, insuranceCoverageDetails := "",
      firstExitStationDate := "", exitStationIntervalValue := Blank, exitStationIntervalUnit := "months",
      liquid := value == CheckingKey)
    ensures field == InterestType && value == "fixed" ==>
      next == prev.(interestType := value, indexationTypes := [], otherIndexationDetails := "")
    ensures field == InterestType && value != "fixed" ==> next == prev.(interestType := value)
    ensures field == Institution ==> next == prev.(institution := value)
    ensures field == Currency ==> next == prev.(currency := value)
    ensures field == ExitStationIntervalUnit ==> next == prev.(exitStationIntervalUnit := value)
  {
    match field
    case AssetTypeKey =>
      var s := prev.(assetTypeKey := value);
      var s := s.(interestType := "", indexationTypes := [], otherIndexationDetails := "");
      var s := s.(fundTrackNumber := "", monthlyDepositAmount := Blank, insuranceCoverageDetails := "");
      var s := s.(firstExitStationDate := "", exitStationIntervalValue := Blank, exitStationIntervalUnit := "months");
      s.(liquid := value == CheckingKey)
    case InterestType =>
      var s := prev.(interestType := value);
      if value == "fixed" then s.(indexationTypes := [], otherIndexationDetails := "") else s
    case Institution => prev.(institution := value)
    case Currency => prev.(currency := value)
    case ExitStationIntervalUnit => prev.(exitStationIntervalUnit := value)
  }

  /** After a type change a deposit with variable interest cannot be saved
      until an interest type and indexation are chosen again. */
  lemma {:induction false} TypeChangeForcesInterestChoice(prev: SavingsFormData, value: string)
    requires IsDeposit(value)
    ensures Validate(SelectChange(prev, AssetTypeKey, value)).Some?
  {
  }

  /** `handleIndexationChange`. */
  function IndexationChange(prev: SavingsFormData, value: string, checked: bool): (next: SavingsFormData)
    ensures checked ==> next == prev.(indexationTypes := prev.indexationTypes + [value])
    ensures !checked && value == "other" ==>
      next == prev.(indexationTypes := Without(prev.indexationTypes, value), otherIndexationDetails := "")
    ensures !checked && value != "other" ==> next == prev.(indexationTypes := Without(prev.indexationTypes, value))
  {
    if checked then prev.(indexationTypes := prev.indexationTypes + [value])
    else
      var remaining := Without(prev.indexationTypes, value);
      if value == "other" then prev.(indexationTypes := remaining, otherIndexationDetails := "")
      else prev.(indexationTypes := remaining)
  }

  /** Checking adds the indexation; unchecking removes every copy and no other. */
  lemma {:induction false} IndexationMembership(prev: SavingsFormData, value: string, checked: bool)
    ensures value in IndexationChange(prev, value, checked).indexationTypes <==> checked
    ensures forall x :: x != value ==> (x in IndexationChange(prev, value, checked).indexationTypes <==> x in prev.indexationTypes)
  {
  }
}
