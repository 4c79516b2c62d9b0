/** The liquidity page's classifier and asset list: each asset is given the day it
    becomes accessible cash (or none), whether it is liquid today and why; its value
    is converted to shekels; and the list is ordered by liquidity date and split into
    "liquid now" and "upcoming". */
module Liquidity {
  import opened Wrappers
  import opened Js
  import opened Dates
  import opened Assets

  const CheckingKey := "checking"
  const ChildSavingsKey := "child_savings"
  const StudyFundKey := "study_fund_general"
  const DepositKeys := ["fixed_deposit", "savings_plan"]

  /** Why an asset got its classification; one constructor per reason the page shows. */
  datatype Reason =
    | CheckingAccount | DefinedLiquidity | LiquidFinancialInstrument
    | FlaggedImmediatelyLiquid | DateNotDefined | RealEstateProperty
    | EndDateSet | ExitStationPassed | FutureExitStation | LockEnded
    | NoClearLiquidityDate | ManualRealisationDate | SixYearsFromOpening
    | NoOpenOrRealisationDate | NotCurrentlyLiquid

  /** The text the page shows for a reason. */
  function ReasonText(r: Reason): string {
    match r
    case CheckingAccount => "חשבון עו\"ש"
    case DefinedLiquidity => "נזילות מוגדרת"
    case LiquidFinancialInstrument => "מכשיר פיננסי נזיל"
    case FlaggedImmediatelyLiquid => "נזיל מיידית (מוגדר)"
    case DateNotDefined => "תאריך לא מוגדר"
    case RealEstateProperty => "נכס נדל\"ן"
    case EndDateSet => "תאריך סיום מוגדר"
    case ExitStationPassed => "תחנת יציאה עברה"
    case FutureExitStation => "תחנת יציאה עתידית"
    case LockEnded => "סיום נעילה"
    case NoClearLiquidityDate => "אין תאריך נזילות ברור"
    case ManualRealisationDate => "תאריך מימוש ידני"
    case SixYearsFromOpening => "6 שנים מפתיחה"
    case NoOpenOrRealisationDate => "אין תאריך פתיחה/מימוש"
    case NotCurrentlyLiquid => "לא מוגדר / לא נזיל כעת"
  }

  datatype Classification = Classification(liquidityDate: Option<Date>, isLiquidNow: bool, reason: Reason)

  /** The release date of a financial or alternative asset is read only when the
      flag is exactly `false` and the date parses. */
  predicate UsesReleaseDate(a: Asset) {
    a.isImmediatelyLiquid == Some(false) && a.releaseDate.Some?
  }

  /** Assets the savings rule (rule 5) sees: not caught by an earlier rule, keyed as
      a deposit, a savings plan or child savings. */
  predicate ReachesSavingsRule(a: Asset) {
    a.typeKey != CheckingKey
    && a.category !in {FinancialInstruments, AlternativeAssets, RealEstate}
    && (a.typeKey in DepositKeys || a.typeKey == ChildSavingsKey)
  }

  /** Assets the study-fund rule (rule 6) sees. */
  predicate ReachesStudyFundRule(a: Asset) {
    a.typeKey != CheckingKey
    && a.category !in {FinancialInstruments, AlternativeAssets, RealEstate}
    && !(a.typeKey in DepositKeys || a.typeKey == ChildSavingsKey)
    && a.category == StudyFunds && a.typeKey == StudyFundKey
  }

  /** The day a savings asset is read at: end date, else first exit station, else
      end of the lock; each only when it parses. */
  function SavingsDate(a: Asset): Option<Date> {
    if a.endDate.Some? then a.endDate
    else if a.firstExitStationDate.Some? then a.firstExitStationDate
    else a.lockEndDate
  }

  /** The day a study fund is read at: a manual end date, else six years after opening. */
  function StudyFundDate(a: Asset): Option<Date> {
    if a.endDate.Some? then a.endDate
    else if a.openDate.Some? then Some(AddYears(a.openDate.value, 6))
    else None
  }

  /** A dated classification: liquid exactly when the day has come. */
  function DatedOn(d: Date, today: Date, reason: Reason): (c: Classification)
    ensures c.liquidityDate == Some(d) && c.reason == reason
    ensures c.isLiquidNow <==> OnOrBefore(d, today)
  {
    Classification(Some(d), OnOrBefore(d, today), reason)
  }

  /** `calculateLiquidityDate`: the ordered rules, first match wins. */
  function Classify(a: Asset, today: Date): (c: Classification)
    // a dated asset is liquid exactly when its day is today or past
    ensures c.liquidityDate.Some? ==> (c.isLiquidNow <==> OnOrBefore(c.liquidityDate.value, today))
    // the only undated asset that is liquid is an alternative asset flagged liquid
    ensures c.liquidityDate.None? && c.isLiquidNow ==>
              a.category == AlternativeAssets && a.isImmediatelyLiquid == Some(true)
    // rule 1, whatever the category
    ensures a.typeKey == CheckingKey ==> c == Classification(Some(today), true, CheckingAccount)
    // rules 2 and 3
    ensures a.typeKey != CheckingKey && a.category in {FinancialInstruments, AlternativeAssets} && UsesReleaseDate(a) ==>
              c.liquidityDate == a.releaseDate
    ensures a.typeKey != CheckingKey && a.category == FinancialInstruments && !UsesReleaseDate(a) ==>
              c.liquidityDate == Some(today) && c.isLiquidNow
    ensures a.typeKey != CheckingKey && a.category == AlternativeAssets && !UsesReleaseDate(a) ==>
              c.liquidityDate == None && (c.isLiquidNow <==> a.isImmediatelyLiquid == Some(true))
    // rule 4
    ensures a.typeKey != CheckingKey && a.category == RealEstate ==> c.liquidityDate == None && !c.isLiquidNow
    // rules 5 and 6
    ensures ReachesSavingsRule(a) ==> c.liquidityDate == SavingsDate(a)
    ensures ReachesStudyFundRule(a) ==> c.liquidityDate == StudyFundDate(a)
    // rule 7
    ensures a.typeKey != CheckingKey && a.category !in {FinancialInstruments, AlternativeAssets, RealEstate}
            && !ReachesSavingsRule(a) && !ReachesStudyFundRule(a) ==>
              c == Classification(None, false, NotCurrentlyLiquid)
  {
    if a.typeKey == CheckingKey then
      Classification(Some(today), true, CheckingAccount)
    else if a.category == FinancialInstruments then
      if UsesReleaseDate(a) then DatedOn(a.releaseDate.value, today, DefinedLiquidity)
      else Classification(Some(today), true, LiquidFinancialInstrument)
    else if a.category == AlternativeAssets then
      if UsesReleaseDate(a) then DatedOn(a.releaseDate.value, today, DefinedLiquidity)
      else
        var flagged := a.isImmediatelyLiquid == Some(true);
        Classification(None, flagged, if flagged then FlaggedImmediatelyLiquid else DateNotDefined)
    else if a.category == RealEstate then
      Classification(None, false, RealEstateProperty)
    else if a.typeKey in DepositKeys || a.typeKey == ChildSavingsKey then
      if a.endDate.Some? then DatedOn(a.endDate.value, today, EndDateSet)
      else if a.firstExitStationDate.Some? then
        var exit := a.firstExitStationDate.value;
        DatedOn(exit, today, if OnOrBefore(exit, today) then ExitStationPassed else FutureExitStation)
      else if a.lockEndDate.Some? then DatedOn(a.lockEndDate.value, today, LockEnded)
      else Classification(None, false, NoClearLiquidityDate)
    else if a.category == StudyFunds && a.typeKey == StudyFundKey then
      if a.endDate.Some? then DatedOn(a.endDate.value, today, ManualRealisationDate)
      else if a.openDate.Some? then DatedOn(AddYears(a.openDate.value, 6), today, SixYearsFromOpening)
      else Classification(None, false, NoOpenOrRealisationDate)
    else
      Classification(None, false, NotCurrentlyLiquid)
  }

  /** The rate the page applies to a foreign-currency asset: the manual rate when it
      is truthy, else the system rate for the currency, if there is one. */
  function LiquidityRate(a: Asset, systemRates: map<string, real>): Option<real> {
    if TruthyNumber(a.exchangeRate) then a.exchangeRate
    else if a.currency in systemRates then Some(systemRates[a.currency])
    else None
  }

  /** `valueInILS` of the liquidity page. */
  function ValueInIls(a: Asset, systemRates: map<string, real>): (v: real)
    ensures a.currency == Ils ==> v == NumberOrZero(a.currentValue)
    // a positive manual rate wins
    ensures a.currency != Ils && TruthyNumber(a.exchangeRate) && a.exchangeRate.value > 0.0 ==>
              v == NumberOrZero(a.currentValue) * a.exchangeRate.value
    // a negative manual rate is used, fails the positivity test, and the system rate is never consulted
    ensures a.currency != Ils && a.exchangeRate.Some? && a.exchangeRate.value < 0.0 ==> v == 0.0
    // without a manual rate the system rate counts only when positive
    ensures a.currency != Ils && !TruthyNumber(a.exchangeRate) ==>
              v == (if a.currency in systemRates && systemRates[a.currency] > 0.0
                    then NumberOrZero(a.currentValue) * systemRates[a.currency] else 0.0)
  {
    var value := NumberOrZero(a.currentValue);
    if a.currency == Ils then value
    else
      var rate := LiquidityRate(a, systemRates);
      if rate.Some? && rate.value > 0.0 then value * rate.value else 0.0
  }

  /** An element of `processedAssets`. */
  datatype Processed = Processed(asset: Asset, liquidityDate: Option<Date>, isLiquidNow: bool, reason: Reason, valueInIls: real)

  function Process(a: Asset, systemRates: map<string, real>, today: Date): Processed {
    var c := Classify(a, today);
    Processed(a, c.liquidityDate, c.isLiquidNow, c.reason, ValueInIls(a, systemRates))
  }

  /** A processed asset carries its asset's own classification and value. */
  predicate WellProcessed(p: Processed, systemRates: map<string, real>, today: Date) {
    p == Process(p.asset, systemRates, today)
  }

  /** The `map` step: one processed element per asset, in input order. */
  function ProcessAll(assets: seq<Asset>, systemRates: map<string, real>, today: Date): (r: seq<Processed>)
    ensures |r| == |assets|
    ensures forall i :: 0 <= i < |assets| ==> r[i] == Process(assets[i], systemRates, today)
  {
    if assets == [] then []
    else ProcessAll(assets[..|assets| - 1], systemRates, today) + [Process(assets[|assets| - 1], systemRates, today)]
  }

  /** The sort comparator as an order: dated before undated, dated by day. */
  predicate Precedes(p: Processed, q: Processed) {
    match (p.liquidityDate, q.liquidityDate)
    case (Some(d), Some(e)) => OnOrBefore(d, e)
    case (Some(_), None) => true
    case (None, Some(_)) => false
    case (None, None) => true
  }

  lemma {:induction false} PrecedesTotal(p: Processed, q: Processed)
    ensures Precedes(p, q) || Precedes(q, p)
  {
  }

  lemma {:induction false} PrecedesTransitive(p: Processed, q: Processed, r: Processed)
    requires Precedes(p, q) && Precedes(q, r)
    ensures Precedes(p, r)
  {
    if p.liquidityDate.Some? && q.liquidityDate.Some? && r.liquidityDate.Some? {
      OnOrBeforeTransitive(p.liquidityDate.value, q.liquidityDate.value, r.liquidityDate.value);
    }
  }

  predicate Sorted(s: seq<Processed>) {
    forall i, j :: 0 <= i < j < |s| ==> Precedes(s[i], s[j])
  }

  /** Inserts `x` before the first element it precedes. */
  function Insert(x: Processed, s: seq<Processed>): (r: seq<Processed>)
    requires Sorted(s)
    ensures Sorted(r)
    ensures multiset(r) == multiset(s) + multiset{x}
  {
    if s == [] then [x]
    else if Precedes(x, s[0]) then
      assert forall j :: 0 <= j < |s| ==> Precedes(x, s[j]) by {
        forall j | 0 <= j < |s| ensures Precedes(x, s[j]) {
          if j > 0 { PrecedesTransitive(x, s[0], s[j]); }
        }
      }
      [x] + s
    else
      PrecedesTotal(x, s[0]);
      var rest := Insert(x, s[1..]);
      assert s == [s[0]] + s[1..];
      assert forall j :: 0 <= j < |rest| ==> Precedes(s[0], rest[j]) by {
        forall j | 0 <= j < |rest| ensures Precedes(s[0], rest[j]) {
          assert rest[j] in multiset(rest);
          if rest[j] != x {
            assert rest[j] in multiset(s[1..]);
            var k :| 0 <= k < |s[1..]| && s[1..][k] == rest[j];
            assert s[k + 1] == rest[j];
          }
        }
      }
      [s[0]] + rest
  }

  /** Insertion sort under `Precedes`. */
  function SortByLiquidityDate(s: seq<Processed>): (r: seq<Processed>)
    ensures Sorted(r)
    ensures multiset(r) == multiset(s)
  {
    if s == [] then []
    else
      assert s == [s[0]] + s[1..];
      Insert(s[0], SortByLiquidityDate(s[1..]))
  }

  /** `processedAssets`: every asset converted and classified, then ordered. */
  function ProcessedAssets(assets: seq<Asset>, systemRates: map<string, real>, today: Date): (r: seq<Processed>)
    ensures multiset(r) == multiset(ProcessAll(assets, systemRates, today))
    ensures |r| == |assets|
    ensures forall i :: 0 <= i < |assets| ==> Process(assets[i], systemRates, today) in r
    ensures forall p :: p in r ==> WellProcessed(p, systemRates, today)
    // every dated asset precedes every undated one, and dated assets are in day order
    ensures forall i, j :: 0 <= i < j < |r| && r[j].liquidityDate.Some? ==> r[i].liquidityDate.Some?
    ensures forall i, j :: 0 <= i < j < |r| && r[i].liquidityDate.Some? && r[j].liquidityDate.Some? ==>
              OnOrBefore(r[i].liquidityDate.value, r[j].liquidityDate.value)
  {
    var all := ProcessAll(assets, systemRates, today);
    var r := SortByLiquidityDate(all);
    SameElements(r, all);
    ProcessAllWellProcessed(assets, systemRates, today);
    SortedDatedFirst(r);
    r
  }

  lemma {:induction false} SortedDatedFirst(r: seq<Processed>)
    requires Sorted(r)
    ensures forall i, j :: 0 <= i < j < |r| && r[j].liquidityDate.Some? ==> r[i].liquidityDate.Some?
    ensures forall i, j :: 0 <= i < j < |r| && r[i].liquidityDate.Some? && r[j].liquidityDate.Some? ==>
              OnOrBefore(r[i].liquidityDate.value, r[j].liquidityDate.value)
  {
    forall i, j | 0 <= i < j < |r| ensures Precedes(r[i], r[j]) { }
  }

  lemma {:induction false} ProcessAllWellProcessed(assets: seq<Asset>, systemRates: map<string, real>, today: Date)
    ensures forall p :: p in ProcessAll(assets, systemRates, today) ==> WellProcessed(p, systemRates, today)
  {
    var all := ProcessAll(assets, systemRates, today);
    forall p | p in all ensures WellProcessed(p, systemRates, today) {
      var i :| 0 <= i < |all| && all[i] == p;
    }
  }

  lemma {:induction false} SameElements(r: seq<Processed>, s: seq<Processed>)
    requires multiset(r) == multiset(s)
    ensures |r| == |s|
    ensures forall p :: p in r <==> p in s
  {
    assert |r| == |multiset(r)| == |multiset(s)| == |s|;
    forall p ensures p in r <==> p in s {
      assert p in r <==> p in multiset(r);
      assert p in s <==> p in multiset(s);
    }
  }

  /** `liquidAssetsForList`. */
  function LiquidNowList(ps: seq<Processed>): (r: seq<Processed>)
    ensures forall p :: p in r <==> p in ps && p.isLiquidNow
  {
    if ps == [] then []
    else LiquidNowList(ps[..|ps| - 1]) + (if ps[|ps| - 1].isLiquidNow then [ps[|ps| - 1]] else [])
  }

  /** The test `upcomingLiquidityAssets` applies: not liquid now, dated after today. */
  predicate IsUpcoming(p: Processed, today: Date) {
    !p.isLiquidNow && p.liquidityDate.Some? && After(p.liquidityDate.value, today)
  }

  /** `upcomingLiquidityAssets`. */
  function UpcomingList(ps: seq<Processed>, today: Date): (r: seq<Processed>)
    ensures forall p :: p in r <==> p in ps && IsUpcoming(p, today)
  {
    if ps == [] then []
    else UpcomingList(ps[..|ps| - 1], today) + (if IsUpcoming(ps[|ps| - 1], today) then [ps[|ps| - 1]] else [])
  }

  /** The two lists never share an element, and together take each asset at most once. */
  lemma {:induction false} LiquidAndUpcomingDisjoint(ps: seq<Processed>, today: Date)
    ensures multiset(LiquidNowList(ps)) + multiset(UpcomingList(ps, today)) <= multiset(ps)
  {
    if ps != [] {
      var init := ps[..|ps| - 1];
      LiquidAndUpcomingDisjoint(init, today);
      assert ps == init + [ps[|ps| - 1]];
    }
  }

  function SumValues(ps: seq<Processed>): real {
    if ps == [] then 0.0 else SumValues(ps[..|ps| - 1]) + ps[|ps| - 1].valueInIls
  }

  /** `totalLiquidValue`. */
  function TotalLiquidValue(ps: seq<Processed>): real {
    SumValues(LiquidNowList(ps))
  }

  /** Summing the values of an ordered list does not depend on its order. */
  lemma {:induction false} SumValuesPermutation(ps: seq<Processed>, qs: seq<Processed>)
    requires multiset(ps) == multiset(qs)
    ensures SumValues(ps) == SumValues(qs)
    decreases |ps|
  {
    if ps != [] {
      var x := ps[|ps| - 1];
      assert x in multiset(qs) by { assert x in multiset(ps); }
      var k :| 0 <= k < |qs| && qs[k] == x;
      var qs' := qs[..k] + qs[k + 1..];
      assert qs == qs[..k] + [x] + qs[k + 1..];
      assert ps == ps[..|ps| - 1] + [x];
      assert multiset(qs) == multiset(qs[..k]) + multiset{x} + multiset(qs[k + 1..]);
      assert multiset(qs') == multiset(qs[..k]) + multiset(qs[k + 1..]);
      assert multiset(ps) == multiset(ps[..|ps| - 1]) + multiset{x};
      assert multiset(ps[..|ps| - 1]) == multiset(ps) - multiset{x};
      assert multiset(qs') == multiset(qs) - multiset{x};
      SumValuesPermutation(ps[..|ps| - 1], qs');
      SumValuesRemove(qs, k);
    }
  }

  lemma {:induction false} SumValuesRemove(qs: seq<Processed>, k: nat)
    requires k < |qs|
    ensures SumValues(qs) == SumValues(qs[..k] + qs[k + 1..]) + qs[k].valueInIls
    decreases |qs|
  {
    if k < |qs| - 1 {
      var init := qs[..|qs| - 1];
      SumValuesRemove(init, k);
      assert qs[..k] + qs[k + 1..] == (init[..k] + init[k + 1..]) + [qs[|qs| - 1]];
    } else {
      assert qs[..k] + qs[k + 1..] == qs[..|qs| - 1];
    }
  }

  /** Ordering the list does not change the liquid total. */
  lemma {:induction false} TotalLiquidOrderIndependent(ps: seq<Processed>, qs: seq<Processed>)
    requires multiset(ps) == multiset(qs)
    ensures TotalLiquidValue(ps) == TotalLiquidValue(qs)
  {
    LiquidNowPermutation(ps, qs);
    SumValuesPermutation(LiquidNowList(ps), LiquidNowList(qs));
  }

  lemma {:induction false} LiquidNowPermutation(ps: seq<Processed>, qs: seq<Processed>)
    requires multiset(ps) == multiset(qs)
    ensures multiset(LiquidNowList(ps)) == multiset(LiquidNowList(qs))
  {
    LiquidNowMultiset(ps);
    LiquidNowMultiset(qs);
  }

  /** The liquid list holds each liquid element as often as the input does. */
  lemma {:induction false} LiquidNowMultiset(ps: seq<Processed>)
    ensures forall p :: multiset(LiquidNowList(ps))[p] == (if p.isLiquidNow then multiset(ps)[p] else 0)
  {
    if ps != [] {
      var init := ps[..|ps| - 1];
      LiquidNowMultiset(init);
      assert ps == init + [ps[|ps| - 1]];
    }
  }
}
