/** The dashboard's net-worth summary: per-category shekel totals, the six-row
    category display with percentages, and the foreign-currency tooltip. */
module SummaryWidget {
  import opened Wrappers
  import opened Js
  import opened Assets
  import opened DashboardValuation

  /** One line of a category's breakdown. `exchangeRate` is the rate applied, `None`
      for a shekel asset. */
  datatype Entry = Entry(description: string, originalValue: Option<real>, currency: string,
                         exchangeRate: Option<real>, valueInIls: real)

  datatype CategoryData = CategoryData(totalValue: real, count: nat, assets: seq<Entry>)

  const EmptyCategory := CategoryData(0.0, 0, [])

  function EntryOf(a: Asset, systemRates: map<string, real>): Entry {
    Entry(a.description, a.currentValue, a.currency,
          if a.currency == Ils then None else DashboardRate(a, systemRates),
          DashboardValue(a, systemRates))
  }

  /** A category's data, with the zero default for a category nothing was counted in. */
  function DataFor(totals: map<string, CategoryData>, key: string): CategoryData {
    if key in totals then totals[key] else EmptyCategory
  }

  /** The totals the loop builds over the first assets, one asset at a time. */
  function CategoryTotals(assets: seq<Asset>, systemRates: map<string, real>): map<string, CategoryData> {
    if assets == [] then map[]
    else
      var totals := CategoryTotals(assets[..|assets| - 1], systemRates);
      var a := assets[|assets| - 1];
      if !Counted(a, systemRates) then totals
      else
        var d := DataFor(totals, a.category);
        totals[a.category := CategoryData(d.totalValue + DashboardValue(a, systemRates), d.count + 1,
                                          d.assets + [EntryOf(a, systemRates)])]
  }

  /** The counted assets of one category, in input order. */
  function CountedIn(assets: seq<Asset>, systemRates: map<string, real>, key: string): (r: seq<Asset>)
    ensures forall a :: a in r <==> a in assets && Counted(a, systemRates) && a.category == key
  {
    if assets == [] then []
    else
      var a := assets[|assets| - 1];
      CountedIn(assets[..|assets| - 1], systemRates, key) + (if Counted(a, systemRates) && a.category == key then [a] else [])
  }

  function Entries(assets: seq<Asset>, systemRates: map<string, real>): (r: seq<Entry>)
    ensures |r| == |assets|
    ensures forall i :: 0 <= i < |assets| ==> r[i] == EntryOf(assets[i], systemRates)
  {
    if assets == [] then []
    else Entries(assets[..|assets| - 1], systemRates) + [EntryOf(assets[|assets| - 1], systemRates)]
  }

  /** The conversion step of the loop. */
  method Convert(asset: Asset, systemRates: map<string, real>) returns (valueInIls: real, effectiveRate: Option<real>, hasValidRate: bool)
    ensures hasValidRate == Counted(asset, systemRates)
    ensures hasValidRate ==> valueInIls == DashboardValue(asset, systemRates)
    ensures effectiveRate == EntryOf(asset, systemRates).exchangeRate
  {
    valueInIls := NumberOrZero(asset.currentValue);
    effectiveRate := None;
    hasValidRate := true;
    if asset.currency != Ils {
      if TruthyNumber(asset.exchangeRate) && asset.exchangeRate.value > 0.0 {
        valueInIls := NumberOrZero(asset.currentValue) * asset.exchangeRate.value;
        effectiveRate := asset.exchangeRate;
      } else if asset.currency in systemRates && systemRates[asset.currency] != 0.0 {
        valueInIls := NumberOrZero(asset.currentValue) * systemRates[asset.currency];
        effectiveRate := Some(systemRates[asset.currency]);
      } else {
        valueInIls := 0.0;
        hasValidRate := false;
      }
    }
  }

  /** The `assets.forEach` loop of the summary. */
  method ComputeTotals(assets: seq<Asset>, systemRates: map<string, real>)
    returns (totalValue: real, categoryTotals: map<string, CategoryData>)
    ensures totalValue == CountedTotal(assets, systemRates)
    ensures categoryTotals == CategoryTotals(assets, systemRates)
  {
    totalValue := 0.0;
    categoryTotals := map[];
    var i := 0;
    while i < |assets|
      invariant 0 <= i <= |assets|
      invariant totalValue == CountedTotal(assets[..i], systemRates)
      invariant categoryTotals == CategoryTotals(assets[..i], systemRates)
    {
      var asset := assets[i];
      assert assets[..i + 1][..i] == assets[..i];
      var valueInIls, effectiveRate, hasValidRate := Convert(asset, systemRates);
      if hasValidRate {
        var key := asset.category;
        if key !in categoryTotals {
          categoryTotals := categoryTotals[key := EmptyCategory];
        }
        var d := categoryTotals[key];
        categoryTotals := categoryTotals[key := CategoryData(d.totalValue + valueInIls, d.count + 1,
          d.assets + [Entry(asset.description, asset.currentValue, asset.currency, effectiveRate, valueInIls)])];
        totalValue := totalValue + valueInIls;
      }
      i := i + 1;
    }
    assert assets[..i] == assets;
  }

  /** Each category holds exactly its counted assets, in input order: its total is
      their summed value, its count their number, its list their entries. A key is
      present exactly when it has a counted asset. */
  lemma {:induction false} CategoryTotalsMeaning(assets: seq<Asset>, systemRates: map<string, real>, key: string)
    ensures key in CategoryTotals(assets, systemRates) <==> |CountedIn(assets, systemRates, key)| > 0
    ensures var counted := CountedIn(assets, systemRates, key);
      DataFor(CategoryTotals(assets, systemRates), key)
        == CategoryData(SumInIls(counted, systemRates), |counted|, Entries(counted, systemRates))
  {
    if assets != [] {
      var init, a := assets[..|assets| - 1], assets[|assets| - 1];
      CategoryTotalsMeaning(init, systemRates, key);
      var c := CountedIn(init, systemRates, key);
      CategoryTotalsStep(assets, systemRates, key);
      if Counted(a, systemRates) && a.category == key {
        assert CountedIn(assets, systemRates, key) == c + [a];
        CountedSnoc(c, a, systemRates);
      } else {
        assert CountedIn(assets, systemRates, key) == c;
      }
    }
  }

  lemma {:induction false} CountedSnoc(c: seq<Asset>, a: Asset, systemRates: map<string, real>)
    ensures SumInIls(c + [a], systemRates) == SumInIls(c, systemRates) + DashboardValue(a, systemRates)
    ensures Entries(c + [a], systemRates) == Entries(c, systemRates) + [EntryOf(a, systemRates)]
    ensures |c + [a]| == |c| + 1
  {
    assert (c + [a])[..|c|] == c;
  }

  /** How one more asset changes one category's data. */
  lemma {:induction false} CategoryTotalsStep(assets: seq<Asset>, systemRates: map<string, real>, key: string)
    requires assets != []
    ensures var init, a := assets[..|assets| - 1], assets[|assets| - 1];
      var d := DataFor(CategoryTotals(init, systemRates), key);
      && (key in CategoryTotals(assets, systemRates) <==> key in CategoryTotals(init, systemRates) || (Counted(a, systemRates) && a.category == key))
      && DataFor(CategoryTotals(assets, systemRates), key)
         == if Counted(a, systemRates) && a.category == key
            then CategoryData(d.totalValue + DashboardValue(a, systemRates), d.count + 1, d.assets + [EntryOf(a, systemRates)])
            else d
  {
  }

  predicate Distinct(keys: seq<string>) {
    forall i, j :: 0 <= i < j < |keys| ==> keys[i] != keys[j]
  }

  /** The category totals over `keys`. */
  function SumOverKeys(totals: map<string, CategoryData>, keys: seq<string>): real {
    if keys == [] then 0.0 else SumOverKeys(totals, keys[..|keys| - 1]) + DataFor(totals, keys[|keys| - 1]).totalValue
  }

  /** Adding `v` at one key, present once in `keys`, adds `v` to the sum over `keys`. */
  lemma {:induction false} SumOverKeysUpdate(totals: map<string, CategoryData>, keys: seq<string>, key: string, d: CategoryData)
    requires Distinct(keys)
    ensures SumOverKeys(totals[key := d], keys)
            == SumOverKeys(totals, keys) + (if key in keys then d.totalValue - DataFor(totals, key).totalValue else 0.0)
  {
    if keys != [] {
      var init := keys[..|keys| - 1];
      assert Distinct(init);
      SumOverKeysUpdate(totals, init, key, d);
      assert key in keys <==> key in init || key == keys[|keys| - 1];
      if key == keys[|keys| - 1] {
        assert key !in init;
      }
    }
  }

  /** Net worth is the sum of the category totals over any duplicate-free list of
      keys that covers every counted asset's category, whether or not it is one of
      the six displayed. */
  lemma {:induction false} NetWorthIsSumOfCategories(assets: seq<Asset>, systemRates: map<string, real>, keys: seq<string>)
    requires Distinct(keys)
    requires forall a :: a in assets && Counted(a, systemRates) ==> a.category in keys
    ensures CountedTotal(assets, systemRates) == SumOverKeys(CategoryTotals(assets, systemRates), keys)
  {
    if assets == [] {
      EmptySum(keys);
    } else {
      var init, a := assets[..|assets| - 1], assets[|assets| - 1];
      assert forall b :: b in init ==> b in assets;
      NetWorthIsSumOfCategories(init, systemRates, keys);
      if Counted(a, systemRates) {
        var totals := CategoryTotals(init, systemRates);
        var d := DataFor(totals, a.category);
        SumOverKeysUpdate(totals, keys, a.category,
          CategoryData(d.totalValue + DashboardValue(a, systemRates), d.count + 1, d.assets + [EntryOf(a, systemRates)]));
      }
    }
  }

  lemma {:induction false} EmptySum(keys: seq<string>)
    ensures SumOverKeys(map[], keys) == 0.0
  {
    if keys != [] {
      EmptySum(keys[..|keys| - 1]);
    }
  }

  // ---------------------------------------------------------------------------
  // The category display

  /** The six categories the summary lists, in display order. */
  const DisplayOrder := [FinancialInstruments, SavingsDeposits, PensionInsurance, StudyFunds, AlternativeAssets, RealEstate]

  /** A category row is drawn unless it has neither assets nor value. */
  predicate Shown(d: CategoryData) {
    !(d.count == 0 && d.totalValue == 0.0)
  }

  /** A category's share of net worth, in percent; 0 without a positive net worth. */
  function Percentage(categoryTotal: real, netWorth: real): (p: real)
    ensures netWorth > 0.0 && 0.0 <= categoryTotal <= netWorth ==> 0.0 <= p <= 100.0
    ensures netWorth <= 0.0 ==> p == 0.0
  {
    if netWorth > 0.0 then categoryTotal / netWorth * 100.0 else 0.0
  }

  function PercentSum(totals: map<string, CategoryData>, keys: seq<string>, netWorth: real): real {
    if keys == [] then 0.0
    else PercentSum(totals, keys[..|keys| - 1], netWorth) + Percentage(DataFor(totals, keys[|keys| - 1]).totalValue, netWorth)
  }

  lemma {:induction false} PercentSumScales(totals: map<string, CategoryData>, keys: seq<string>, netWorth: real)
    requires netWorth > 0.0
    ensures PercentSum(totals, keys, netWorth) == SumOverKeys(totals, keys) / netWorth * 100.0
  {
    if keys != [] {
      PercentSumScales(totals, keys[..|keys| - 1], netWorth);
      ShareAdds(SumOverKeys(totals, keys[..|keys| - 1]), DataFor(totals, keys[|keys| - 1]).totalValue, netWorth);
    }
  }

  lemma {:induction false} ShareAdds(x: real, y: real, n: real)
    requires n > 0.0
    ensures x / n * 100.0 + y / n * 100.0 == (x + y) / n * 100.0
  {
  }

  /** When every counted asset is in one of the six displayed categories and net
      worth is positive, the displayed percentages add up to 100; rows that are not
      shown have a zero total and add nothing. */
  lemma {:induction false} PercentagesSumTo100(assets: seq<Asset>, systemRates: map<string, real>)
    requires forall a :: a in assets && Counted(a, systemRates) ==> a.category in DisplayOrder
    requires CountedTotal(assets, systemRates) > 0.0
    ensures PercentSum(CategoryTotals(assets, systemRates), DisplayOrder, CountedTotal(assets, systemRates)) == 100.0
  {
    var n := CountedTotal(assets, systemRates);
    var totals := CategoryTotals(assets, systemRates);
    DisplayOrderDistinct();
    NetWorthIsSumOfCategories(assets, systemRates, DisplayOrder);
    PercentSumScales(totals, DisplayOrder, n);
    WholeIsHundredPercent(n);
  }

  lemma {:induction false} WholeIsHundredPercent(n: real)
    requires n > 0.0
    ensures n / n * 100.0 == 100.0
  {
    assert n / n == 1.0;
  }

  lemma {:induction false} DisplayOrderDistinct()
    ensures Distinct(DisplayOrder)
  {
  }

  // ---------------------------------------------------------------------------
  // The foreign-currency tooltip

  /** The entries the tooltip lists: foreign currency with a positive shekel value. */
  function ForeignEntries(entries: seq<Entry>): (r: seq<Entry>)
    ensures forall e :: e in r <==> e in entries && e.currency != Ils && e.valueInIls > 0.0
    ensures |r| <= |entries|
  {
    if entries == [] then []
    else
      var e := entries[|entries| - 1];
      ForeignEntries(entries[..|entries| - 1]) + (if e.currency != Ils && e.valueInIls > 0.0 then [e] else [])
  }

  const TooltipLimit := 5

  /** The tooltip rows: the first five foreign entries. */
  function TooltipRows(entries: seq<Entry>): (r: seq<Entry>)
    ensures |r| == Min(|ForeignEntries(entries)|, TooltipLimit)
    ensures r == ForeignEntries(entries)[..|r|]
    ensures forall e :: e in r ==> e.currency != Ils && e.valueInIls > 0.0
  {
    var f := ForeignEntries(entries);
    var r := if |f| <= TooltipLimit then f else f[..TooltipLimit];
    assert forall e :: e in r ==> e in f;
    r
  }

  /** The "and more" marker, shown when rows were cut. */
  predicate ShowsMore(entries: seq<Entry>) {
    |ForeignEntries(entries)| > TooltipLimit
  }

  lemma {:induction false} MoreMarkerIffCut(entries: seq<Entry>)
    ensures ShowsMore(entries) <==> |TooltipRows(entries)| < |ForeignEntries(entries)|
  {
  }

  function Min(a: int, b: int): int {
    if a <= b then a else b
  }
}
