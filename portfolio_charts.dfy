/** The dashboard's allocation pie: counted assets grouped under their category's
    display name, slices with a positive value, and the portfolio total. */
module PortfolioCharts {
  import opened Wrappers
  import opened Js
  import opened Assets
  import opened DashboardValuation

  datatype Slice = Slice(name: string, value: real)

  const OtherLabel := "אחר"

  /** The display name of a category; a category outside the table is "other". */
  function CategoryLabel(category: string): (display: string)
    ensures category !in {FinancialInstruments, SavingsDeposits, PensionInsurance, StudyFunds, AlternativeAssets, RealEstate}
            ==> display == OtherLabel
  {
    if category == FinancialInstruments then "מכשירים פיננסיים"
    else if category == SavingsDeposits then "חסכונות ופקדונות"
    else if category == PensionInsurance then "פנסיה וביטוח"
    else if category == StudyFunds then "קרנות השתלמות"
    else if category == AlternativeAssets then "נכסים אלטרנטיביים"
    else if category == RealEstate then "נדל\"ן"
    else OtherLabel
  }

  /** Adds `v` to the slice named `name`, or appends a new slice after the others. */
  function AddTo(slices: seq<Slice>, name: string, v: real): seq<Slice> {
    if slices == [] then [Slice(name, v)]
    else if slices[0].name == name then [Slice(name, slices[0].value + v)] + slices[1..]
    else [slices[0]] + AddTo(slices[1..], name, v)
  }

  /** The value of the slice named `name`, if there is one. */
  function Lookup(slices: seq<Slice>, name: string): Option<real> {
    if slices == [] then None
    else if slices[0].name == name then Some(slices[0].value)
    else Lookup(slices[1..], name)
  }

  predicate DistinctNames(slices: seq<Slice>) {
    forall i, j :: 0 <= i < j < |slices| ==> slices[i].name != slices[j].name
  }

  function SumSlices(slices: seq<Slice>): real {
    if slices == [] then 0.0 else slices[0].value + SumSlices(slices[1..])
  }

  /** The grouping `reduce` over counted assets, in input order. */
  function Group(assets: seq<Asset>, systemRates: map<string, real>): seq<Slice> {
    if assets == [] then []
    else
      var groups := Group(assets[..|assets| - 1], systemRates);
      var a := assets[|assets| - 1];
      if Counted(a, systemRates) then AddTo(groups, CategoryLabel(a.category), DashboardValue(a, systemRates))
      else groups
  }

  /** The pie keeps the slices with a positive value. */
  function PositiveSlices(slices: seq<Slice>): (r: seq<Slice>)
    ensures forall s :: s in r <==> s in slices && s.value > 0.0
  {
    if slices == [] then []
    else (if slices[0].value > 0.0 then [slices[0]] else []) + PositiveSlices(slices[1..])
  }

  /** The pie data and the total, computed as the memo does. */
  method PieChartData(assets: seq<Asset>, systemRates: map<string, real>) returns (pie: seq<Slice>, total: real)
    ensures pie == PositiveSlices(Group(assets, systemRates))
    ensures total == CountedTotal(assets, systemRates)
  {
    if |assets| == 0 {
      return [], 0.0;
    }
    total := 0.0;
    var grouped: seq<Slice> := [];
    var i := 0;
    while i < |assets|
      invariant 0 <= i <= |assets|
      invariant grouped == Group(assets[..i], systemRates)
      invariant total == CountedTotal(assets[..i], systemRates)
    {
      var asset := assets[i];
      assert assets[..i + 1][..i] == assets[..i];
      var displayName := CategoryLabel(asset.category);
      if Counted(asset, systemRates) {
        var valueInIls := DashboardValue(asset, systemRates);
        grouped := AddTo(grouped, displayName, valueInIls);
        total := total + valueInIls;
      }
      i := i + 1;
    }
    assert assets[..i] == assets;
    pie := PositiveSlices(grouped);
  }

  /** Adding to a group keeps the names distinct. */
  lemma {:induction false} AddToDistinct(slices: seq<Slice>, name: string, v: real)
    requires DistinctNames(slices)
    ensures DistinctNames(AddTo(slices, name, v))
    ensures forall s :: s in AddTo(slices, name, v) ==> s.name == name || s in slices
  {
    if slices != [] && slices[0].name != name {
      assert DistinctNames(slices[1..]);
      AddToDistinct(slices[1..], name, v);
      var rest := AddTo(slices[1..], name, v);
      forall s | s in rest ensures s.name != slices[0].name {
        if s.name != name {
          assert s in slices[1..];
        }
      }
    } else if slices != [] {
      forall i | 0 < i < |slices| ensures slices[i].name != name {
        assert slices[0].name != slices[i].name;
      }
    }
  }

  /** Adding to a group changes only that group's value, by `v`. */
  lemma {:induction false} AddToLookup(slices: seq<Slice>, name: string, v: real, other: string)
    ensures Lookup(AddTo(slices, name, v), other)
            == if other == name then Some(Lookup(slices, name).GetOr(0.0) + v) else Lookup(slices, other)
  {
    if slices != [] && slices[0].name != name {
      AddToLookup(slices[1..], name, v, other);
    }
  }

  lemma {:induction false} AddToSum(slices: seq<Slice>, name: string, v: real)
    ensures SumSlices(AddTo(slices, name, v)) == SumSlices(slices) + v
  {
    if slices != [] && slices[0].name != name {
      AddToSum(slices[1..], name, v);
    }
  }

  lemma {:induction false} GroupDistinct(assets: seq<Asset>, systemRates: map<string, real>)
    ensures DistinctNames(Group(assets, systemRates))
  {
    if assets != [] {
      var init, a := assets[..|assets| - 1], assets[|assets| - 1];
      GroupDistinct(init, systemRates);
      if Counted(a, systemRates) {
        AddToDistinct(Group(init, systemRates), CategoryLabel(a.category), DashboardValue(a, systemRates));
      }
    }
  }

  /** The counted assets shown under `name`. */
  function Labelled(assets: seq<Asset>, systemRates: map<string, real>, name: string): seq<Asset> {
    if assets == [] then []
    else
      var a := assets[|assets| - 1];
      Labelled(assets[..|assets| - 1], systemRates, name)
      + (if Counted(a, systemRates) && CategoryLabel(a.category) == name then [a] else [])
  }

  /** The members of `name` are exactly the counted assets whose category shows as `name`. */
  lemma {:induction false} LabelledMembers(assets: seq<Asset>, systemRates: map<string, real>, name: string)
    ensures forall a :: a in Labelled(assets, systemRates, name) <==>
              a in assets && Counted(a, systemRates) && CategoryLabel(a.category) == name
  {
    if assets != [] {
      var init, last := assets[..|assets| - 1], assets[|assets| - 1];
      LabelledMembers(init, systemRates, name);
      assert assets == init + [last];
    }
  }

  /** A group exists exactly for the display names of counted assets, and holds the
      summed shekel value of those assets. */
  lemma {:induction false} GroupMeaning(assets: seq<Asset>, systemRates: map<string, real>, name: string)
    ensures var members := Labelled(assets, systemRates, name);
      Lookup(Group(assets, systemRates), name)
        == if |members| == 0 then None else Some(SumInIls(members, systemRates))
  {
    if assets != [] {
      var init, a := assets[..|assets| - 1], assets[|assets| - 1];
      GroupMeaning(init, systemRates, name);
      var members := Labelled(init, systemRates, name);
      var groups, display := Group(init, systemRates), CategoryLabel(a.category);
      var after := Labelled(assets, systemRates, name);
      var result := Lookup(Group(assets, systemRates), name);
      if !Counted(a, systemRates) {
        assert Group(assets, systemRates) == groups;
        assert after == members;
      } else {
        var v := DashboardValue(a, systemRates);
        assert Group(assets, systemRates) == AddTo(groups, display, v);
        AddToLookup(groups, display, v, name);
        if display == name {
          assert result == Some(Lookup(groups, name).GetOr(0.0) + v);
          GroupMeaningAdd(members, a, systemRates, Lookup(groups, name));
          assert after == members + [a];
        } else {
          assert after == members;
          assert result == Lookup(groups, name);
        }
      }
    }
  }

  /** Adding a member to a group adds its value to the group's sum. */
  lemma {:induction false} GroupMeaningAdd(members: seq<Asset>, a: Asset, systemRates: map<string, real>, before: Option<real>)
    requires before == if |members| == 0 then None else Some(SumInIls(members, systemRates))
    ensures Some(before.GetOr(0.0) + DashboardValue(a, systemRates)) == Some(SumInIls(members + [a], systemRates))
  {
    SumInIlsSnoc(members, a, systemRates);
    if |members| == 0 {
      assert SumInIls(members, systemRates) == 0.0;
    }
  }

  /** The total counts every group, including groups the pie then drops. */
  lemma {:induction false} TotalIsSumOfGroups(assets: seq<Asset>, systemRates: map<string, real>)
    ensures CountedTotal(assets, systemRates) == SumSlices(Group(assets, systemRates))
  {
    if assets != [] {
      var init, a := assets[..|assets| - 1], assets[|assets| - 1];
      TotalIsSumOfGroups(init, systemRates);
      if Counted(a, systemRates) {
        AddToSum(Group(init, systemRates), CategoryLabel(a.category), DashboardValue(a, systemRates));
      }
    }
  }

  /** Every slice of the pie has its own name and a positive value. */
  lemma {:induction false} PieSlicesDistinctAndPositive(assets: seq<Asset>, systemRates: map<string, real>)
    ensures DistinctNames(PositiveSlices(Group(assets, systemRates)))
    ensures forall s :: s in PositiveSlices(Group(assets, systemRates)) ==> s.value > 0.0
  {
    GroupDistinct(assets, systemRates);
    PositiveKeepsDistinct(Group(assets, systemRates));
  }

  lemma {:induction false} PositiveKeepsDistinct(slices: seq<Slice>)
    requires DistinctNames(slices)
    ensures DistinctNames(PositiveSlices(slices))
  {
    if slices != [] {
      assert DistinctNames(slices[1..]);
      PositiveKeepsDistinct(slices[1..]);
      var rest := PositiveSlices(slices[1..]);
      forall s | s in rest ensures s.name != slices[0].name {
        assert s in slices[1..];
      }
    }
  }

  /** `lineChartData`: there is no history to chart. */
  function LineChartData(total: real): (r: seq<Slice>)
    ensures r == []
  {
    []
  }

  predicate ShowPieChart(pie: seq<Slice>, total: real) {
    |pie| > 0 && total > 0.0
  }

  predicate ShowLineChart(line: seq<Slice>, total: real) {
    |line| > 0 && total > 0.0
  }

  /** The pie renders exactly when some category's group adds up to a positive
      value and the portfolio total is positive. */
  lemma {:induction false} PieShownIff(assets: seq<Asset>, systemRates: map<string, real>)
    ensures ShowPieChart(PositiveSlices(Group(assets, systemRates)), CountedTotal(assets, systemRates))
            <==> (exists s :: s in Group(assets, systemRates) && s.value > 0.0)
                 && CountedTotal(assets, systemRates) > 0.0
  {
    var pie := PositiveSlices(Group(assets, systemRates));
    if |pie| > 0 {
      assert pie[0] in pie;
    }
  }

  /** The line chart never renders. */
  lemma {:induction false} LineChartNeverShown(total: real)
    ensures !ShowLineChart(LineChartData(total), total)
  {
  }

  /** No assets: no slices and a zero total. */
  lemma {:induction false} EmptyPortfolio(systemRates: map<string, real>)
    ensures PositiveSlices(Group([], systemRates)) == [] && CountedTotal([], systemRates) == 0.0
  {
  }
}
