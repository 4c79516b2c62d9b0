/** The economic-indicators page: the indicator table, the edit dialog's save
    check and record update, the list order and the display rules. */
module EconomicData {
  import opened Wrappers
  import opened Js
  import opened Dates

  const UsdIls := "usd_ils_exchange_rate"
  const EurIls := "eur_ils_exchange_rate"
  const CurrentValue := "current_value"

  /** The keys of `INDICATOR_DETAILS`, in declaration order. */
  const IndicatorOrder: seq<string> := ["israel_interest_rate", "consumer_price_index", UsdIls, EurIls,
                                        "construction_input_index", "housing_price_index"]

  /** A row of the table; `unit` and `dataKey` are "" when absent. */
  datatype IndicatorDetails = IndicatorDetails(title: string, unit: string, editable: bool, dataKey: string)

  function KnownDetails(indicatorType: string): Option<IndicatorDetails> {
    if indicatorType == "israel_interest_rate" then Some(IndicatorDetails("ריבית בנק ישראל", "%", false, ""))
    else if indicatorType == "consumer_price_index" then Some(IndicatorDetails("מדד המחירים לצרכן", "%", false, ""))
    else if indicatorType == UsdIls then Some(IndicatorDetails("שער דולר / שקל", "₪", true, CurrentValue))
    else if indicatorType == EurIls then Some(IndicatorDetails("שער אירו / שקל", "₪", true, CurrentValue))
    else if indicatorType == "construction_input_index" then Some(IndicatorDetails("מדד תשומות הבנייה", "%", false, ""))
    else if indicatorType == "housing_price_index" then Some(IndicatorDetails("מדד מחירי הדיור", "%", false, ""))
    else None
  }

  /** The details a card uses: the table row, or for an unknown type its own
      name as title, no unit and no editing. */
  function CardDetails(indicatorType: string): (d: IndicatorDetails)
    ensures KnownDetails(indicatorType).None? ==> d == IndicatorDetails(indicatorType, "", false, "")
    ensures KnownDetails(indicatorType).Some? ==> d == KnownDetails(indicatorType).value
  {
    KnownDetails(indicatorType).GetOr(IndicatorDetails(indicatorType, "", false, ""))
  }

  /** The table lists exactly the types of `IndicatorOrder`, and only the two
      exchange rates can be edited, both on `current_value`. */
  lemma {:induction false} TableFacts(indicatorType: string)
    ensures KnownDetails(indicatorType).Some? <==> indicatorType in IndicatorOrder
    ensures CardDetails(indicatorType).editable <==> indicatorType == UsdIls || indicatorType == EurIls
    ensures CardDetails(indicatorType).editable ==> CardDetails(indicatorType).dataKey == CurrentValue
    ensures indicatorType !in IndicatorOrder ==> CardDetails(indicatorType).title == indicatorType
  {
  }

  // ---------------------------------------------------------------------------
  // Editing

  /** A stored data point; `data` holds its numeric fields. */
  datatype DataPoint = DataPoint(id: string, indicatorType: string, data: map<string, real>, lastUpdated: string)

  const InvalidValueMessage := "ערך השער חייב להיות מספר חיובי."
  const InvalidDateMessage := "תאריך העדכון אינו תקין."

  /** What `handleSave` does: sets an error, or sends this update. */
  datatype SaveOutcome = Invalid(message: string) | Update(data: map<string, real>, lastUpdated: string)

  /** `handleSave`: the value must be a positive number, then the date present and
      parseable (`parsed` is what the date parser made of `date`); the update
      writes the number under the indicator's data key and stamps the date. */
  function HandleSave(point: DataPoint, dataKey: string, value: NumText, date: string, parsed: Option<Date>): (r: SaveOutcome)
    ensures r.Invalid? <==> value.MissingOrNaN() || value.value <= 0.0 || date == "" || parsed.None?
    ensures value.MissingOrNaN() || value.value <= 0.0 ==> r == Invalid(InvalidValueMessage)
    ensures r.Update? ==> r.lastUpdated == date
    ensures r.Update? && dataKey != "" ==> dataKey in r.data && r.data[dataKey] == value.value
    ensures r.Update? ==> forall k :: k != dataKey ==> (k in r.data <==> k in point.data)
    ensures r.Update? ==> forall k :: k != dataKey && k in point.data ==> r.data[k] == point.data[k]
    ensures r.Update? && dataKey == "" ==> r.data == point.data
  {
    if value.MissingOrNaN() || value.value <= 0.0 then Invalid(InvalidValueMessage)
    else if date == "" || parsed.None? then Invalid(InvalidDateMessage)
    else
      var updated := if dataKey != "" then point.data[dataKey := value.value] else point.data;
      Update(updated, date)
  }

  /** A saved rate is always positive. */
  lemma {:induction false} SavedRatePositive(point: DataPoint, indicatorType: string, value: NumText, date: string, parsed: Option<Date>)
    requires CardDetails(indicatorType).editable
    ensures var r := HandleSave(point, CardDetails(indicatorType).dataKey, value, date, parsed);
            r.Update? ==> CurrentValue in r.data && r.data[CurrentValue] > 0.0
  {
    TableFacts(indicatorType);
  }

  // ---------------------------------------------------------------------------
  // List order

  /** `order.indexOf(t)`. */
  function IndexOf(order: seq<string>, t: string): (r: int)
    ensures -1 <= r < |order|
  {
    if order == [] then -1
    else if order[0] == t then 0
    else
      var r := IndexOf(order[1..], t);
      if r == -1 then -1 else r + 1
  }

  /** The position is that of the first occurrence, and -1 exactly when absent. */
  lemma {:induction false} IndexOfMeaning(order: seq<string>, t: string)
    ensures IndexOf(order, t) == -1 <==> t !in order
    ensures IndexOf(order, t) >= 0 ==> order[IndexOf(order, t)] == t
                                       && forall k :: 0 <= k < IndexOf(order, t) ==> order[k] != t
  {
    if order != [] && order[0] != t {
      IndexOfMeaning(order[1..], t);
      assert order == [order[0]] + order[1..];
    }
  }

  /** The sort key: the table position, -1 for an unknown type. */
  function Rank(p: DataPoint): int {
    IndexOf(IndicatorOrder, p.indicatorType)
  }

  predicate SortedByRank(points: seq<DataPoint>) {
    forall k, l :: 0 <= k < l < |points| ==> Rank(points[k]) <= Rank(points[l])
  }

  /** `data.sort` by table position, in place (insertion sort). */
  method SortByRank(a: array<DataPoint>)
    modifies a
    ensures SortedByRank(a[..])
    ensures multiset(a[..]) == multiset(old(a[..]))
  {
    if a.Length == 0 {
      return;
    }
    var i := 1;
    while i < a.Length
      invariant 1 <= i <= a.Length
      invariant SortedByRank(a[..i])
      invariant multiset(a[..]) == multiset(old(a[..]))
    {
      InsertLast(a, i);
      i := i + 1;
    }
    assert a[..i] == a[..];
  }

  /** Sorted except that position `j` may be out of place. */
  predicate SortedBut(points: seq<DataPoint>, j: nat) {
    forall k, l :: 0 <= k < l < |points| && l != j ==> Rank(points[k]) <= Rank(points[l])
  }

  /** Swapping the misplaced element one step down keeps the rest in order. */
  lemma {:induction false} SwapDown(points: seq<DataPoint>, j: nat)
    requires 0 < j < |points| && SortedBut(points, j) && Rank(points[j - 1]) > Rank(points[j])
    ensures SortedBut(points[j - 1 := points[j]][j := points[j - 1]], j - 1)
  {
    var swapped := points[j - 1 := points[j]][j := points[j - 1]];
    forall k, l | 0 <= k < l < |swapped| && l != j - 1
      ensures Rank(swapped[k]) <= Rank(swapped[l])
    {
      if l == j {
        if k < j - 1 {
          assert Rank(points[k]) <= Rank(points[j - 1]);
        }
      } else if l > j {
        if k == j {
          assert Rank(points[j - 1]) <= Rank(points[l]);
        } else if k == j - 1 {
          assert Rank(points[j]) <= Rank(points[l]);
        } else {
          assert Rank(points[k]) <= Rank(points[l]);
        }
      } else {
        assert Rank(points[k]) <= Rank(points[l]);
      }
    }
  }

  /** The misplaced element at the front, or not below its predecessor, is in place. */
  lemma {:induction false} SortedButDone(points: seq<DataPoint>, j: nat)
    requires j < |points| && SortedBut(points, j)
    requires j > 0 ==> Rank(points[j - 1]) <= Rank(points[j])
    ensures SortedByRank(points)
  {
    forall k, l | 0 <= k < l < |points| ensures Rank(points[k]) <= Rank(points[l]) {
      if l == j && k < j - 1 {
        assert Rank(points[k]) <= Rank(points[j - 1]);
      }
    }
  }

  /** Moves `a[i]` down into the sorted prefix `a[..i]`. */
  method InsertLast(a: array<DataPoint>, i: nat)
    requires i < a.Length && SortedByRank(a[..i])
    modifies a
    ensures SortedByRank(a[..i + 1])
    ensures multiset(a[..]) == multiset(old(a[..]))
  {
    var j := i;
    assert SortedBut(a[..i + 1], j) by {
      assert forall k :: 0 <= k < i ==> a[..i + 1][k] == a[..i][k];
    }
    while j > 0 && Rank(a[j - 1]) > Rank(a[j])
      invariant 0 <= j <= i
      invariant SortedBut(a[..i + 1], j)
      invariant multiset(a[..]) == multiset(old(a[..]))
    {
      ghost var before := a[..];
      SwapDown(a[..i + 1], j);
      a[j - 1], a[j] := a[j], a[j - 1];
      assert a[..] == before[j - 1 := before[j]][j := before[j - 1]];
      assert a[..i + 1] == before[..i + 1][j - 1 := before[j]][j := before[j - 1]];
      j := j - 1;
    }
    SortedButDone(a[..i + 1], j);
  }

  /** Unknown types come before every known one. */
  lemma {:induction false} UnknownFirst(points: seq<DataPoint>, k: nat, l: nat)
    requires SortedByRank(points) && k < |points| && l < |points|
    requires points[l].indicatorType !in IndicatorOrder && points[k].indicatorType in IndicatorOrder
    ensures l < k
  {
    IndexOfMeaning(IndicatorOrder, points[l].indicatorType);
    IndexOfMeaning(IndicatorOrder, points[k].indicatorType);
  }

  // ---------------------------------------------------------------------------
  // Display

  function IsExchangeRate(indicatorType: string): bool {
    indicatorType == UsdIls || indicatorType == EurIls
  }

  /** The most fraction digits a numeric field shows. */
  function FractionDigits(indicatorType: string, key: string): (n: nat)
    ensures n == 4 <==> IsExchangeRate(indicatorType) && key == CurrentValue
    ensures n == 2 || n == 4
  {
    if IsExchangeRate(indicatorType) && key == CurrentValue then 4 else 2
  }

  /** The unit shown after a numeric field, "" for none. */
  function UnitSuffix(indicatorType: string, key: string): (suffix: string)
    ensures suffix == "" || suffix == CardDetails(indicatorType).unit
    ensures suffix != "" <==> !IsExchangeRate(indicatorType) && key != "base_index_value"
                              && key != "current_index_value" && CardDetails(indicatorType).unit != ""
  {
    var unit := CardDetails(indicatorType).unit;
    if !IsExchangeRate(indicatorType) && key != "base_index_value" && key != "current_index_value" && unit != "" then unit else ""
  }

  /** Exchange rates never show a unit; the other table indicators show '%'
      except on index values; unknown types show none. */
  lemma {:induction false} UnitFacts(indicatorType: string, key: string)
    ensures IsExchangeRate(indicatorType) ==> UnitSuffix(indicatorType, key) == ""
    ensures indicatorType !in IndicatorOrder ==> UnitSuffix(indicatorType, key) == ""
    ensures (indicatorType in IndicatorOrder && !IsExchangeRate(indicatorType)
             && key != "base_index_value" && key != "current_index_value") ==> UnitSuffix(indicatorType, key) == "%"
  {
    TableFacts(indicatorType);
  }
}
