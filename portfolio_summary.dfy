/** The portfolio summary card: totals, the weighted daily change, and the
    allocation bar grouped by category. */
module PortfolioSummary {
  import opened Wrappers
  import opened Js
  import opened Assets
  import opened Holdings

  datatype Summary = Summary(totalValue: real, dailyChange: real, percentChange: real)

  /** The `summary` memo; `None` is an absent asset list. */
  function ComputeSummary(assets: Option<seq<Asset>>): (s: Summary)
    ensures assets.None? || assets.value == [] ==> s == Summary(0.0, 0.0, 0.0)
    ensures assets.Some? ==> s.totalValue == TotalValue(assets.value) && s.dailyChange == DailyChange(assets.value)
    ensures s.totalValue > 0.0 ==> s.percentChange * s.totalValue == s.dailyChange * 100.0
    ensures s.totalValue <= 0.0 ==> s.percentChange == 0.0
  {
    if assets.None? || |assets.value| == 0 then Summary(0.0, 0.0, 0.0)
    else
      var total := TotalValue(assets.value);
      var change := DailyChange(assets.value);
      Summary(total, change, PercentChange(change, total))
  }

  /** One bar segment: a category's value and number of assets. */
  datatype Group = Group(category: string, value: real, count: nat)

  /** A missing category is grouped as 'Other'. */
  function GroupKey(a: Asset): string {
    if a.category == "" then "Other" else a.category
  }

  /** Adds one asset's value to its group, or opens the group after the others. */
  function AddToGroup(groups: seq<Group>, key: string, v: real): seq<Group> {
    if groups == [] then [Group(key, v, 1)]
    else if groups[0].category == key then [Group(key, groups[0].value + v, groups[0].count + 1)] + groups[1..]
    else [groups[0]] + AddToGroup(groups[1..], key, v)
  }

  /** The groups in the order `Object.entries` lists them: first appearance. */
  function GroupAssets(assets: seq<Asset>): seq<Group> {
    if assets == [] then []
    else
      var a := assets[|assets| - 1];
      AddToGroup(GroupAssets(assets[..|assets| - 1]), GroupKey(a), HoldingValue(a))
  }

  /** `groupAssetsByCategory`, with its accumulator updated in place per asset. */
  method GroupAssetsByCategory(assets: seq<Asset>) returns (groups: seq<Group>)
    ensures groups == GroupAssets(assets)
  {
    groups := [];
    var i := 0;
    while i < |assets|
      invariant 0 <= i <= |assets|
      invariant groups == GroupAssets(assets[..i])
    {
      var asset := assets[i];
      var category := GroupKey(asset);
      var assetValue := HoldingValue(asset);
      var j := GroupIndex(groups, category);
      AddToGroupAt(groups, category, assetValue, j);
      GroupAssetsStep(assets, i);
      if j == |groups| {
        groups := groups + [Group(category, assetValue, 1)];
      } else {
        groups := groups[j := Group(category, groups[j].value + assetValue, groups[j].count + 1)];
      }
      i := i + 1;
    }
    assert assets[..i] == assets;
  }

  /** `acc[category]`: the position of the group of `key`, `|groups|` when absent. */
  method GroupIndex(groups: seq<Group>, key: string) returns (j: nat)
    ensures j <= |groups|
    ensures forall k :: 0 <= k < j ==> groups[k].category != key
    ensures j < |groups| ==> groups[j].category == key
  {
    j := 0;
    while j < |groups| && groups[j].category != key
      invariant 0 <= j <= |groups|
      invariant forall k :: 0 <= k < j ==> groups[k].category != key
    {
      j := j + 1;
    }
  }

  lemma {:induction false} GroupAssetsStep(assets: seq<Asset>, i: nat)
    requires i < |assets|
    ensures GroupAssets(assets[..i + 1]) == AddToGroup(GroupAssets(assets[..i]), GroupKey(assets[i]), HoldingValue(assets[i]))
  {
    assert assets[..i + 1][..i] == assets[..i];
  }

  /** Where `AddToGroup` lands: at the first group with the key, else at the end. */
  lemma {:induction false} AddToGroupAt(groups: seq<Group>, key: string, v: real, j: nat)
    requires j <= |groups|
    requires forall k :: 0 <= k < j ==> groups[k].category != key
    requires j < |groups| ==> groups[j].category == key
    ensures AddToGroup(groups, key, v)
            == if j == |groups| then groups + [Group(key, v, 1)]
               else groups[j := Group(key, groups[j].value + v, groups[j].count + 1)]
  {
    if groups != [] && groups[0].category != key {
      AddToGroupAt(groups[1..], key, v, j - 1);
    }
  }

  function SumGroupValues(groups: seq<Group>): real {
    if groups == [] then 0.0 else groups[0].value + SumGroupValues(groups[1..])
  }

  function SumGroupCounts(groups: seq<Group>): nat {
    if groups == [] then 0 else groups[0].count + SumGroupCounts(groups[1..])
  }

  predicate DistinctCategories(groups: seq<Group>) {
    forall i, j :: 0 <= i < j < |groups| ==> groups[i].category != groups[j].category
  }

  lemma {:induction false} AddToGroupSums(groups: seq<Group>, key: string, v: real)
    ensures SumGroupValues(AddToGroup(groups, key, v)) == SumGroupValues(groups) + v
    ensures SumGroupCounts(AddToGroup(groups, key, v)) == SumGroupCounts(groups) + 1
  {
    if groups != [] && groups[0].category != key {
      AddToGroupSums(groups[1..], key, v);
    }
  }

  lemma {:induction false} AddToGroupCategories(groups: seq<Group>, key: string, v: real)
    ensures forall g :: g in AddToGroup(groups, key, v) ==> g.category == key || g in groups
  {
    if groups != [] && groups[0].category != key {
      AddToGroupCategories(groups[1..], key, v);
    }
  }

  lemma {:induction false} AddToGroupDistinct(groups: seq<Group>, key: string, v: real)
    requires DistinctCategories(groups)
    ensures DistinctCategories(AddToGroup(groups, key, v))
  {
    if groups == [] {
    } else if groups[0].category != key {
      var rest := AddToGroup(groups[1..], key, v);
      assert DistinctCategories(groups[1..]);
      AddToGroupDistinct(groups[1..], key, v);
      AddToGroupCategories(groups[1..], key, v);
      forall g | g in rest ensures g.category != groups[0].category {
        if g.category != key {
          assert g in groups[1..];
        }
      }
      ConsDistinct(groups[0], rest);
    } else {
      forall i | 0 < i < |groups| ensures groups[i].category != key {
        assert groups[0].category != groups[i].category;
      }
    }
  }

  lemma {:induction false} ConsDistinct(h: Group, rest: seq<Group>)
    requires DistinctCategories(rest)
    requires forall g :: g in rest ==> g.category != h.category
    ensures DistinctCategories([h] + rest)
  {
    var r := [h] + rest;
    forall i, j | 0 <= i < j < |r| ensures r[i].category != r[j].category {
      if i == 0 {
        assert r[j] in rest;
      } else {
        assert r[i] == rest[i - 1] && r[j] == rest[j - 1];
      }
    }
  }

  /** The groups partition the portfolio: each category once, values adding up to
      the total value and counts to the number of assets. */
  lemma {:induction false} GroupsPartition(assets: seq<Asset>)
    ensures DistinctCategories(GroupAssets(assets))
    ensures SumGroupValues(GroupAssets(assets)) == TotalValue(assets)
    ensures SumGroupCounts(GroupAssets(assets)) == |assets|
  {
    if assets != [] {
      var a := assets[|assets| - 1];
      GroupsPartition(assets[..|assets| - 1]);
      AddToGroupSums(GroupAssets(assets[..|assets| - 1]), GroupKey(a), HoldingValue(a));
      AddToGroupDistinct(GroupAssets(assets[..|assets| - 1]), GroupKey(a), HoldingValue(a));
    }
  }

  // ---------------------------------------------------------------------------
  // Allocation order and colours

  /** Inserts `g`, which came first in the input, after every group of a larger
      value and before the rest (the comparator `b.value - a.value` under a stable
      sort, which keeps equal values in input order). */
  function InsertByValue(g: Group, sorted: seq<Group>): (r: seq<Group>)
    requires DescendingByValue(sorted)
    ensures DescendingByValue(r)
    ensures multiset(r) == multiset(sorted) + multiset{g}
  {
    if sorted == [] then [g]
    else if g.value >= sorted[0].value then
      LeadsDescending(g, sorted);
      [g] + sorted
    else
      DescendingTail(sorted);
      var rest := InsertByValue(g, sorted[1..]);
      InsertBehindHead(sorted, g, rest);
      [sorted[0]] + rest
  }

  lemma {:induction false} DescendingTail(sorted: seq<Group>)
    requires sorted != [] && DescendingByValue(sorted)
    ensures DescendingByValue(sorted[1..])
  {
    var tail := sorted[1..];
    forall i, j | 0 <= i < j < |tail| ensures tail[i].value >= tail[j].value {
      assert tail[i] == sorted[i + 1] && tail[j] == sorted[j + 1];
    }
  }

  /** A group of at least the first value may lead a descending list. */
  lemma {:induction false} LeadsDescending(g: Group, sorted: seq<Group>)
    requires sorted != [] && DescendingByValue(sorted) && g.value >= sorted[0].value
    ensures DescendingByValue([g] + sorted)
  {
    forall x | x in sorted ensures x.value <= g.value {
      var i :| 0 <= i < |sorted| && sorted[i] == x;
    }
    ConsDescending(g, sorted);
  }

  /** The first group stays ahead when a smaller one is inserted into the rest. */
  lemma {:induction false} InsertBehindHead(sorted: seq<Group>, g: Group, rest: seq<Group>)
    requires sorted != [] && DescendingByValue(sorted) && g.value < sorted[0].value
    requires DescendingByValue(rest) && multiset(rest) == multiset(sorted[1..]) + multiset{g}
    ensures DescendingByValue([sorted[0]] + rest)
    ensures multiset([sorted[0]] + rest) == multiset(sorted) + multiset{g}
  {
    var head, tail := sorted[0], sorted[1..];
    assert sorted == [head] + tail;
    forall x | x in tail ensures x.value <= head.value {
      var i :| 0 <= i < |tail| && tail[i] == x;
      assert sorted[i + 1] == x;
    }
    BoundedAfterInsert(rest, g, tail, head.value);
    ConsDescending(head, rest);
  }

  /** Adding `g` to a list keeps a bound that `g` and the list both respect. */
  lemma {:induction false} BoundedAfterInsert(rest: seq<Group>, g: Group, tail: seq<Group>, bound: real)
    requires multiset(rest) == multiset(tail) + multiset{g}
    requires g.value <= bound && forall x :: x in tail ==> x.value <= bound
    ensures forall x :: x in rest ==> x.value <= bound
  {
    forall x | x in rest ensures x.value <= bound {
      assert x in multiset(rest);
      if x != g {
        assert x in multiset(tail);
      }
    }
  }

  lemma {:induction false} WithValueCons(h: Group, rest: seq<Group>, v: real)
    ensures WithValue([h] + rest, v) == (if h.value == v then [h] else []) + WithValue(rest, v)
  {
    assert ([h] + rest)[0] == h && ([h] + rest)[1..] == rest;
  }

  /** A group of at least every value of a descending list may lead it. */
  lemma {:induction false} ConsDescending(h: Group, rest: seq<Group>)
    requires DescendingByValue(rest)
    requires forall x :: x in rest ==> x.value <= h.value
    ensures DescendingByValue([h] + rest)
  {
    var r := [h] + rest;
    forall i, j | 0 <= i < j < |r| ensures r[i].value >= r[j].value {
      assert r[j] == rest[j - 1];
      if i > 0 {
        assert r[i] == rest[i - 1];
      }
    }
  }

  predicate DescendingByValue(groups: seq<Group>) {
    forall i, j :: 0 <= i < j < |groups| ==> groups[i].value >= groups[j].value
  }

  /** The groups of value `v`, in list order. */
  function WithValue(groups: seq<Group>, v: real): seq<Group> {
    if groups == [] then []
    else (if groups[0].value == v then [groups[0]] else []) + WithValue(groups[1..], v)
  }

  /** Inserting `g` puts it ahead of every group of its own value. */
  lemma {:induction false} InsertByValueTies(g: Group, sorted: seq<Group>, v: real)
    requires DescendingByValue(sorted)
    ensures WithValue(InsertByValue(g, sorted), v) == (if g.value == v then [g] else []) + WithValue(sorted, v)
  {
    var own := if g.value == v then [g] else [];
    if sorted != [] && g.value < sorted[0].value {
      var head, tail := sorted[0], sorted[1..];
      DescendingTail(sorted);
      var rest := InsertByValue(g, tail);
      InsertByValueTies(g, tail, v);
      assert InsertByValue(g, sorted) == [head] + rest;
      WithValueCons(head, rest, v);
      assert sorted == [head] + tail;
      WithValueCons(head, tail, v);
      var lead := if head.value == v then [head] else [];
      var w := WithValue(tail, v);
      if lead == [] {
        assert lead + (own + w) == own + w && lead + w == w;
      } else {
        assert own == [];
        assert own + (lead + w) == lead + w && own + w == w;
      }
    } else if sorted != [] {
      WithValueCons(g, sorted, v);
    }
  }

  /** The allocation entries, largest first: a permutation ordered by value in
      which groups of equal value keep their input order. */
  function SortByValueDescending(groups: seq<Group>): (r: seq<Group>)
    ensures DescendingByValue(r)
    ensures multiset(r) == multiset(groups)
    ensures forall v :: WithValue(r, v) == WithValue(groups, v)
  {
    if groups == [] then []
    else
      assert groups == [groups[0]] + groups[1..];
      var rest := SortByValueDescending(groups[1..]);
      forall v ensures WithValue(InsertByValue(groups[0], rest), v) == WithValue(groups, v) {
        InsertByValueTies(groups[0], rest, v);
      }
      InsertByValue(groups[0], rest)
  }

  const Palette := ["#3b82f6", "#8b5cf6", "#ec4899", "#f97316", "#10b981", "#06b6d4", "#6366f1", "#f59e0b", "#ef4444", "#84cc16"]

  /** The fixed colour of a named category, if it has one. */
  function FixedColor(category: string): Option<string> {
    if category == "Stocks" then Some("#3b82f6")
    else if category == "Crypto" then Some("#8b5cf6")
    else if category == "Bonds" then Some("#10b981")
    else if category == "Cash" then Some("#f59e0b")
    else if category == "Real Estate" then Some("#f97316")
    else if category == "Commodities" then Some("#ec4899")
    else None
  }

  /** `getCategoryColor`: the fixed colour, else the palette entry at the bar position. */
  function CategoryColor(category: string, index: nat): (c: string)
    ensures c in Palette
    ensures FixedColor(category).None? ==> c == Palette[index % |Palette|]
    ensures FixedColor(category).Some? ==> c == FixedColor(category).value
  {
    match FixedColor(category)
    case Some(c) => c
    case None => Palette[index % |Palette|]
  }
}
