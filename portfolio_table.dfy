/** The dashboard's portfolio table: assets grouped by category, per-category
    totals, the expanded-rows toggle and the category colour lookup. */
module PortfolioTable {
  import opened Wrappers
  import opened Js
  import opened Assets
  import opened Holdings

  // ---------------------------------------------------------------------------
  // Expanded categories

  /** `toggleCategory`: closes an open category, opens a closed one at the end. */
  function Toggle(expanded: seq<string>, c: string): seq<string> {
    if c in expanded then Without(expanded, c) else expanded + [c]
  }

  /** Toggling flips the membership of that category and of no other. */
  lemma {:induction false} ToggleFlips(expanded: seq<string>, c: string)
    ensures c in Toggle(expanded, c) <==> c !in expanded
    ensures forall x :: x != c ==> (x in Toggle(expanded, c) <==> x in expanded)
  {
  }

  /** Toggling twice opens the same categories as before; from a closed
      category it restores the list exactly. */
  lemma {:induction false} ToggleTwice(expanded: seq<string>, c: string)
    ensures forall x :: x in Toggle(Toggle(expanded, c), c) <==> x in expanded
    ensures c !in expanded ==> Toggle(Toggle(expanded, c), c) == expanded
  {
    ToggleFlips(expanded, c);
    ToggleFlips(Toggle(expanded, c), c);
    if c !in expanded {
      WithoutAbsent(expanded, c);
      WithoutAppend(expanded, [c], c);
      assert Without([c], c) == [] by {
        assert [c][1..] == [];
      }
      assert expanded + [] == expanded;
    }
  }

  /** The expanded list never repeats a category. */
  lemma {:induction false} ToggleKeepsNoDuplicates(expanded: seq<string>, c: string)
    requires NoDuplicates(expanded)
    ensures NoDuplicates(Toggle(expanded, c))
  {
    if c in expanded {
      WithoutKeepsNoDuplicates(expanded, c);
    }
  }

  // ---------------------------------------------------------------------------
  // Assets by category

  /** One table section: a category and its assets in list order. */
  datatype Bucket = Bucket(category: string, assets: seq<Asset>)

  /** A missing category is shown as 'Uncategorized'. */
  function TableKey(a: Asset): string {
    if a.category == "" then "Uncategorized" else a.category
  }

  /** Appends `a` to the section of `key`, opening it after the others if absent. */
  function AddAsset(buckets: seq<Bucket>, key: string, a: Asset): seq<Bucket> {
    if buckets == [] then [Bucket(key, [a])]
    else if buckets[0].category == key then [Bucket(key, buckets[0].assets + [a])] + buckets[1..]
    else [buckets[0]] + AddAsset(buckets[1..], key, a)
  }

  /** The sections in the order `Object.entries` lists them: first appearance. */
  function ByCategory(assets: seq<Asset>): seq<Bucket> {
    if assets == [] then []
    else
      var a := assets[|assets| - 1];
      AddAsset(ByCategory(assets[..|assets| - 1]), TableKey(a), a)
  }

  /** `assetsByCategory`, pushing each asset onto its section in place. */
  method AssetsByCategory(assets: seq<Asset>) returns (buckets: seq<Bucket>)
    ensures buckets == ByCategory(assets)
  {
    buckets := [];
    var i := 0;
    while i < |assets|
      invariant 0 <= i <= |assets|
      invariant buckets == ByCategory(assets[..i])
    {
      var asset := assets[i];
      var category := if asset.category == "" then "Uncategorized" else asset.category;
      var j := SectionIndex(buckets, category);
      AddAssetAt(buckets, category, asset, j);
      ByCategoryStep(assets, i);
      if j == |buckets| {
        buckets := buckets + [Bucket(category, [asset])];
      } else {
        buckets := buckets[j := Bucket(category, buckets[j].assets + [asset])];
      }
      i := i + 1;
    }
    assert assets[..i] == assets;
  }

  /** `acc[category]`: the position of the section of `key`, `|buckets|` when absent. */
  method SectionIndex(buckets: seq<Bucket>, key: string) returns (j: nat)
    ensures j <= |buckets|
    ensures forall k :: 0 <= k < j ==> buckets[k].category != key
    ensures j < |buckets| ==> buckets[j].category == key
  {
    j := 0;
    while j < |buckets| && buckets[j].category != key
      invariant 0 <= j <= |buckets|
      invariant forall k :: 0 <= k < j ==> buckets[k].category != key
    {
      j := j + 1;
    }
  }

  lemma {:induction false} ByCategoryStep(assets: seq<Asset>, i: nat)
    requires i < |assets|
    ensures ByCategory(assets[..i + 1]) == AddAsset(ByCategory(assets[..i]), TableKey(assets[i]), assets[i])
  {
    assert assets[..i + 1][..i] == assets[..i];
  }

  lemma {:induction false} AddAssetAt(buckets: seq<Bucket>, key: string, a: Asset, j: nat)
    requires j <= |buckets|
    requires forall k :: 0 <= k < j ==> buckets[k].category != key
    requires j < |buckets| ==> buckets[j].category == key
    ensures AddAsset(buckets, key, a)
            == if j == |buckets| then buckets + [Bucket(key, [a])]
               else buckets[j := Bucket(key, buckets[j].assets + [a])]
  {
    if buckets != [] && buckets[0].category != key {
      AddAssetAt(buckets[1..], key, a, j - 1);
    }
  }

  /** The assets of the first section named `key`, none when there is none. */
  function Lookup(buckets: seq<Bucket>, key: string): seq<Asset> {
    if buckets == [] then []
    else if buckets[0].category == key then buckets[0].assets
    else Lookup(buckets[1..], key)
  }

  predicate HasSection(buckets: seq<Bucket>, key: string) {
    exists b :: b in buckets && b.category == key
  }

  /** The assets filed under `key`, in list order: the reference definition. */
  function Filter(assets: seq<Asset>, key: string): (r: seq<Asset>)
    ensures forall a :: a in r <==> a in assets && TableKey(a) == key
  {
    if assets == [] then []
    else
      var a := assets[|assets| - 1];
      Filter(assets[..|assets| - 1], key) + (if TableKey(a) == key then [a] else [])
  }

  lemma {:induction false} AddAssetLookup(buckets: seq<Bucket>, key: string, a: Asset, k: string)
    ensures Lookup(AddAsset(buckets, key, a), k) == Lookup(buckets, k) + (if k == key then [a] else [])
    ensures HasSection(AddAsset(buckets, key, a), k) <==> HasSection(buckets, k) || k == key
  {
    if buckets != [] && buckets[0].category != key {
      AddAssetLookup(buckets[1..], key, a, k);
      assert HasSection(buckets, k) <==> buckets[0].category == k || HasSection(buckets[1..], k) by {
        assert buckets == [buckets[0]] + buckets[1..];
      }
    } else if buckets != [] {
      assert HasSection(AddAsset(buckets, key, a), k) <==> HasSection(buckets, k) by {
        var r := AddAsset(buckets, key, a);
        assert r[1..] == buckets[1..] && r[0].category == buckets[0].category;
        assert r == [r[0]] + r[1..] && buckets == [buckets[0]] + buckets[1..];
      }
    } else {
      assert AddAsset(buckets, key, a)[0].category == key;
    }
  }

  /** Each section holds exactly the assets of its category, in list order, and a
      section exists exactly for the categories some asset carries. */
  lemma {:induction false} ByCategoryMeaning(assets: seq<Asset>, k: string)
    ensures Lookup(ByCategory(assets), k) == Filter(assets, k)
    ensures HasSection(ByCategory(assets), k) <==> Filter(assets, k) != []
  {
    if assets != [] {
      var init, a := assets[..|assets| - 1], assets[|assets| - 1];
      ByCategoryMeaning(init, k);
      AddAssetLookup(ByCategory(init), TableKey(a), a, k);
    }
  }

  predicate DistinctSections(buckets: seq<Bucket>) {
    forall i, j :: 0 <= i < j < |buckets| ==> buckets[i].category != buckets[j].category
  }

  lemma {:induction false} AddAssetSections(buckets: seq<Bucket>, key: string, a: Asset)
    ensures forall b :: b in AddAsset(buckets, key, a) ==> b.category == key || b in buckets
  {
    if buckets != [] && buckets[0].category != key {
      AddAssetSections(buckets[1..], key, a);
    }
  }

  lemma {:induction false} ConsSections(h: Bucket, rest: seq<Bucket>)
    requires DistinctSections(rest)
    requires forall b :: b in rest ==> b.category != h.category
    ensures DistinctSections([h] + rest)
  {
    var r := [h] + rest;
    forall i, j | 0 <= i < j < |r| ensures r[i].category != r[j].category {
      if i == 0 {
        assert r[j] in rest;
      } else {
        assert r[i] == rest[i - 1] && r[j] == rest[j - 1];
      }
    }
  }

  lemma {:induction false} AddAssetDistinct(buckets: seq<Bucket>, key: string, a: Asset)
    requires DistinctSections(buckets)
    ensures DistinctSections(AddAsset(buckets, key, a))
  {
    if buckets == [] {
    } else if buckets[0].category != key {
      var rest := AddAsset(buckets[1..], key, a);
      assert DistinctSections(buckets[1..]);
      AddAssetDistinct(buckets[1..], key, a);
      AddAssetSections(buckets[1..], key, a);
      forall b | b in rest ensures b.category != buckets[0].category {
        if b.category != key {
          assert b in buckets[1..];
        }
      }
      ConsSections(buckets[0], rest);
    } else {
      forall i | 0 < i < |buckets| ensures buckets[i].category != key {
        assert buckets[0].category != buckets[i].category;
      }
    }
  }

  /** No category has two sections. */
  lemma {:induction false} ByCategoryDistinct(assets: seq<Asset>)
    ensures DistinctSections(ByCategory(assets))
  {
    if assets != [] {
      var a := assets[|assets| - 1];
      ByCategoryDistinct(assets[..|assets| - 1]);
      AddAssetDistinct(ByCategory(assets[..|assets| - 1]), TableKey(a), a);
    }
  }

  // ---------------------------------------------------------------------------
  // Category totals

  datatype CategoryRow = CategoryRow(total: real, dailyChange: real, percentChange: real)

  /** The totals row of one section. */
  function RowOf(assets: seq<Asset>): (r: CategoryRow)
    ensures r.total == TotalValue(assets) && r.dailyChange == DailyChange(assets)
    ensures r.total > 0.0 ==> r.percentChange * r.total == r.dailyChange * 100.0
    ensures r.total <= 0.0 ==> r.percentChange == 0.0
  {
    CategoryRow(TotalValue(assets), DailyChange(assets), PercentChange(DailyChange(assets), TotalValue(assets)))
  }

  /** `categoryTotals`: a row per section, keyed by category. */
  function CategoryTotals(buckets: seq<Bucket>): map<string, CategoryRow> {
    if buckets == [] then map[]
    else CategoryTotals(buckets[1..])[buckets[0].category := RowOf(buckets[0].assets)]
  }

  lemma {:induction false} CategoryTotalsLookup(buckets: seq<Bucket>, k: string)
    ensures k in CategoryTotals(buckets) <==> HasSection(buckets, k)
    ensures k in CategoryTotals(buckets) ==> CategoryTotals(buckets)[k] == RowOf(Lookup(buckets, k))
  {
    if buckets != [] {
      CategoryTotalsLookup(buckets[1..], k);
      assert HasSection(buckets, k) <==> buckets[0].category == k || HasSection(buckets[1..], k) by {
        assert buckets == [buckets[0]] + buckets[1..];
      }
    }
  }

  /** A category has a totals row exactly when some asset carries it, and the
      row sums exactly that category's assets. */
  lemma {:induction false} CategoryTotalsMeaning(assets: seq<Asset>, k: string)
    ensures k in CategoryTotals(ByCategory(assets)) <==> exists a :: a in assets && TableKey(a) == k
    ensures k in CategoryTotals(ByCategory(assets)) ==> CategoryTotals(ByCategory(assets))[k] == RowOf(Filter(assets, k))
  {
    ByCategoryMeaning(assets, k);
    CategoryTotalsLookup(ByCategory(assets), k);
    if exists a :: a in assets && TableKey(a) == k {
      var a :| a in assets && TableKey(a) == k;
      assert a in Filter(assets, k);
    } else if Filter(assets, k) != [] {
      assert Filter(assets, k)[0] in Filter(assets, k);
    }
  }

  function SumSectionTotals(buckets: seq<Bucket>): real {
    if buckets == [] then 0.0 else TotalValue(buckets[0].assets) + SumSectionTotals(buckets[1..])
  }

  function SumSectionSizes(buckets: seq<Bucket>): nat {
    if buckets == [] then 0 else |buckets[0].assets| + SumSectionSizes(buckets[1..])
  }

  lemma {:induction false} AddAssetSums(buckets: seq<Bucket>, key: string, a: Asset)
    ensures SumSectionTotals(AddAsset(buckets, key, a)) == SumSectionTotals(buckets) + HoldingValue(a)
    ensures SumSectionSizes(AddAsset(buckets, key, a)) == SumSectionSizes(buckets) + 1
  {
    if buckets == [] {
      assert [a][..0] == [];
      assert [Bucket(key, [a])][1..] == [];
      assert TotalValue([a]) == TotalValue([]) + HoldingValue(a);
      assert SumSectionTotals([Bucket(key, [a])]) == TotalValue([a]) + SumSectionTotals([]);
    } else if buckets[0].category == key {
      var xs := buckets[0].assets;
      assert (xs + [a])[..|xs|] == xs;
    } else {
      AddAssetSums(buckets[1..], key, a);
    }
  }

  /** The sections partition the portfolio: their totals add up to its value and
      their sizes to its number of assets. */
  lemma {:induction false} SectionsPartition(assets: seq<Asset>)
    ensures SumSectionTotals(ByCategory(assets)) == TotalValue(assets)
    ensures SumSectionSizes(ByCategory(assets)) == |assets|
  {
    if assets != [] {
      var a := assets[|assets| - 1];
      SectionsPartition(assets[..|assets| - 1]);
      AddAssetSums(ByCategory(assets[..|assets| - 1]), TableKey(a), a);
    }
  }

  // ---------------------------------------------------------------------------
  // Category colours

  /** A user-defined category and its colour (possibly empty). */
  datatype Category = Category(name: string, color: string)

  const DefaultColor := "#3b82f6"

  /** `categories.find(c => c.name === category)`. */
  function FindCategory(categories: seq<Category>, name: string): (r: Option<Category>)
    ensures r.None? <==> forall c :: c in categories ==> c.name != name
    ensures r.Some? ==> (exists i :: 0 <= i < |categories| && categories[i] == r.value && r.value.name == name
                                     && forall j :: 0 <= j < i ==> categories[j].name != name)
  {
    if categories == [] then None
    else if categories[0].name == name then Some(categories[0])
    else
      var r := FindCategory(categories[1..], name);
      assert categories == [categories[0]] + categories[1..];
      if r.Some? then
        var i :| 0 <= i < |categories[1..]| && categories[1..][i] == r.value && r.value.name == name
                 && forall j :: 0 <= j < i ==> categories[1..][j].name != name;
        assert categories[i + 1] == r.value;
        assert forall j :: 0 <= j < i + 1 ==> categories[j].name != name by {
          forall j | 0 < j < i + 1 ensures categories[j].name != name {
            assert categories[j] == categories[1..][j - 1];
          }
        }
        r
      else r
  }

  /** `getCategoryColor`: the first same-named category's colour, blue when there
      is none or its colour is empty. */
  function GetCategoryColor(categories: seq<Category>, name: string): (color: string)
    ensures color != ""
    ensures (forall c :: c in categories ==> c.name != name) ==> color == DefaultColor
    ensures forall i :: 0 <= i < |categories| && categories[i].name == name
                        && (forall j :: 0 <= j < i ==> categories[j].name != name)
                        ==> color == (if categories[i].color != "" then categories[i].color else DefaultColor)
  {
    match FindCategory(categories, name)
    case Some(c) => if c.color != "" then c.color else DefaultColor
    case None => DefaultColor
  }
}
