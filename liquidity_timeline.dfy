/** The liquidity page's 24-month chart: the cumulative amount that is liquid at the
    start of each month, from the current month on. */
module LiquidityTimeline {
  import opened Wrappers
  import opened Dates
  import opened Liquidity

  const HorizonMonths := 24

  /** A chart point: a month (as `MonthIndex`) and the cumulative liquid value. */
  datatype Point = Point(month: int, value: real)

  /** `relevantAssets`: dated, and either liquid now or liquid after today. */
  predicate IsRelevant(p: Processed, today: Date) {
    p.liquidityDate.Some? && (p.isLiquidNow || After(p.liquidityDate.value, today))
  }

  function Relevant(ps: seq<Processed>, today: Date): (r: seq<Processed>)
    ensures forall p :: p in r <==> p in ps && IsRelevant(p, today)
  {
    if ps == [] then []
    else Relevant(ps[..|ps| - 1], today) + (if IsRelevant(ps[|ps| - 1], today) then [ps[|ps| - 1]] else [])
  }

  /** The chart adds an asset in month `m` when it is not yet liquid and its day falls in `m`. */
  predicate BecomesLiquidIn(p: Processed, m: int) {
    !p.isLiquidNow && p.liquidityDate.Some? && MonthIndex(p.liquidityDate.value) == m
  }

  /** `newlyLiquidThisMonth`. */
  function MonthSum(rel: seq<Processed>, m: int): real {
    if rel == [] then 0.0
    else MonthSum(rel[..|rel| - 1], m) + (if BecomesLiquidIn(rel[|rel| - 1], m) then rel[|rel| - 1].valueInIls else 0.0)
  }

  /** The values of not-yet-liquid assets whose month lies in `[lo, hi)`. */
  function WindowSum(ps: seq<Processed>, lo: int, hi: int): real {
    if ps == [] then 0.0
    else WindowSum(ps[..|ps| - 1], lo, hi) + InWindow(ps[|ps| - 1], lo, hi)
  }

  function InWindow(p: Processed, lo: int, hi: int): real {
    if !p.isLiquidNow && p.liquidityDate.Some? && lo <= MonthIndex(p.liquidityDate.value) < hi
    then p.valueInIls else 0.0
  }

  /** Whether a future month gets a point: money arrived, it is the first future
      month, or the cumulative value moved since the last point. */
  predicate EmitsPoint(points: seq<Point>, seeded: bool, newly: real, cumulative: real) {
    newly > 0.0 || |points| == (if seeded then 1 else 0) || points == []
    || cumulative != points[|points| - 1].value
  }

  /** The month loop over months `m` up to (not including) `hi`. */
  function FutureMonths(rel: seq<Processed>, m: int, hi: int, points: seq<Point>, cumulative: real, seeded: bool): seq<Point>
    decreases hi - m
  {
    if m >= hi then points
    else
      var newly := MonthSum(rel, m);
      var cumulative' := cumulative + newly;
      var points' := if EmitsPoint(points, seeded, newly, cumulative') then points + [Point(m, cumulative')] else points;
      FutureMonths(rel, m + 1, hi, points', cumulative', seeded)
  }

  /** The current month's point: only when something is liquid now. */
  function Seed(total: real, thisMonth: int): seq<Point> {
    if total > 0.0 then [Point(thisMonth, total)] else []
  }

  function StartValue(total: real): real {
    if total > 0.0 then total else 0.0
  }

  /** The data points before the duplicate filter. */
  function RawTimeline(ps: seq<Processed>, today: Date): seq<Point> {
    var total := TotalLiquidValue(ps);
    var m := MonthIndex(today);
    FutureMonths(Relevant(ps, today), m + 1, m + 1 + HorizonMonths, Seed(total, m), StartValue(total), total > 0.0)
  }

  /** The `reduce` that drops a point equal in month and value to the point before it. */
  function DedupFrom(points: seq<Point>, i: nat, acc: seq<Point>): seq<Point>
    requires i <= |points|
    decreases |points| - i
  {
    if i == |points| then acc
    else
      var p := points[i];
      var acc' := if i == 0 || p.month != points[i - 1].month || p.value != points[i - 1].value then acc + [p] else acc;
      DedupFrom(points, i + 1, acc')
  }

  /** `timelineData`. */
  function Timeline(ps: seq<Processed>, today: Date): seq<Point> {
    var total := TotalLiquidValue(ps);
    if |Relevant(ps, today)| == 0 && total == 0.0 then []
    else
      var d := DedupFrom(RawTimeline(ps, today), 0, []);
      if |d| == 0 && total > 0.0 then [Point(MonthIndex(today), total)] else d
  }

  /** The inner loop: the value that becomes liquid in `month`. */
  method NewlyLiquid(rel: seq<Processed>, month: int) returns (newly: real)
    ensures newly == MonthSum(rel, month)
  {
    newly := 0.0;
    var j := 0;
    while j < |rel|
      invariant 0 <= j <= |rel|
      invariant newly == MonthSum(rel[..j], month)
    {
      assert rel[..j + 1][..j] == rel[..j];
      if !rel[j].isLiquidNow && rel[j].liquidityDate.Some? && MonthIndex(rel[j].liquidityDate.value) == month {
        newly := newly + rel[j].valueInIls;
      }
      j := j + 1;
    }
    assert rel[..j] == rel;
  }

  /** The month loop, appending to `dataPoints` for months `start` up to `hi`. */
  method AddFutureMonths(rel: seq<Processed>, start: int, hi: int, dataPoints: seq<Point>, cumulative: real, seeded: bool)
    returns (points: seq<Point>)
    ensures points == FutureMonths(rel, start, hi, dataPoints, cumulative, seeded)
  {
    points := dataPoints;
    var cum := cumulative;
    var month := start;
    while month < hi
      invariant FutureMonths(rel, month, hi, points, cum, seeded)
                == FutureMonths(rel, start, hi, dataPoints, cumulative, seeded)
      decreases hi - month
    {
      var newly := NewlyLiquid(rel, month);
      cum := cum + newly;
      if newly > 0.0 || |points| == (if seeded then 1 else 0) || points == []
         || cum != points[|points| - 1].value {
        points := points + [Point(month, cum)];
      }
      month := month + 1;
    }
  }

  /** The duplicate filter as a loop. */
  method Dedup(points: seq<Point>) returns (unique: seq<Point>)
    ensures unique == DedupFrom(points, 0, [])
  {
    unique := [];
    var i := 0;
    while i < |points|
      invariant 0 <= i <= |points|
      invariant DedupFrom(points, i, unique) == DedupFrom(points, 0, [])
    {
      var p := points[i];
      if i == 0 || p.month != points[i - 1].month || p.value != points[i - 1].value {
        unique := unique + [p];
      }
      i := i + 1;
    }
  }

  /** Builds the chart the way the page does: the current month's point, the month
      loop with an inner sum over the relevant assets, then the duplicate filter. */
  method BuildTimeline(ps: seq<Processed>, today: Date) returns (points: seq<Point>)
    ensures points == Timeline(ps, today)
  {
    var rel := Relevant(ps, today);
    var total := TotalLiquidValue(ps);
    if |rel| == 0 && total == 0.0 {
      return [];
    }
    var thisMonth := MonthIndex(today);
    var dataPoints: seq<Point> := [];
    var cumulative := 0.0;
    if total > 0.0 {
      dataPoints := dataPoints + [Point(thisMonth, total)];
      cumulative := total;
    }
    assert dataPoints == Seed(total, thisMonth) && cumulative == StartValue(total);
    dataPoints := AddFutureMonths(rel, thisMonth + 1, thisMonth + 1 + HorizonMonths, dataPoints, cumulative, total > 0.0);
    var unique := Dedup(dataPoints);
    if |unique| == 0 && total > 0.0 {
      return [Point(thisMonth, total)];
    }
    return unique;
  }

  // ---------------------------------------------------------------------------
  // What the chart shows

  predicate StrictlyIncreasingMonths(points: seq<Point>) {
    forall i, j :: 0 <= i < j < |points| ==> points[i].month < points[j].month
  }

  predicate NonDecreasingValues(points: seq<Point>) {
    forall i, j :: 0 <= i < j < |points| ==> points[i].value <= points[j].value
  }

  /** The running total equals the last point's value. */
  predicate EndsAt(points: seq<Point>, cumulative: real) {
    points == [] || points[|points| - 1].value == cumulative
  }

  predicate NonNegativeValues(ps: seq<Processed>) {
    forall p :: p in ps ==> p.valueInIls >= 0.0
  }

  lemma {:induction false} MonthSumNonNegative(rel: seq<Processed>, m: int)
    requires NonNegativeValues(rel)
    ensures MonthSum(rel, m) >= 0.0
  {
    if rel != [] {
      assert forall p :: p in rel[..|rel| - 1] ==> p in rel;
      MonthSumNonNegative(rel[..|rel| - 1], m);
      assert rel[|rel| - 1] in rel;
    }
  }

  /** The window `[m, hi)` splits into month `m` and the window after it. */
  lemma {:induction false} WindowSumSplit(rel: seq<Processed>, m: int, hi: int)
    requires m < hi
    ensures WindowSum(rel, m, hi) == MonthSum(rel, m) + WindowSum(rel, m + 1, hi)
  {
    if rel != [] {
      WindowSumSplit(rel[..|rel| - 1], m, hi);
    }
  }

  lemma {:induction false} WindowSumEmpty(rel: seq<Processed>, lo: int, hi: int)
    requires hi <= lo
    ensures WindowSum(rel, lo, hi) == 0.0
  {
    if rel != [] {
      WindowSumEmpty(rel[..|rel| - 1], lo, hi);
    }
  }

  /** The month loop only appends, and appends points in increasing months inside its window. */
  lemma {:induction false} FutureMonthsMonths(rel: seq<Processed>, m: int, hi: int, points: seq<Point>, cumulative: real, seeded: bool)
    requires StrictlyIncreasingMonths(points)
    requires forall i :: 0 <= i < |points| ==> points[i].month < m
    ensures var r := FutureMonths(rel, m, hi, points, cumulative, seeded);
      && points <= r
      && StrictlyIncreasingMonths(r)
      && (forall i :: |points| <= i < |r| ==> m <= r[i].month < hi)
    decreases hi - m
  {
    if m < hi {
      var newly := MonthSum(rel, m);
      var cumulative' := cumulative + newly;
      var points' := if EmitsPoint(points, seeded, newly, cumulative') then points + [Point(m, cumulative')] else points;
      FutureMonthsMonths(rel, m + 1, hi, points', cumulative', seeded);
    }
  }

  /** The loop emits month `m` when nothing but the seed precedes it. */
  lemma {:induction false} FutureMonthsFirst(rel: seq<Processed>, m: int, hi: int, points: seq<Point>, cumulative: real, seeded: bool)
    requires StrictlyIncreasingMonths(points)
    requires forall i :: 0 <= i < |points| ==> points[i].month < m
    requires m < hi && |points| == (if seeded then 1 else 0)
    ensures var r := FutureMonths(rel, m, hi, points, cumulative, seeded);
      |r| > |points| && r[|points|] == Point(m, cumulative + MonthSum(rel, m))
  {
    var newly := MonthSum(rel, m);
    var points' := points + [Point(m, cumulative + newly)];
    FutureMonthsMonths(rel, m + 1, hi, points', cumulative + newly, seeded);
  }

  /** The month loop keeps the points it is given and appends only months of its window. */
  lemma {:induction false} FutureMonthsAppends(rel: seq<Processed>, m: int, hi: int, points: seq<Point>, cumulative: real, seeded: bool)
    ensures var r := FutureMonths(rel, m, hi, points, cumulative, seeded);
      && points <= r
      && (forall i :: |points| <= i < |r| ==> m <= r[i].month < hi)
    decreases hi - m
  {
    if m < hi {
      var newly := MonthSum(rel, m);
      var cumulative' := cumulative + newly;
      var points' := if EmitsPoint(points, seeded, newly, cumulative') then points + [Point(m, cumulative')] else points;
      FutureMonthsAppends(rel, m + 1, hi, points', cumulative', seeded);
    }
  }

  /** Every point the loop appends for a month `k` carries the running total plus
      everything that becomes liquid from month `m` up to and including `k`. */
  lemma {:induction false} FutureMonthsPointValues(rel: seq<Processed>, m: int, hi: int, points: seq<Point>, cumulative: real, seeded: bool)
    ensures var r := FutureMonths(rel, m, hi, points, cumulative, seeded);
      forall i :: |points| <= i < |r| ==> r[i].value == cumulative + WindowSum(rel, m, r[i].month + 1)
    decreases hi - m
  {
    if m < hi {
      var newly := MonthSum(rel, m);
      var cumulative' := cumulative + newly;
      var points' := if EmitsPoint(points, seeded, newly, cumulative') then points + [Point(m, cumulative')] else points;
      var r := FutureMonths(rel, m + 1, hi, points', cumulative', seeded);
      assert FutureMonths(rel, m, hi, points, cumulative, seeded) == r;
      FutureMonthsPointValues(rel, m + 1, hi, points', cumulative', seeded);
      FutureMonthsAppends(rel, m + 1, hi, points', cumulative', seeded);
      forall i | |points'| <= i < |r| ensures r[i].value == cumulative + WindowSum(rel, m, r[i].month + 1) {
        WindowSumSplit(rel, m, r[i].month + 1);
      }
      if |points'| > |points| {
        assert r[|points|] == Point(m, cumulative');
        WindowSumSplit(rel, m, m + 1);
        WindowSumEmpty(rel, m + 1, m + 1);
      }
    }
  }

  /** Once past the first future month, the loop draws a month exactly when
      something becomes liquid in it: an unchanged total adds no point. */
  lemma {:induction false} FutureMonthsEmits(rel: seq<Processed>, k: int, hi: int, points: seq<Point>, cumulative: real, seeded: bool)
    requires EndsAt(points, cumulative) && |points| > (if seeded then 1 else 0)
    requires forall i :: 0 <= i < |points| ==> points[i].month < k
    ensures var r := FutureMonths(rel, k, hi, points, cumulative, seeded);
      forall j :: k <= j < hi ==> ((exists i :: |points| <= i < |r| && r[i].month == j) <==> MonthSum(rel, j) != 0.0)
    decreases hi - k
  {
    if k < hi {
      var newly := MonthSum(rel, k);
      var cumulative' := cumulative + newly;
      var emit := EmitsPoint(points, seeded, newly, cumulative');
      assert points[|points| - 1].value == cumulative;
      assert emit <==> newly != 0.0;
      var points' := if emit then points + [Point(k, cumulative')] else points;
      var r := FutureMonths(rel, k + 1, hi, points', cumulative', seeded);
      assert FutureMonths(rel, k, hi, points, cumulative, seeded) == r;
      FutureMonthsEmits(rel, k + 1, hi, points', cumulative', seeded);
      FutureMonthsAppends(rel, k + 1, hi, points', cumulative', seeded);
      assert forall i :: |points| <= i < |points'| ==> r[i] == points'[i] && r[i].month == k;
      forall j | k <= j < hi
        ensures (exists i :: |points| <= i < |r| && r[i].month == j) <==> MonthSum(rel, j) != 0.0
      {
        if j == k && emit {
          assert r[|points|].month == k;
        }
      }
    }
  }

  /** The last point carries the running total plus everything liquid in the window,
      every appended point carries the running total plus what became liquid up to
      its month, and with non-negative values the points never decrease. */
  lemma {:induction false} FutureMonthsValues(rel: seq<Processed>, m: int, hi: int, points: seq<Point>, cumulative: real, seeded: bool)
    requires EndsAt(points, cumulative)
    ensures var r := FutureMonths(rel, m, hi, points, cumulative, seeded);
      && EndsAt(r, cumulative + WindowSum(rel, m, hi))
      && (forall i :: |points| <= i < |r| ==> r[i].value == cumulative + WindowSum(rel, m, r[i].month + 1))
      && (NonNegativeValues(rel) && NonDecreasingValues(points) ==> NonDecreasingValues(r))
    decreases hi - m
  {
    FutureMonthsPointValues(rel, m, hi, points, cumulative, seeded);
    if m >= hi {
      WindowSumEmpty(rel, m, hi);
    } else {
      var newly := MonthSum(rel, m);
      var cumulative' := cumulative + newly;
      var points' := if EmitsPoint(points, seeded, newly, cumulative') then points + [Point(m, cumulative')] else points;
      FutureMonthsValues(rel, m + 1, hi, points', cumulative', seeded);
      WindowSumSplit(rel, m, hi);
      if NonNegativeValues(rel) && NonDecreasingValues(points) {
        MonthSumNonNegative(rel, m);
        assert NonDecreasingValues(points');
      }
    }
  }

  /** The duplicate filter keeps a list whose neighbouring months all differ. */
  lemma {:induction false} DedupKeepsDistinct(points: seq<Point>, i: nat)
    requires i <= |points|
    requires StrictlyIncreasingMonths(points)
    ensures DedupFrom(points, i, points[..i]) == points
    decreases |points| - i
  {
    if i < |points| {
      assert points[..i] + [points[i]] == points[..i + 1];
      DedupKeepsDistinct(points, i + 1);
    }
  }

  /** The shape of the month loop's output, started from the seed with `total`
      liquid now in month `m`. */
  predicate SeededShape(r: seq<Point>, rel: seq<Processed>, total: real, m: int) {
    var start := |Seed(total, m)|;
    && StrictlyIncreasingMonths(r)
    && |r| > start
    && (total > 0.0 ==> r[0] == Point(m, total))
    && r[start] == Point(m + 1, StartValue(total) + MonthSum(rel, m + 1))
    && (forall i :: 0 <= i < |r| ==> m <= r[i].month <= m + HorizonMonths)
    && r[|r| - 1].value == StartValue(total) + WindowSum(rel, m + 1, m + 1 + HorizonMonths)
    && (NonNegativeValues(rel) ==> NonDecreasingValues(r))
  }

  lemma {:induction false} SeededLoopFacts(rel: seq<Processed>, total: real, m: int)
    ensures SeededShape(FutureMonths(rel, m + 1, m + 1 + HorizonMonths, Seed(total, m), StartValue(total), total > 0.0), rel, total, m)
  {
    var seed := Seed(total, m);
    var hi := m + 1 + HorizonMonths;
    FutureMonthsMonths(rel, m + 1, hi, seed, StartValue(total), total > 0.0);
    FutureMonthsFirst(rel, m + 1, hi, seed, StartValue(total), total > 0.0);
    FutureMonthsValues(rel, m + 1, hi, seed, StartValue(total), total > 0.0);
  }

  /** Facts about the months before the filter. */
  lemma {:induction false} RawTimelineFacts(ps: seq<Processed>, today: Date)
    ensures SeededShape(RawTimeline(ps, today), Relevant(ps, today), TotalLiquidValue(ps), MonthIndex(today))
    ensures NonNegativeValues(ps) ==> NonNegativeValues(Relevant(ps, today))
  {
    SeededLoopFacts(Relevant(ps, today), TotalLiquidValue(ps), MonthIndex(today));
  }

  lemma {:induction false} TimelineIsSeededShape(ps: seq<Processed>, today: Date)
    requires Timeline(ps, today) != []
    ensures SeededShape(Timeline(ps, today), Relevant(ps, today), TotalLiquidValue(ps), MonthIndex(today))
  {
    RawTimelineFacts(ps, today);
    DedupKeepsDistinct(RawTimeline(ps, today), 0);
  }

  lemma {:induction false} SeededShapeMeans(t: seq<Point>, rel: seq<Processed>, total: real, m: int)
    requires SeededShape(t, rel, total, m)
    ensures t != []
    ensures t[0].month == m <==> total > 0.0
    ensures total > 0.0 ==> t[0].value == total
    ensures Point(m + 1, StartValue(total) + MonthSum(rel, m + 1)) in t
  {
    assert t[|Seed(total, m)|] in t;
  }

}
