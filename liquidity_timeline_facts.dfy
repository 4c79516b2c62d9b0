/** What the liquidity chart shows, proved from its definition. */
module LiquidityTimelineFacts {
  import opened Dates
  import opened Liquidity
  import opened LiquidityTimeline

  /** The chart is empty exactly when nothing is relevant and nothing is liquid now. */
  lemma {:induction false} TimelineEmptyIff(ps: seq<Processed>, today: Date)
    ensures Timeline(ps, today) == [] <==> |Relevant(ps, today)| == 0 && TotalLiquidValue(ps) == 0.0
  {
    if !(|Relevant(ps, today)| == 0 && TotalLiquidValue(ps) == 0.0) {
      RawTimelineFacts(ps, today);
      DedupKeepsDistinct(RawTimeline(ps, today), 0);
    }
  }

  /** Whenever the chart is drawn, the duplicate filter and the one-point fallback
      change nothing: the chart is the month loop's output. */
  lemma {:induction false} TimelineIsRaw(ps: seq<Processed>, today: Date)
    requires Timeline(ps, today) != []
    ensures Timeline(ps, today) == RawTimeline(ps, today)
  {
    RawTimelineFacts(ps, today);
    DedupKeepsDistinct(RawTimeline(ps, today), 0);
  }

  /** The window counts exactly the upcoming assets dated inside it. */
  lemma {:induction false} RelevantWindowIsUpcoming(ps: seq<Processed>, today: Date, lo: int, hi: int)
    ensures WindowSum(Relevant(ps, today), lo, hi) == WindowSum(UpcomingList(ps, today), lo, hi)
  {
    if ps != [] {
      var init, p := ps[..|ps| - 1], ps[|ps| - 1];
      RelevantWindowIsUpcoming(init, today, lo, hi);
      var rel, up := Relevant(init, today), UpcomingList(init, today);
      assert Relevant(ps, today) == rel + (if IsRelevant(p, today) then [p] else []);
      assert UpcomingList(ps, today) == up + (if IsUpcoming(p, today) then [p] else []);
      if IsRelevant(p, today) {
        WindowSumSnoc(rel, p, lo, hi);
      } else {
        assert rel + [] == rel;
      }
      if IsUpcoming(p, today) {
        WindowSumSnoc(up, p, lo, hi);
      } else {
        assert up + [] == up;
      }
    }
  }

  lemma {:induction false} WindowSumSnoc(a: seq<Processed>, p: Processed, lo: int, hi: int)
    ensures WindowSum(a + [p], lo, hi) == WindowSum(a, lo, hi) + InWindow(p, lo, hi)
  {
    assert (a + [p])[..|a|] == a;
  }

  /** The chart's shape: increasing months from the current month to 24 months ahead,
      a current-month point with the liquid total exactly when something is liquid,
      and next month always shown. */
  lemma {:induction false} TimelineShape(ps: seq<Processed>, today: Date)
    requires Timeline(ps, today) != []
    ensures var t := Timeline(ps, today);
      var total := TotalLiquidValue(ps);
      var m := MonthIndex(today);
      && StrictlyIncreasingMonths(t)
      && (forall i :: 0 <= i < |t| ==> m <= t[i].month <= m + HorizonMonths)
      && (t[0].month == m <==> total > 0.0)
      && (total > 0.0 ==> t[0].value == total)
      && Point(m + 1, StartValue(total) + MonthSum(Relevant(ps, today), m + 1)) in t
  {
    var m := MonthIndex(today);
    var t := Timeline(ps, today);
    var total := TotalLiquidValue(ps);
    var rel := Relevant(ps, today);
    TimelineIsSeededShape(ps, today);
    assert SeededShape(t, rel, total, m);
    SeededShapeMeans(t, rel, total, m);
    assert StrictlyIncreasingMonths(t);
    assert forall i :: 0 <= i < |t| ==> m <= t[i].month <= m + HorizonMonths;
    assert t[0].month == m <==> total > 0.0;
    assert total > 0.0 ==> t[0].value == total;
    assert Point(m + 1, StartValue(total) + MonthSum(rel, m + 1)) in t;
  }

  /** The last point is the liquid total plus every upcoming asset dated within the
      next 24 months; assets dated later in the current month or beyond the horizon
      never reach the chart. */
  lemma {:induction false} TimelineLastValue(ps: seq<Processed>, today: Date)
    requires Timeline(ps, today) != []
    ensures var t := Timeline(ps, today);
      var m := MonthIndex(today);
      t[|t| - 1].value == StartValue(TotalLiquidValue(ps)) + WindowSum(UpcomingList(ps, today), m + 1, m + 1 + HorizonMonths)
  {
    var m := MonthIndex(today);
    TimelineIsSeededShape(ps, today);
    RelevantWindowIsUpcoming(ps, today, m + 1, m + 1 + HorizonMonths);
  }

  /** Every future point shows the liquid total plus what becomes liquid from next
      month up to and including its own month. */
  lemma {:induction false} TimelinePointValues(ps: seq<Processed>, today: Date)
    ensures var t := Timeline(ps, today);
      var m := MonthIndex(today);
      forall i :: 0 <= i < |t| && t[i].month > m ==>
        t[i].value == StartValue(TotalLiquidValue(ps)) + WindowSum(Relevant(ps, today), m + 1, t[i].month + 1)
  {
    if Timeline(ps, today) != [] {
      var m, total, rel := MonthIndex(today), TotalLiquidValue(ps), Relevant(ps, today);
      var seed := Seed(total, m);
      TimelineIsRaw(ps, today);
      FutureMonthsAppends(rel, m + 1, m + 1 + HorizonMonths, seed, StartValue(total), total > 0.0);
      FutureMonthsPointValues(rel, m + 1, m + 1 + HorizonMonths, seed, StartValue(total), total > 0.0);
    }
  }

  /** After next month, which is always drawn, a month is drawn exactly when
      something becomes liquid in it. */
  lemma {:induction false} TimelineMonthsShown(ps: seq<Processed>, today: Date)
    ensures var t := Timeline(ps, today);
      var m := MonthIndex(today);
      forall k :: m + 1 < k <= m + HorizonMonths ==>
        ((exists i :: 0 <= i < |t| && t[i].month == k) <==> MonthSum(Relevant(ps, today), k) != 0.0)
  {
    var m, total, rel := MonthIndex(today), TotalLiquidValue(ps), Relevant(ps, today);
    var t := Timeline(ps, today);
    if t == [] {
      TimelineEmptyIff(ps, today);
      assert rel == [];
    } else {
      var seed, start, seeded := Seed(total, m), StartValue(total), total > 0.0;
      var hi := m + 1 + HorizonMonths;
      var newly := MonthSum(rel, m + 1);
      var first := seed + [Point(m + 1, start + newly)];
      TimelineIsRaw(ps, today);
      assert EmitsPoint(seed, seeded, newly, start + newly);
      assert t == FutureMonths(rel, m + 2, hi, first, start + newly, seeded);
      FutureMonthsAppends(rel, m + 2, hi, first, start + newly, seeded);
      FutureMonthsEmits(rel, m + 2, hi, first, start + newly, seeded);
      assert forall i :: 0 <= i < |first| ==> t[i].month <= m + 1;
      forall k | m + 1 < k <= m + HorizonMonths
        ensures (exists i :: 0 <= i < |t| && t[i].month == k) <==> MonthSum(rel, k) != 0.0
      {
        if i :| 0 <= i < |t| && t[i].month == k {
          assert |first| <= i;
        }
      }
    }
  }

  /** With no negative values the cumulative line never goes down. */
  lemma {:induction false} TimelineNonDecreasing(ps: seq<Processed>, today: Date)
    requires NonNegativeValues(ps)
    ensures NonDecreasingValues(Timeline(ps, today))
  {
    if Timeline(ps, today) != [] {
      TimelineIsRaw(ps, today);
      RawTimelineFacts(ps, today);
    }
  }
}
