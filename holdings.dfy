/** Market value and daily change of priced holdings, shared by the portfolio
    summary and the portfolio table. */
module Holdings {
  import opened Js
  import opened Assets

  /** `quantity * (current_price || 0)`. */
  function HoldingValue(a: Asset): real {
    a.quantity * NumberOrZero(a.currentPrice)
  }

  /** `value * (daily_change_percent || 0) / 100`. */
  function ChangeAmount(a: Asset): real {
    HoldingValue(a) * NumberOrZero(a.dailyChangePercent) / 100.0
  }

  function TotalValue(assets: seq<Asset>): real {
    if assets == [] then 0.0 else TotalValue(assets[..|assets| - 1]) + HoldingValue(assets[|assets| - 1])
  }

  function DailyChange(assets: seq<Asset>): real {
    if assets == [] then 0.0 else DailyChange(assets[..|assets| - 1]) + ChangeAmount(assets[|assets| - 1])
  }

  /** The day's change as a percentage of the value, 0 without a positive value. */
  function PercentChange(dailyChange: real, totalValue: real): (p: real)
    ensures totalValue > 0.0 ==> p * totalValue == dailyChange * 100.0
    ensures totalValue <= 0.0 ==> p == 0.0
  {
    if totalValue > 0.0 then dailyChange / totalValue * 100.0 else 0.0
  }

  /** When every holding moved by the same percentage, the day's change is that
      share of the total, so the weighted percentage is that percentage. */
  lemma {:induction false} UniformChange(assets: seq<Asset>, pct: real)
    requires forall a :: a in assets ==> NumberOrZero(a.dailyChangePercent) == pct
    ensures DailyChange(assets) == TotalValue(assets) * pct / 100.0
    ensures TotalValue(assets) > 0.0 ==> PercentChange(DailyChange(assets), TotalValue(assets)) == pct
  {
    UniformChangeAmount(assets, pct);
    if TotalValue(assets) > 0.0 {
      ShareCancels(TotalValue(assets), pct);
    }
  }

  lemma {:induction false} UniformChangeAmount(assets: seq<Asset>, pct: real)
    requires forall a :: a in assets ==> NumberOrZero(a.dailyChangePercent) == pct
    ensures DailyChange(assets) == TotalValue(assets) * pct / 100.0
  {
    if assets != [] {
      var init, a := assets[..|assets| - 1], assets[|assets| - 1];
      assert forall b :: b in init ==> b in assets;
      UniformChangeAmount(init, pct);
      assert a in assets;
      assert ChangeAmount(a) == HoldingValue(a) * pct / 100.0;
      ShareDistributes(TotalValue(init), HoldingValue(a), pct);
    }
  }

  lemma {:induction false} ShareDistributes(x: real, y: real, pct: real)
    ensures x * pct / 100.0 + y * pct / 100.0 == (x + y) * pct / 100.0
  {
  }

  lemma {:induction false} ShareCancels(t: real, pct: real)
    requires t > 0.0
    ensures (t * pct / 100.0) / t * 100.0 == pct
  {
  }

  /** Splitting a list splits both sums. */
  lemma {:induction false} SumsAppend(xs: seq<Asset>, ys: seq<Asset>)
    ensures TotalValue(xs + ys) == TotalValue(xs) + TotalValue(ys)
    ensures DailyChange(xs + ys) == DailyChange(xs) + DailyChange(ys)
    decreases |ys|
  {
    if ys == [] {
      assert xs + ys == xs;
    } else {
      var init := ys[..|ys| - 1];
      SumsAppend(xs, init);
      assert (xs + ys)[..|xs + ys| - 1] == xs + init;
    }
  }
}
