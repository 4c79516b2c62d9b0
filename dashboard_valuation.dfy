/** Shekel conversion as the dashboard widgets (summary and pie chart) do it. */
module DashboardValuation {
  import opened Wrappers
  import opened Js
  import opened Assets
  import Liquidity

  /** The rate the dashboard applies to a non-ILS asset: the manual rate when it is
      positive, else the system rate for the currency when it is truthy. `None`
      means the asset has no valid rate and is left out of every total. */
  function DashboardRate(a: Asset, systemRates: map<string, real>): (r: Option<real>)
    ensures r.Some? ==> r.value != 0.0
    ensures TruthyNumber(a.exchangeRate) && a.exchangeRate.value > 0.0 ==> r == a.exchangeRate
    ensures !(TruthyNumber(a.exchangeRate) && a.exchangeRate.value > 0.0) ==>
              (r.Some? <==> a.currency in systemRates && systemRates[a.currency] != 0.0)
              && (r.Some? ==> r.value == systemRates[a.currency])
  {
    if TruthyNumber(a.exchangeRate) && a.exchangeRate.value > 0.0 then a.exchangeRate
    else if a.currency in systemRates && systemRates[a.currency] != 0.0 then Some(systemRates[a.currency])
    else None
  }

  /** Whether an asset enters the totals: every ILS asset, and a foreign one with a rate. */
  predicate Counted(a: Asset, systemRates: map<string, real>) {
    a.currency == Ils || DashboardRate(a, systemRates).Some?
  }

  /** An asset's value in shekels on the dashboard. */
  function DashboardValue(a: Asset, systemRates: map<string, real>): (v: real)
    ensures a.currency == Ils ==> v == NumberOrZero(a.currentValue)
    ensures a.currency != Ils && Counted(a, systemRates) ==>
              v == NumberOrZero(a.currentValue) * DashboardRate(a, systemRates).value
    ensures !Counted(a, systemRates) ==> v == 0.0
  {
    if a.currency == Ils then NumberOrZero(a.currentValue)
    else match DashboardRate(a, systemRates)
      case Some(rate) => NumberOrZero(a.currentValue) * rate
      case None => 0.0
  }

  /** With positive rates, or none, the dashboard and the liquidity page agree. */
  lemma {:induction false} AgreesWithLiquidityOnPositiveRates(a: Asset, systemRates: map<string, real>)
    requires a.exchangeRate.None? || a.exchangeRate.value > 0.0
    requires a.currency in systemRates ==> systemRates[a.currency] > 0.0
    ensures Liquidity.ValueInIls(a, systemRates) == DashboardValue(a, systemRates)
  {
  }

  /** A negative manual rate is where they part: the liquidity page values the asset
      at 0, while the dashboard falls back to the system rate. */
  lemma {:induction false} NegativeManualRateDiffers(a: Asset, systemRates: map<string, real>)
    requires a.currency != Ils
    requires a.exchangeRate.Some? && a.exchangeRate.value < 0.0
    requires a.currency in systemRates && systemRates[a.currency] > 0.0
    requires NumberOrZero(a.currentValue) != 0.0
    ensures Liquidity.ValueInIls(a, systemRates) == 0.0
    ensures DashboardValue(a, systemRates) == NumberOrZero(a.currentValue) * systemRates[a.currency] != 0.0
  {
  }

  /** The sum the widgets keep: the shekel value of every counted asset. */
  function CountedTotal(assets: seq<Asset>, systemRates: map<string, real>): real {
    if assets == [] then 0.0
    else
      var a := assets[|assets| - 1];
      CountedTotal(assets[..|assets| - 1], systemRates) + (if Counted(a, systemRates) then DashboardValue(a, systemRates) else 0.0)
  }

  /** The shekel values of a list of assets, summed. */
  function SumInIls(assets: seq<Asset>, systemRates: map<string, real>): real {
    if assets == [] then 0.0
    else SumInIls(assets[..|assets| - 1], systemRates) + DashboardValue(assets[|assets| - 1], systemRates)
  }

  lemma {:induction false} SumInIlsSnoc(assets: seq<Asset>, a: Asset, systemRates: map<string, real>)
    ensures SumInIls(assets + [a], systemRates) == SumInIls(assets, systemRates) + DashboardValue(a, systemRates)
  {
    assert (assets + [a])[..|assets|] == assets;
  }
}
