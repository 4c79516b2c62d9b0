/** The stored asset record, as the pages and dashboard widgets read it. */
module Assets {
  import opened Wrappers
  import opened Dates

  /** The six asset categories the dashboard knows. */
  const FinancialInstruments := "financial_instruments"
  const SavingsDeposits := "savings_deposits"
  const PensionInsurance := "pension_insurance"
  const StudyFunds := "study_funds"
  const AlternativeAssets := "alternative_assets"
  const RealEstate := "real_estate"

  const Ils := "ILS"

  /** A stored asset. Text fields that are missing read as "". A number is `None`
      when it is missing or not a number, which `x || 0` turns into 0. A date is
      `None` when it is missing, empty or does not parse. The liquidity flag is
      tri-state: the liquidity classifier tests `=== false` and truthiness apart.
      `quantity` is the held quantity of a market-priced holding. */
  datatype Asset = Asset(
    id: string,
    category: string,
    typeKey: string,
    currency: string,
    description: string,
    symbol: string,
    name: string,
    currentValue: Option<real>,
    exchangeRate: Option<real>,
    quantity: real,
    currentPrice: Option<real>,
    dailyChangePercent: Option<real>,
    isImmediatelyLiquid: Option<bool>,
    releaseDate: Option<Date>,
    openDate: Option<Date>,
    endDate: Option<Date>,
    lockEndDate: Option<Date>,
    firstExitStationDate: Option<Date>)
}
