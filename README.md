# wealth-wise core, modelled in Dafny

wealth-wise is a Hebrew-language personal net-worth tracker. It is a React client over a hosted entity store. This project models the parts of it that compute something and proves properties of them:

- **The liquidity page** (`Liquidity`, `LiquidityTimeline`, `LiquidityTimelineFacts`):
  - the ordered rule chain that tells when each asset becomes accessible cash;
  - the conversion of each asset to shekels (ILS);
  - the ordering of the asset list, and its split into "liquid now" and "upcoming";
  - the cumulative 24-month liquidity chart.
- **The dashboard widgets:**
  - the net-worth summary with its per-category totals, percentages and foreign-currency tooltip (`SummaryWidget`);
  - the allocation pie (`PortfolioCharts`);
  - the shekel valuation rule both widgets share (`DashboardValuation`);
  - the portfolio summary card (`PortfolioSummary`);
  - the portfolio table (`PortfolioTable`);
  - the market-value arithmetic the card and the table share (`Holdings`).
- **The single-asset page** (`AssetPage`): the purchase ledger, cost basis and ROI, the quantity bookkeeping on adding and deleting a purchase, and market-quote updates.
- **The market-data fetcher** (`MarketData`): how symbols are routed to the Yahoo, Tel Aviv Stock Exchange or CoinGecko source, the price-cache freshness check, and how the cache and results are updated.
- **Routing** (`Routing`): which page a URL shows.
- **The economic-indicators page** (`EconomicData`): the indicator table, the rate-edit dialog's check and record update, the list order, and the digit and unit display rules.
- **The four rule-bearing asset forms** (`SavingsForm`, `FinancialAssetForm`, `AlternativeForm`, `RealEstateForm`, with the shared `FormFields`): their submit checks in order, the record each saves, and their field handlers.

Shared helpers:

- `Wrappers`: an `Option` type.
- `Js`: the JavaScript semantics the code relies on. It covers `trim`, ASCII case mapping and truthiness of optional numbers. It also covers how a text field reads under `!field` and `Number(field)`: the `NumText` type is `Blank`, `Numeric(v)` or `NotANumber`.
- `Dates`: day-level calendar dates, with `date-fns` `addYears`.
- `Assets`: the asset record.

Modelling conventions:

- Money is an exact `real`, so no floating-point rounding is claimed.
- Dates are day-level `(year, month, day)` triples, and "today" is a parameter. "Liquid now" (`isPast || isToday`) is `date <= today`; `isAfter(date, now)` is `date > today`.
- A missing, null or unparsable optional value is `None`.
- A missing text field is `""`.
- A NaN a form would save is `None`, because JSON writes NaN as `null`.
- A list saved through `JSON.stringify` is kept as the list itself.
- Chart labels (`MMM yy`) are month numbers `12 * year + month - 1`.
- The remote store, the quote sources and the clock are parameters: what a call returns is passed in.

Code shaped like the source:

- The loops the source runs are methods with loop invariants, each proved equal to a specification function. These are the liquidity chart, the summary totals, the pie grouping, the category grouping of the card and the table, the fetcher's bucketing and cache update, and the indicator sort, which works in place on an array.
- The asset page and the market-data fetcher are classes whose methods update their fields.

Where the code and its design notes disagree, the code is followed:

- `DashboardValuation.NegativeManualRateDiffers` records one such difference. The liquidity page and the dashboard value an asset with a negative manual exchange rate differently.
- The liquidity chart's duplicate filter and its one-point fallback never change the chart (`LiquidityTimelineFacts.TimelineIsRaw`).
- An ordinary stock ticker such as `AAPL` is sent to the crypto source (`MarketData.StockTickerGoesToCrypto`).

## Model

| member | source | states |
|---|---|---|
| Liquidity.Classify | src/pages/Liquidity.jsx:28-97 | The rules in order, first match wins. A checking account is liquid today whatever its category. A financial instrument uses its release date only when the flag is exactly false and the date parses, and is liquid today otherwise. An alternative asset under the same release-date test is otherwise undated and liquid iff flagged true. Real estate is never liquid. Deposits use end date, then first exit station, then lock end. Study funds use end date, else open date plus six years. Anything else is undated and not liquid. A dated asset is liquid iff its day is today or past. |
| Liquidity.DatedOn | src/pages/Liquidity.jsx:38 | A dated result is liquid exactly when the day is on or before today. |
| Liquidity.ValueInIls | src/pages/Liquidity.jsx:158-166 | ILS assets count their current value, 0 when missing. Otherwise the manual rate is used when truthy, else the system rate, and only if above 0; a negative manual rate gives 0 without consulting the system rate. |
| Liquidity.ProcessedAssets | src/pages/Liquidity.jsx:155-174 | The list is a permutation of the converted and classified assets. Every dated element precedes every undated one, and dated elements are in ascending day order. |
| Liquidity.LiquidNowList | src/pages/Liquidity.jsx:176 | Holds exactly the elements that are liquid now. |
| Liquidity.UpcomingList | src/pages/Liquidity.jsx:177 | Holds exactly the elements that are not liquid now and dated strictly after today. |
| Liquidity.LiquidAndUpcomingDisjoint | src/pages/Liquidity.jsx:176-177 | The two lists together take each element at most as often as the processed list has it, so they never share one. |
| Liquidity.LiquidNowMultiset | src/pages/Liquidity.jsx:176 | The liquid list keeps every liquid element with its multiplicity and nothing else. |
| Liquidity.SumValuesPermutation | src/pages/Liquidity.jsx:179 | Summing shekel values does not depend on the order of the list. |
| Liquidity.TotalLiquidOrderIndependent | src/pages/Liquidity.jsx:168-179 | The liquid total is the same before and after the sort. |
| Liquidity.LiquidNowPermutation | src/pages/Liquidity.jsx:168-176 | Reordering the list reorders the liquid list and changes nothing else about it. |
| Dates.AddYears | src/pages/Liquidity.jsx:88 | Keeps month and day `n` years on, with February 29 clamped to the target month's last day. |
| Dates.LeapDayPlusSixYears | src/pages/Liquidity.jsx:88 | A study fund opened on February 29 becomes liquid on February 28 six years later. |
| Dates.SameMonthIff | src/pages/Liquidity.jsx:210 | Two valid days share a month number exactly when they share year and month, as `isSameMonth` tests. |
| Dates.MonthIndexMonotone | src/pages/Liquidity.jsx:201-226 | Days in an earlier month come strictly before days in a later one. |
| LiquidityTimeline.NewlyLiquid | src/pages/Liquidity.jsx:207-215 | The inner loop sums exactly the not-yet-liquid relevant assets dated in that month. |
| LiquidityTimeline.AddFutureMonths | src/pages/Liquidity.jsx:201-226 | The month loop appends the points of its specification, keeping the running total. |
| LiquidityTimeline.Dedup | src/pages/Liquidity.jsx:229-238 | The duplicate-filter `reduce` computes its specification. |
| LiquidityTimeline.BuildTimeline | src/pages/Liquidity.jsx:181-249 | The chart the page builds (seed point, month loop, duplicate filter, fallback) equals `Timeline`. |
| LiquidityTimeline.FutureMonthsValues | src/pages/Liquidity.jsx:201-226 | Every appended point carries the running total plus everything that becomes liquid from the first month up to its own month, and the last point the whole window; with non-negative values the points never decrease. |
| LiquidityTimeline.FutureMonthsAppends | src/pages/Liquidity.jsx:205-225 | The month loop only appends, and every point it adds is dated inside the window it walks. |
| LiquidityTimeline.FutureMonthsPointValues | src/pages/Liquidity.jsx:205-225 | Each point the month loop adds carries the running total plus the amounts of every month from the first one up to its own. |
| LiquidityTimeline.FutureMonthsEmits | src/pages/Liquidity.jsx:218-223 | Once past the seed point, the loop adds a point for a month exactly when the amount becoming liquid that month is not 0. |
| LiquidityTimeline.DedupKeepsDistinct | src/pages/Liquidity.jsx:229-238 | A list whose months strictly increase passes the filter unchanged. |
| LiquidityTimelineFacts.TimelineEmptyIff | src/pages/Liquidity.jsx:184-186 | The chart is empty exactly when nothing is relevant and the liquid total is 0. |
| LiquidityTimelineFacts.TimelineIsRaw | src/pages/Liquidity.jsx:229-244 | Whenever the chart is drawn, the duplicate filter and the one-point fallback change nothing. |
| LiquidityTimelineFacts.RelevantWindowIsUpcoming | src/pages/Liquidity.jsx:177-210 | The amount the chart adds over a window of months is the value of exactly the upcoming assets dated in it. |
| LiquidityTimelineFacts.TimelineShape | src/pages/Liquidity.jsx:192-226 | Months increase from the current month to 24 months ahead. A current-month point carrying the liquid total appears exactly when that total is positive. Next month is always shown. |
| LiquidityTimelineFacts.TimelineLastValue | src/pages/Liquidity.jsx:192-247 | The last point is the liquid total (when positive) plus every upcoming asset dated within the next 24 months; later days of the current month and dates beyond the horizon never count. |
| LiquidityTimelineFacts.TimelineNonDecreasing | src/pages/Liquidity.jsx:192-247 | With no negative values the cumulative line never goes down. |
| LiquidityTimelineFacts.TimelinePointValues | src/pages/Liquidity.jsx:192-226 | Every future point of the chart shows the liquid total (when positive) plus every upcoming asset dated from next month up to the point's own month. |
| LiquidityTimelineFacts.TimelineMonthsShown | src/pages/Liquidity.jsx:205-225 | From the second future month to 24 months ahead, a month appears on the chart exactly when the amount becoming liquid in it is not 0. |
| DashboardValuation.DashboardRate | src/components/dashboard/SummaryWidget.jsx:48-61 | A manual rate is used iff it is truthy and above 0; otherwise the system rate, if truthy. |
| DashboardValuation.DashboardValue | src/components/dashboard/PortfolioCharts.jsx:63-77 | ILS assets count their current value; a foreign asset with a rate counts value times rate; an asset without one counts 0. |
| DashboardValuation.AgreesWithLiquidityOnPositiveRates | src/components/dashboard/SummaryWidget.jsx:49-56 | With positive or absent rates the dashboard and the liquidity page value an asset the same. |
| DashboardValuation.NegativeManualRateDiffers | src/components/dashboard/SummaryWidget.jsx:49-56 | A negative manual rate is worth 0 on the liquidity page but falls back to the system rate on the dashboard. |
| SummaryWidget.Convert | src/components/dashboard/SummaryWidget.jsx:44-61 | The conversion step counts an asset exactly when the valuation rule gives it a rate, and yields its shekel value and effective rate. |
| SummaryWidget.ComputeTotals | src/components/dashboard/SummaryWidget.jsx:43-80 | The loop's net worth is the sum over counted assets, and its table is the per-category specification. |
| SummaryWidget.CountedIn | src/components/dashboard/SummaryWidget.jsx:64-77 | The counted assets of one category, exactly. |
| SummaryWidget.CategoryTotalsMeaning | src/components/dashboard/SummaryWidget.jsx:64-79 | A category is present iff some counted asset has it. Its total is their summed value, its count is their number, and its list holds their entries in input order. |
| SummaryWidget.NetWorthIsSumOfCategories | src/components/dashboard/SummaryWidget.jsx:64-79 | Net worth equals the sum of the category totals over any duplicate-free key list covering every counted category, displayed or not. |
| SummaryWidget.Percentage | src/components/dashboard/SummaryWidget.jsx:114 | Lies between 0 and 100 for a category within a positive net worth, and is 0 without a positive net worth. |
| SummaryWidget.PercentagesSumTo100 | src/components/dashboard/SummaryWidget.jsx:89-114 | When every counted asset is in one of the six displayed categories and net worth is positive, the six percentages add up to 100. |
| SummaryWidget.ForeignEntries | src/components/dashboard/SummaryWidget.jsx:115 | Exactly the non-ILS entries with a positive shekel value. |
| SummaryWidget.TooltipRows | src/components/dashboard/SummaryWidget.jsx:130 | The first min(5, n) foreign entries, in order. |
| SummaryWidget.MoreMarkerIffCut | src/components/dashboard/SummaryWidget.jsx:137 | The "more" marker shows exactly when rows were cut. |
| PortfolioCharts.CategoryLabel | src/components/dashboard/PortfolioCharts.jsx:60 | A category outside the table is shown as "other". |
| PortfolioCharts.PositiveSlices | src/components/dashboard/PortfolioCharts.jsx:90 | Keeps exactly the slices with a positive value. |
| PortfolioCharts.PieChartData | src/components/dashboard/PortfolioCharts.jsx:55-92 | The grouping loop yields the positive slices of the grouping specification and the total over every counted asset; no assets gives no slices and 0. |
| PortfolioCharts.GroupMeaning | src/components/dashboard/PortfolioCharts.jsx:59-87 | A display name has a slice iff some counted asset maps to it, and its value is those assets' summed shekel value. |
| PortfolioCharts.LabelledMembers | src/components/dashboard/PortfolioCharts.jsx:59-87 | The assets behind a slice are exactly the counted assets whose category is shown under that name. |
| PortfolioCharts.TotalIsSumOfGroups | src/components/dashboard/PortfolioCharts.jsx:79-91 | The total is the sum of all group values, including groups later dropped from the pie. |
| PortfolioCharts.PieSlicesDistinctAndPositive | src/components/dashboard/PortfolioCharts.jsx:80-90 | Every slice has a distinct name and a positive value. |
| PortfolioCharts.PieShownIff | src/components/dashboard/PortfolioCharts.jsx:133 | The pie renders exactly when some group is positive and the total is positive. |
| PortfolioCharts.LineChartNeverShown | src/components/dashboard/PortfolioCharts.jsx:96-134 | The line chart never renders. |
| Holdings.PercentChange | src/components/dashboard/PortfolioSummary.jsx:30-32 | With a positive value the percentage times the value is the change times 100; otherwise it is 0. |
| Holdings.UniformChange | src/components/dashboard/PortfolioSummary.jsx:17-32 | When every holding moved by the same percentage, the weighted percentage is that percentage. |
| Holdings.SumsAppend | src/components/dashboard/PortfolioSummary.jsx:17-27 | Value and daily change of a joined list are the sums of its parts. |
| PortfolioSummary.ComputeSummary | src/components/dashboard/PortfolioSummary.jsx:8-32 | No or empty assets give all zeros. Otherwise the total is the sum of quantity times price, the change is the sum of each value times its percentage over 100, and the percentage is their ratio times 100 only with a positive total. |
| PortfolioSummary.GroupAssetsByCategory | src/components/dashboard/PortfolioSummary.jsx:148-161 | The in-place accumulation equals the grouping specification. |
| PortfolioSummary.GroupIndex | src/components/dashboard/PortfolioSummary.jsx:153-155 | The accumulator slot of a category: the first group with that name, or one past the end when there is none. |
| PortfolioSummary.GroupsPartition | src/components/dashboard/PortfolioSummary.jsx:148-161 | Categories are distinct ("Other" for a missing one), values add up to the total value and counts to the number of assets. |
| PortfolioSummary.SortByValueDescending | src/components/dashboard/PortfolioSummary.jsx:108-128 | The allocation entries are a permutation ordered by value, largest first, in which entries of equal value keep their input order (a stable sort). |
| PortfolioSummary.CategoryColor | src/components/dashboard/PortfolioSummary.jsx:164-188 | Six named categories have fixed colours; any other gets the palette entry at its position modulo 10. |
| PortfolioTable.ToggleFlips | src/components/dashboard/PortfolioTable.jsx:51-57 | Toggling flips the membership of that category and of no other. |
| PortfolioTable.ToggleTwice | src/components/dashboard/PortfolioTable.jsx:51-57 | Toggling twice restores membership, and restores the list exactly from a closed category. |
| PortfolioTable.ToggleKeepsNoDuplicates | src/components/dashboard/PortfolioTable.jsx:51-57 | The expanded list never repeats a category. |
| PortfolioTable.AssetsByCategory | src/components/dashboard/PortfolioTable.jsx:60-67 | The in-place pushes equal the grouping specification. |
| PortfolioTable.SectionIndex | src/components/dashboard/PortfolioTable.jsx:62-64 | The accumulator slot of a category: the first section with that name, or one past the end when there is none. |
| PortfolioTable.Filter | src/components/dashboard/PortfolioTable.jsx:61 | The reference definition: exactly the assets filed under a key, in list order. |
| PortfolioTable.ByCategoryMeaning | src/components/dashboard/PortfolioTable.jsx:60-67 | Each section holds exactly its category's assets in input order ("Uncategorized" for none), and a section exists iff some asset has that category. |
| PortfolioTable.ByCategoryDistinct | src/components/dashboard/PortfolioTable.jsx:60-67 | No category has two sections. |
| PortfolioTable.SectionsPartition | src/components/dashboard/PortfolioTable.jsx:60-71 | Section totals add up to the portfolio value, and section sizes to the number of assets. |
| PortfolioTable.RowOf | src/components/dashboard/PortfolioTable.jsx:71-81 | The row's total and change are the group's sums, and its percentage relates them only with a positive total. |
| PortfolioTable.CategoryTotalsMeaning | src/components/dashboard/PortfolioTable.jsx:70-83 | A category has a row iff some asset has it, and the row sums exactly that category's assets. |
| PortfolioTable.FindCategory | src/components/dashboard/PortfolioTable.jsx:105 | Returns the first category with that name, or none iff there is none. |
| PortfolioTable.GetCategoryColor | src/components/dashboard/PortfolioTable.jsx:104-107 | The first same-named category's colour, or blue when there is no such category or that first one's colour is empty; never empty. |
| AssetPage.PurchasePayload | src/pages/Asset.jsx:121-136 | The quantity check comes first, then the price check, then the asset. On success the record carries the typed numbers and the asset id, and empty fees become 0. |
| AssetPage.FindPurchase | src/pages/Asset.jsx:172 | A purchase with that id from the ledger, or none exactly when there is none. |
| AssetPage.FindPurchaseFirst | src/pages/Asset.jsx:172 | The purchase found is the first one in the ledger carrying the id (`find`). |
| AssetPage.QuantityAfterDelete | src/pages/Asset.jsx:176 | Never negative, and equal to the difference whenever that is not negative. |
| AssetPage.FindQuote | src/pages/Asset.jsx:99 | A quote with the asset's symbol, or none exactly when there is none. |
| AssetPage.FindQuoteFirst | src/pages/Asset.jsx:99 | The quote found is the first one in the response carrying the asset's symbol (`find`). |
| AssetPage.WithQuote | src/pages/Asset.jsx:101-106 | Only price, daily change and name change; the old name stays when the quote has none. |
| AssetPage.CalculatePerformance | src/pages/Asset.jsx:190-203 | All zeros without an asset, a truthy price or purchases. Otherwise: total cost is the summed cost; average cost times quantity is the total cost when quantity is positive, else 0; value is quantity times price; ROI times cost is the gain times 100 when cost is positive, else 0. |
| AssetPage.TotalCostAppend | src/pages/Asset.jsx:196-197 | The cost basis of a joined ledger is the sum of its parts' cost bases. |
| AssetPage.TotalCostNonNegative | src/pages/Asset.jsx:196-197 | With non-negative quantities, prices and fees the cost basis is not negative. |
| AssetPage.AssetPageState.HandleMarketDataUpdate | src/pages/Asset.jsx:95-108 | Empty data, no asset or no matching quote leave the asset unchanged; otherwise only price, change and name are updated from the first matching quote. Nothing else on the page changes. |
| AssetPage.AssetPageState.AddPurchase | src/pages/Asset.jsx:115-164 | A failed check sets only its error message. Success sends the record, raises the quantity by exactly the purchased quantity, takes the refreshed ledger, resets the form and closes the dialog. |
| AssetPage.AssetPageState.DeletePurchase | src/pages/Asset.jsx:166-187 | Unconfirmed, unknown purchase or no asset: nothing changes. Otherwise the quantity drops by the purchase's quantity, clamped at 0, and the ledger is refreshed. |
| AssetPage.AddThenDeleteRestores | src/pages/Asset.jsx:115-187 | Running `addPurchase` and then `deletePurchase` on the record the store made for it gives back the asset exactly as it was, quantity included, whenever the held quantity was not negative; the ledger is the refreshed one. |
| MarketData.PatternsDisjoint | src/components/market-data/MarketDataFetcher.jsx:9-10 | No string is both a TASE id and a 3-to-5-letter ticker, so `isPotentialCrypto` is exactly the ticker pattern. |
| MarketData.SourceOf | src/components/market-data/MarketDataFetcher.jsx:32-39 | TASE iff 6 to 10 digits; CoinGecko iff 3 to 5 capital letters; Yahoo iff neither. |
| MarketData.StockTickerGoesToCrypto | src/components/market-data/MarketDataFetcher.jsx:33-36 | `AAPL` is routed to the crypto source. |
| MarketData.DueMeaning | src/components/market-data/MarketDataFetcher.jsx:29-41 | A symbol is in a source's bucket iff it was requested, is uncached or older than the interval, and that source is its pattern's. |
| MarketData.YahooGetsTheRest | src/components/market-data/MarketDataFetcher.jsx:37-39 | Yahoo is asked only for symbols matching neither pattern. |
| MarketData.AppendError | src/components/market-data/MarketDataFetcher.jsx:89 | The error text is never empty afterwards, and is the message alone when there was none (see also lines 136, 183). |
| MarketData.Gather | src/components/market-data/MarketDataFetcher.jsx:43-185 | A source adds its quotes only when asked and answering; otherwise the list is unchanged. |
| MarketData.ErrorAfter | src/components/market-data/MarketDataFetcher.jsx:89 | A failure of an asked source appends its message; otherwise the error is unchanged (see also lines 136, 183). |
| MarketData.LastQuoteFor | src/components/market-data/MarketDataFetcher.jsx:188-193 | Returns a quote for the symbol from the list, or none iff there is none. |
| MarketData.StoredMeaning | src/components/market-data/MarketDataFetcher.jsx:187-193 | A fetched symbol's entry is its last quote with the shared timestamp, and every other entry is unchanged. |
| MarketData.Results | src/components/market-data/MarketDataFetcher.jsx:195-201 | At most one result per requested symbol. |
| MarketData.ResultsAppend | src/components/market-data/MarketDataFetcher.jsx:195-201 | Results follow request order. |
| MarketData.ResultsMeaning | src/components/market-data/MarketDataFetcher.jsx:195-201 | Every requested symbol with any entry, stale or not, contributes its cached quote, and nothing else is returned. |
| MarketData.NoResultsMeansAsked | src/components/market-data/MarketDataFetcher.jsx:220 | A non-empty request with no result always asked some source. |
| MarketData.MarketDataFetcher.SplitStale | src/components/market-data/MarketDataFetcher.jsx:29-41 | The loop fills the three buckets with exactly the due symbols of each source, in order. |
| MarketData.MarketDataFetcher.Store | src/components/market-data/MarketDataFetcher.jsx:187-193 | The cache becomes the stored specification and the error is untouched. |
| MarketData.MarketDataFetcher.FetchAll | src/components/market-data/MarketDataFetcher.jsx:16-225 | Absent or empty symbols change nothing. Otherwise each asked source's quotes go into the cache, failures accumulate in the error text, and the cached quotes of all requested symbols are delivered. With no result, nothing is delivered and the no-data message appears when the handler saw no error. |
| Routing.DropTrailingSlash | src/pages/index.jsx:34-36 | Exactly one trailing '/' is removed. |
| Routing.LastSegment | src/pages/index.jsx:37 | The suffix after the last '/'. |
| Routing.BeforeQuery | src/pages/index.jsx:38-40 | The prefix before the first '?'. |
| Routing.FindPage | src/pages/index.jsx:42 | A page equal to the segment ignoring case, or "" exactly when there is none. |
| Routing.PageFor | src/pages/index.jsx:33-44 | Always a key of the page table; anything other than the first key matches the segment ignoring case. |
| Routing.PageForIgnoresPrefix | src/pages/index.jsx:37 | Only the last segment matters. |
| Routing.PageReachable | src/pages/index.jsx:42 | A name in any mix of cases reaches its page. |
| Routing.EveryPageReachable | src/pages/index.jsx:17-43 | Every page is reached by its name and by its lower-case name. |
| Routing.PagesDistinctIgnoringCase | src/pages/index.jsx:17-31 | No two page names agree ignoring case. |
| Routing.FindPageFirst | src/pages/index.jsx:42 | A name in any case finds its own page. |
| Routing.EmptyPathIsDashboard | src/pages/index.jsx:19-43 | `''` and `'/'` show the dashboard. |
| Routing.TrailingSlashIgnored | src/pages/index.jsx:34-36 | One trailing '/' does not change the segment. |
| Routing.DoubleTrailingSlash | src/pages/index.jsx:34-43 | With two trailing slashes the dashboard is shown. |
| Routing.QueryIgnored | src/pages/index.jsx:38-40 | Everything from the first '?' of the last segment is ignored. |
| EconomicData.CardDetails | src/pages/EconomicDataPage.jsx:120 | An unknown indicator uses its own type as title, has no unit and is not editable. |
| EconomicData.TableFacts | src/pages/EconomicDataPage.jsx:12-19 | Only the two exchange rates are editable, both on `current_value` (see also lines 168). |
| EconomicData.HandleSave | src/pages/EconomicDataPage.jsx:34-55 | Rejected iff the value is empty, non-numeric or not positive (checked first, with its message) or the date is empty or unparsable. An accepted save replaces only the data key with the number, keeps every other field, and stamps the entered date. |
| EconomicData.SavedRatePositive | src/pages/EconomicDataPage.jsx:36-50 | A saved exchange rate is always positive. |
| EconomicData.IndexOfMeaning | src/pages/EconomicDataPage.jsx:196 | `indexOf` gives the first position, or -1 exactly when absent. |
| EconomicData.SortByRank | src/pages/EconomicDataPage.jsx:195-196 | The in-place sort leaves a permutation ordered by table position. |
| EconomicData.InsertLast | src/pages/EconomicDataPage.jsx:196 | One insertion step extends the sorted prefix and keeps the multiset. |
| EconomicData.UnknownFirst | src/pages/EconomicDataPage.jsx:195-196 | Unknown indicator types come before every known one. |
| EconomicData.FractionDigits | src/pages/EconomicDataPage.jsx:137-155 | 4 digits exactly for an exchange rate's current value, 2 otherwise. |
| EconomicData.UnitSuffix | src/pages/EconomicDataPage.jsx:121-137 | No unit for exchange rates and index values; otherwise the indicator's unit. |
| EconomicData.UnitFacts | src/pages/EconomicDataPage.jsx:137 | Exchange rates and unknown types never show a unit; the other indicators show '%' except on index values. |
| SavingsForm.Validate | src/components/forms/SavingsForm.jsx:199-217 | Type, then institution, then numeric value, then the type-specific checks, first failure wins; passes iff all hold. |
| SavingsForm.DefaultDescription | src/components/forms/SavingsForm.jsx:203-209 | Checking and child savings use their prefix and the institution label (or raw value); other types use their type label. |
| SavingsForm.Payload | src/components/forms/SavingsForm.jsx:221-252 | The trimmed description or the default; immediately liquid iff checking; plus the conditional fields. |
| SavingsForm.Submit | src/components/forms/SavingsForm.jsx:193-217 | Rejected with the first failure's message iff validation fails, else saves the payload. |
| SavingsForm.EndDateOrExitStation | src/components/forms/SavingsForm.jsx:241-249 | Never both an end date and an exit station; for type 'other' an exit station removes the end date and is itself dropped. |
| SavingsForm.ConditionalFields | src/components/forms/SavingsForm.jsx:235-251 | Interest, indexation, lock and exit fields only for deposits; indexation only when variable; lock end only when locked; no open date for checking. |
| SavingsForm.SavedDepositIsComplete | src/components/forms/SavingsForm.jsx:212-237 | A saved deposit has an interest type, and with variable interest a non-empty indexation list. |
| SavingsForm.SelectChange | src/components/forms/SavingsForm.jsx:151-172 | A type change resets the type-specific fields and sets liquidity to (type == checking); fixed interest clears indexation; other fields change alone. |
| SavingsForm.TypeChangeForcesInterestChoice | src/components/forms/SavingsForm.jsx:154-165 | Right after switching to a deposit type the form cannot be saved (see also lines 212). |
| SavingsForm.IndexationChange | src/components/forms/SavingsForm.jsx:178-190 | Checking appends; unchecking removes every copy, and unchecking 'other' clears its details. |
| SavingsForm.IndexationMembership | src/components/forms/SavingsForm.jsx:178-190 | Afterwards the value is selected iff checked, and no other membership changes. |
| FormFields.RateInvalid | src/components/forms/FinancialAssetForm.jsx:200-204 | A non-ILS currency needs a numeric rate above 0. |
| FormFields.SavedRate | src/components/forms/FinancialAssetForm.jsx:222 | A rate is saved only for a non-ILS currency and a numeric rate, and it is positive whenever the guard passed. |
| FormFields.SavedRateDate | src/components/forms/FinancialAssetForm.jsx:223 | A date is saved only beside a rate and only when not empty. |
| FormFields.SavedRateFacts | src/components/forms/FinancialAssetForm.jsx:200-223 | After the guard: no rate iff ILS, any rate is positive, and a date never appears without its rate. |
| FormFields.CurrencyChange | src/components/forms/FinancialAssetForm.jsx:159-161 | New currency, an empty rate dated today, and source forced to manual for ILS. |
| FormFields.CurrencyChangeNeedsNewRate | src/components/forms/FinancialAssetForm.jsx:159-204 | After a change the rate guard fails iff the currency is not ILS, and nothing about the rate would be saved. |
| FormFields.SystemRateIndicator | src/components/forms/FinancialAssetForm.jsx:77-93 | A system rate exists only for USD and EUR, from the two indicators the economic-data page lets users edit. |
| FormFields.LoadRate | src/components/forms/FinancialAssetForm.jsx:104-121 | The source is manual iff a truthy rate was saved; the currency is the saved one, or ILS when absent; the rate text is the saved number. |
| FormFields.LoadThenSaveRate | src/components/forms/FinancialAssetForm.jsx:118 | Saving a loaded non-ILS asset unchanged gives back its saved rate (see also lines 222). |
| FormFields.ToggleLiquid | src/components/forms/FinancialAssetForm.jsx:465-470 | Switching on clears the release date; switching off keeps it. |
| FormFields.ToggleLiquidFacts | src/components/forms/AlternativeForm.jsx:418-424 | The switch always leaves a consistent record; on then off loses the date; off then on equals on. |
| FinancialAssetForm.FreshForm | src/components/forms/FinancialAssetForm.jsx:42-57 | A new instrument is in ILS and immediately liquid with no release date. |
| FinancialAssetForm.Validate | src/components/forms/FinancialAssetForm.jsx:180-204 | Type, trimmed description, numeric value, numeric quantity, then the rate guard, first failure wins; passes iff all hold. |
| FinancialAssetForm.Payload | src/components/forms/FinancialAssetForm.jsx:207-224 | The symbol is the typed one upper-cased letter by letter. Quantity and value are the typed numbers. The average price is present iff one was typed. Liquidity passes through. The rate is null for ILS and positive otherwise, with its date only beside it. |
| FinancialAssetForm.Submit | src/components/forms/FinancialAssetForm.jsx:174-224 | Rejected with the first failure's message iff validation fails, else saves the payload. |
| FinancialAssetForm.ChangeCurrency | src/components/forms/FinancialAssetForm.jsx:159-161 | Only the rate fields change. |
| FinancialAssetForm.ForeignCurrencyNeedsRate | src/components/forms/FinancialAssetForm.jsx:159-204 | A saveable form switched to a foreign currency is rejected for the missing rate. |
| FinancialAssetForm.SwitchLiquid | src/components/forms/FinancialAssetForm.jsx:465-470 | Only liquidity changes, and it stays consistent. |
| AlternativeForm.FreshForm | src/components/forms/AlternativeForm.jsx:40-53 | A new investment is in ILS, active, and not immediately liquid with no release date. |
| AlternativeForm.Load | src/components/forms/AlternativeForm.jsx:100-113 | A missing liquidity record becomes the default one; the rate fields load as `LoadRate`; the open date becomes the investment date. |
| AlternativeForm.Validate | src/components/forms/AlternativeForm.jsx:165-189 | Type, trimmed description, numeric value, currency, then the rate guard, first failure wins; passes iff all hold. |
| AlternativeForm.Payload | src/components/forms/AlternativeForm.jsx:192-207 | Saved as an alternative asset with manual updates. The investment date becomes the open date. Original investment is present iff typed. Liquidity passes through. The rate is null for ILS and positive otherwise, with its date only beside it. |
| AlternativeForm.Submit | src/components/forms/AlternativeForm.jsx:159-207 | Rejected with the first failure's message iff validation fails, else saves the payload. |
| AlternativeForm.LoadThenSave | src/components/forms/AlternativeForm.jsx:100-113 | Saving a loaded asset unchanged keeps its value, original investment, open date, liquidity (default if absent) and foreign rate (see also lines 192-207). |
| AlternativeForm.ChangeCurrency | src/components/forms/AlternativeForm.jsx:146-148 | Only the rate fields change. |
| AlternativeForm.ForeignCurrencyNeedsRate | src/components/forms/AlternativeForm.jsx:146-189 | A saveable form switched to another foreign currency is rejected for the missing rate. |
| AlternativeForm.SwitchLiquid | src/components/forms/AlternativeForm.jsx:418-424 | Only liquidity changes, and it stays consistent. |
| RealEstateForm.Validate | src/components/forms/RealEstateForm.jsx:206-216 | Type, trimmed address, numeric size, numeric value, valuation source, currency, then the rate guard, first failure wins; passes iff all hold. |
| RealEstateForm.DefaultDescription | src/components/forms/RealEstateForm.jsx:218 | "<type label> ב<address>". |
| RealEstateForm.SavedDescription | src/components/forms/RealEstateForm.jsx:218 | The trimmed input, or the default when blank. |
| RealEstateForm.SavedDescriptionNotBlank | src/components/forms/RealEstateForm.jsx:218 | The saved description is never blank. |
| RealEstateForm.SavedRentFields | src/components/forms/RealEstateForm.jsx:231-233 | Rent, indexation list and 'other' details only for an investment apartment; details only when 'other' is selected. |
| RealEstateForm.Payload | src/components/forms/RealEstateForm.jsx:221-240 | Rent fields as above; liquidity only for an investment apartment; the rate is null for ILS and positive otherwise, with its date only beside it. |
| RealEstateForm.Submit | src/components/forms/RealEstateForm.jsx:201-240 | Rejected with the first failure's message iff validation fails, else saves the payload. |
| RealEstateForm.RentIndexationChange | src/components/forms/RealEstateForm.jsx:186-199 | Checking appends; unchecking removes every copy, and unchecking 'other' clears its details; nothing else changes. |
| RealEstateForm.RentIndexationCheckUncheck | src/components/forms/RealEstateForm.jsx:186-199 | Checking an unselected value and unchecking it restores the selection. |
| RealEstateForm.RentIndexationNoRepeats | src/components/forms/RealEstateForm.jsx:186-199 | Selecting never introduces a repeat. |
| RealEstateForm.UncheckOtherDropsDetails | src/components/forms/RealEstateForm.jsx:186-199 | After unchecking 'other', its details are neither kept nor saved (see also lines 233). |
| RealEstateForm.TypeChange | src/components/forms/RealEstateForm.jsx:279 | A type change clears the rent-indexation selections and details. |
| RealEstateForm.TypeChangeSavesNoIndexation | src/components/forms/RealEstateForm.jsx:231-233 | After a type change no indexation details are saved, and an investment apartment saves an empty list (see also lines 279). |
| Js.TrimEmptyIff | src/components/forms/FinancialAssetForm.jsx:185 | `!s.trim()` holds exactly when the text is empty or white space only. |
| Js.ToUpperIdempotent | src/components/forms/FinancialAssetForm.jsx:212 | Upper-casing twice is upper-casing once. |
| Js.WithoutAbsent | src/components/forms/SavingsForm.jsx:184 | Filtering out an absent value changes nothing. |
| Js.WithoutKeepsNoDuplicates | src/components/dashboard/PortfolioTable.jsx:54 | Filtering a list without repeats leaves one without repeats. |

## Left out

- Remote persistence, authentication and the hosted entity store: every list, rate map and reply is a parameter. The remote create, update and delete calls are not modelled; `Purchase.delete` in particular runs before the purchase lookup and is not reflected.
- The async `fetchSystemRate` effects and `useEffect` chains of the forms, and `handleExchangeRateSourceChange`. Only the choice of indicator (`FormFields.SystemRateIndicator`) is modelled.
- The real-estate form's load from a saved asset and its "rent to liquid account" switch. Only the saved liquidity field is modelled.
- Transient loading, submitting and dialog-open flags, other than the purchase dialog's.
- MarketDataFetcher: the `InvokeLLM` prompts, the `Asset.update` loop, the `setInterval` polling, the `source` and `currency` tags added to quotes, and the fact that the cache is module-level and shared between instances.
- OCR upload and extraction, the randomly generated value chart, the thin forms (study fund, savings asset, pension, alternative asset), the generic asset form and modals, and presentation-only pages.
- Number, currency and date formatting (`toLocaleString`, `toFixed`, `Intl`, the Hebrew month labels).
- Floating-point rounding: money is an exact `real`.
- Per-row ROI on the asset page divides by the cost without a guard; this float artefact is not modelled.
- Time zones and instants: dates are calendar days, so the liquidity sort's comparison between "now" instants and midnight dates is not modelled. `Liquidity.ProcessedAssets` claims ordering and permutation, not the exact order within one day.
- `EconomicData.SortByRank`: `Array.prototype.sort` is stable, but the model only claims ordering and permutation.
- JavaScript object key order for integer-like category names, and prototype keys in the category tables.
- The recurring exit-station interval fields of the savings form are saved as the form holds them, but no classifier reads them.
- `Js.ToUpper` and `Js.ToLower` map only ASCII letters; JavaScript also maps other scripts.
- AssetPage.PurchasePayload: a fee field that does not read as a number saves `null` fees; the contract states only the empty and numeric cases.
- PortfolioSummary.ComputeSummary: an asset's quantity is always a number in the model. A stored record without one is not represented: an undefined quantity makes `quantity * (current_price || 0)` NaN and a null one counts as 0 (PortfolioSummary.jsx:17-25). The same holds for every sum built on `Holdings.HoldingValue`.
- AssetPage.CalculatePerformance: likewise assumes a numeric quantity; the source's `asset.quantity` arithmetic (Asset.jsx:141, 176, 198) turns an undefined quantity into NaN and a null one into 0.
- AssetPage.AssetPageState.AddPurchase: when the page holds no asset, the source fails with a TypeError reading `asset.id` (Asset.jsx:130) and shows that error's own message (Asset.jsx:160); the model substitutes the generic "Failed to add purchase" as `NoAsset`. The page never offers the dialog in that state, since it returns early when there is no asset (Asset.jsx:215).
- The hard-coded API keys in the fetcher are not behaviour.
