# Coins & Markets dashboard: a Dafny model of its state logic

The dashboard lists cryptocurrency market data from the CoinGecko API. A viewer picks
a display currency and a sort order and pages through the table. A detail view shows
one coin's two-day price history. This project models the logic under the widgets:

- **Market table** (`MarketTable`, from `src/App.tsx`):
  - the filter state: currency, order and the pagination record `current` / `pageSize` / `total`;
  - the field-by-field pagination merge;
  - the request URL with its fallbacks to page 1 and size 10;
  - the fetch lifecycle over the rows and the loading flag;
  - the column descriptors rebuilt for the active currency;
  - the `value > 0` direction of the 24h-change sparkline.
- **Detail view** (`CoinInfo`, from `src/components/modal/CoinInfo.tsx`):
  - the hourly time labels of `getLastNHours`;
  - the extraction of prices from `[timestamp, price]` pairs;
  - the history URL;
  - the `priceData` / `loading` lifecycle, with `null` standing for "no data";
  - the choice between the placeholder skeleton and the line chart.
- **Sparkline** (`Sparkline`, from `src/components/chart/CoinPriceChart.tsx`): the choice of
  the rising or falling data and of the green or red stroke.

Supporting modules:

- `Coins`: the currency and order values, and the records the API returns.
- `Wrappers`: `Option` and the settled `Response` of a request.
- `Decimal`: the decimal text of an integer, with its parser.
- `Query`: how a server reads a query string back into its parameters. The market URL is
  checked against this reading.

Each component's state changes in place. It is modelled twice:

- A pure `Step` function over a state record, with `Run` folding a sequence of events
  (selections, table changes, fetches begun, fetches settled).
- A class (`MarketTable.Controller`, `CoinInfo.Detail`) with the component's fields. Its
  handler and begin/resolve methods are proved to perform exactly that `Step`.

The lemmas about `Run` state what the code guarantees, and what it does not:

- The rows shown (or the price data stored) are those of the last request to settle,
  whichever request that was.
- The loading flag is set by the last fetch event: true after a begin, false after a
  settlement.
- Each filter holds the value last selected.

The code does not discard late results: a late answer to an earlier request overwrites
the current one (`LateResultOverwrites`, `LateHistoryShownForNewCoin`).

Both URLs have a `/` before their query: `.../coins/markets/?vs_currency=...`
(src/App.tsx:64) and `.../market_chart/?vs_currency=...`
(src/components/modal/CoinInfo.tsx:27).

`src/App.tsx` does not open the detail view. `CoinInfo.Detail` gets its coin and
currency as props (`ReceiveProps`).

## Model

| member | source | states |
|---|---|---|
| `Coins.CurrencyCode` | src/App.tsx:98-102 | the currency value sent to the API is read back as the same currency, and holds no `&`, `=` or `/` |
| `Coins.OrderCode` | src/App.tsx:103-110 | the order value sent to the API is read back as the same order and holds no `&` or `=` |
| `Decimal.IntText` | src/App.tsx:64 | the decimal text interpolated for a page or page size parses back to that number |
| `Wrappers.Outcome` | src/App.tsx:70-76 | a settled request yields its payload on success and the component's "no data" value on failure |
| `MarketTable.CoinTableColumnsFor` | src/App.tsx:46 | `getCoinTableColumns(currency)`: the static columns with the price renderer for that currency; its contract is carried by `WithPriceRenderer`, `PriceColumnShowsCurrency` and `ColumnsDependOnlyOnPrice` |
| `MarketTable.CellText` | src/App.tsx:48 | the text a column's renderer shows for a cell: `text + ' ' + currency` for the price column, the text itself otherwise; its contract is carried by `PriceColumnShowsCurrency` |
| `MarketTable.WithPriceRenderer` | src/App.tsx:46-49 | every column keeps its place, title, data index and key; the `current_price` column gets the currency renderer; every other column is unchanged |
| `MarketTable.PriceColumnShowsCurrency` | src/App.tsx:16-49 | for every currency there are the four columns in order, only `current_price` appends the currency, and its cell text is value + `" "` + currency |
| `MarketTable.ColumnsDependOnlyOnPrice` | src/App.tsx:46-49 | columns other than the price column are the same for every currency; the derived columns differ exactly when the currencies differ |
| `MarketTable.GoingUp` | src/App.tsx:37 | the direction is up iff the 24h change is a number strictly above 0; zero, negative and null are down |
| `MarketTable.TrendCell` | src/App.tsx:37 | the change cell's sparkline is green and rising iff the change is strictly positive |
| `MarketTable.Merge` | src/App.tsx:88-91 | `{ ...prevState, ...pagination }` over the three modelled fields; its contract is carried by `MergeFields` and `MergeLaws` |
| `MarketTable.MergeFields` | src/App.tsx:87-92 | restates `Merge` field by field: a field the table supplies replaces the old one, even when it is undefined; a field it leaves out keeps its value |
| `MarketTable.MergeLaws` | src/App.tsx:87-92 | merging an empty update is the identity; merging an update twice equals merging it once; two merges compose |
| `MarketTable.OrDefault` | src/App.tsx:70 | `field \|\| fallback` keeps a field that is present, defined and non-zero, and otherwise gives the fallback |
| `MarketTable.RequestedPage` | src/App.tsx:70 | the page requested is `current` when truthy, else 1, and never 0 |
| `MarketTable.RequestedRows` | src/App.tsx:70 | the rows requested are `pageSize` when truthy, else 10, and never 0 |
| `MarketTable.RequestOf` | src/App.tsx:70 | the arguments the effect passes to `getData`: page and rows with their fallbacks, the currency and the order; its contract is carried by `RequestedPage`, `RequestedRows` and `InitialRequest` |
| `MarketTable.MarketUrl` | src/App.tsx:64 | the URL template, written out piece by piece; its contract is carried by `MarketUrlShape`, `MarketUrlParams`, `MarketUrlRoundTrip` and `MarketUrlInjective` |
| `MarketTable.MarketUrlShape` | src/App.tsx:63-66 | the request URL is `API_URL`, `/?` and a query string made of the request's parameters |
| `MarketTable.MarketUrlParams` | src/App.tsx:64 | that query reads back as exactly `vs_currency`, `order`, `per_page`, `page`, `sparkline=false`, in that order, with no other parameter |
| `MarketTable.MarketUrlRoundTrip` | src/App.tsx:63-66 | page, rows, currency and order can all be decoded back from the URL |
| `MarketTable.MarketUrlInjective` | src/App.tsx:64 | two requests have the same URL iff they are the same request |
| `MarketTable.InitialRequest` | src/App.tsx:52-70 | from the state `Initial`, the first fetch asks for page 1 of 10 rows in usd by market_cap_desc |
| `MarketTable.SecondPageInEuros` | src/App.tsx:79-92 | after choosing EUR, ascending order and page 2, the request sends eur, market_cap_asc, per_page 10, page 2 |
| `MarketTable.Step` | src/App.tsx:68-92 | one event: a handler call, the effect's begin, or the settling of a fetch; its contract is carried by `StepFrame`, `StepField` and `Controller`, whose methods perform exactly one `Step` each |
| `MarketTable.Run` | src/App.tsx:68-92 | the state after a sequence of events, oldest first; its contract is carried by the `Run...` lemmas below |
| `MarketTable.StepFrame` | src/App.tsx:68-92 | restates `Step` as frames: each handler changes only its own field; a begin only sets loading; a success replaces the rows wholesale and a failure empties them, clearing loading either way |
| `MarketTable.RunDataKept` | src/App.tsx:68-77 | while no fetch has settled, the rows are those of the starting state |
| `MarketTable.RunData` | src/App.tsx:68-77 | the rows shown are those of the last fetch to settle, or empty if it failed, whenever it began |
| `MarketTable.RunLoadingKept` | src/App.tsx:68-77 | while no fetch begins or settles, the loading flag keeps its value |
| `MarketTable.RunLoading` | src/App.tsx:68-77 | loading is true iff the last fetch event is a begin |
| `MarketTable.RunCurrencyKept` | src/App.tsx:79-81 | while no currency is chosen, the currency keeps its value |
| `MarketTable.RunCurrency` | src/App.tsx:79-81 | the currency is the last one chosen |
| `MarketTable.RunOrderKept` | src/App.tsx:83-85 | while no order is chosen, the order keeps its value |
| `MarketTable.RunOrder` | src/App.tsx:83-85 | the order is the last one chosen |
| `MarketTable.StepField` | src/App.tsx:87-92 | one event changes a pagination field only if it is a table change that supplies that field |
| `MarketTable.RunPaginationKept` | src/App.tsx:87-92 | a pagination field that no table change supplied keeps its starting value |
| `MarketTable.RunPagination` | src/App.tsx:87-92 | each pagination field holds the value from the last table change that supplied it |
| `MarketTable.LateResultOverwrites` | src/App.tsx:68-77 | a USD fetch that settles after a later EUR fetch replaces the EUR rows and clears loading |
| `MarketTable.Controller.constructor` | src/App.tsx:52-61 | the new component is in state `Initial` (a constant of the model): no rows, USD, market cap descending, page 1 of size 10 of 10000, loading |
| `MarketTable.Controller.HandleCurrencyChange` | src/App.tsx:79-81 | replaces the currency and nothing else |
| `MarketTable.Controller.HandleOrderChange` | src/App.tsx:83-85 | replaces the order and nothing else |
| `MarketTable.Controller.HandleTableChange` | src/App.tsx:87-92 | merges the table's pagination update into the window and changes nothing else |
| `MarketTable.Controller.BeginFetch` | src/App.tsx:68-70 | sets loading and returns the URL of the request for the current filters |
| `MarketTable.Controller.ResolveOk` | src/App.tsx:71-76 | replaces the rows with the response, then clears loading |
| `MarketTable.Controller.ResolveErr` | src/App.tsx:72-76 | empties the rows, then clears loading |
| `Sparkline.SeriesData` | src/components/chart/CoinPriceChart.tsx:19 | the series is `pDataUp` iff going up, else its reverse; it always has one value per label |
| `Sparkline.Stroke` | src/components/chart/CoinPriceChart.tsx:23 | the stroke is `green` iff going up, and `red` iff not |
| `Sparkline.DownReversesUp` | src/components/chart/CoinPriceChart.tsx:5-6 | `pDataDown` is `pDataUp` reversed, and the reverse holds too |
| `Sparkline.Render` | src/components/chart/CoinPriceChart.tsx:13-31 | the chart has the seven fixed labels, as many data points as labels, and the selected series and stroke |
| `Sparkline.RenderInjective` | src/components/chart/CoinPriceChart.tsx:19-23 | the two directions draw different charts |
| `CoinInfo.LastNHours` | src/components/modal/CoinInfo.tsx:11-15 | exactly n labels, each one hour after the previous, the last one hour before the base time |
| `CoinInfo.LastNHoursAt` | src/components/modal/CoinInfo.tsx:14 | label i is `base - 3600000 * (n - i)` milliseconds |
| `CoinInfo.LastNHoursIncreasing` | src/components/modal/CoinInfo.tsx:13-14 | labels increase strictly, by 3600000 per step, and all lie before the base time |
| `CoinInfo.PriceValues` | src/components/modal/CoinInfo.tsx:74 | the value series is the second component of each price pair, in the same order |
| `CoinInfo.ChartFor` | src/components/modal/CoinInfo.tsx:58-76 | the chart's labels are `getLastNHours` of the number of samples, so their values follow `LastNHours` and `LastNHoursAt` for every count; there is one label per sample, and the values are the samples' prices |
| `CoinInfo.LabelsIgnoreTimestamps` | src/components/modal/CoinInfo.tsx:62-74 | labels depend only on the number of samples, never on their timestamps; the values depend only on the prices |
| `CoinInfo.EmptyHistoryChart` | src/components/modal/CoinInfo.tsx:11-14 | restates the base case: an empty history draws an empty chart |
| `CoinInfo.ThreeSampleLabels` | src/components/modal/CoinInfo.tsx:11-14 | three samples are labelled 3, 2 and 1 hours before the base time |
| `CoinInfo.HistoryUrl` | src/components/modal/CoinInfo.tsx:27 | the history URL template; its contract is carried by `HistoryUrlRoundTrip` and `HistoryUrlInjective` |
| `CoinInfo.HistoryUrlRoundTrip` | src/components/modal/CoinInfo.tsx:26-29 | the coin id (whatever it holds) and the currency can be decoded back from the history URL |
| `CoinInfo.HistoryUrlInjective` | src/components/modal/CoinInfo.tsx:27 | two history requests share a URL iff they ask for the same coin and currency |
| `CoinInfo.InitialDetail` | src/components/modal/CoinInfo.tsx:22-24 | the view starts from its props with no data and loading |
| `CoinInfo.ViewOf` | src/components/modal/CoinInfo.tsx:57 | the chart is shown iff not loading and there is data, otherwise the skeleton |
| `CoinInfo.Stored` | src/components/modal/CoinInfo.tsx:34-38 | a success stores its payload and a failure stores null |
| `CoinInfo.Step` | src/components/modal/CoinInfo.tsx:22-40 | one event: new props, the effect's begin, or the settling of a fetch; the `Detail` methods perform exactly one `Step` each |
| `CoinInfo.Run` | src/components/modal/CoinInfo.tsx:22-40 | the state after a sequence of events, oldest first; its contract is carried by `RunPriceData`, `RunLoading` and `RunView` |
| `CoinInfo.RunPriceData` | src/components/modal/CoinInfo.tsx:31-40 | the stored data comes from the last request to settle, whichever coin that request was for |
| `CoinInfo.RunLoading` | src/components/modal/CoinInfo.tsx:31-40 | loading is true iff the last fetch event is a begin |
| `CoinInfo.RunView` | src/components/modal/CoinInfo.tsx:31-57 | the chart is shown iff the last fetch event is a success; after a failure the skeleton stays |
| `CoinInfo.LateHistoryShownForNewCoin` | src/components/modal/CoinInfo.tsx:31-40 | when coin A's history arrives after coin B's, the view for B draws A's prices |
| `CoinInfo.Detail.constructor` | src/components/modal/CoinInfo.tsx:22-24 | on first render, no data and loading |
| `CoinInfo.Detail.ReceiveProps` | src/components/modal/CoinInfo.tsx:22-40 | new props replace the coin and the currency and leave the data and loading as they were |
| `CoinInfo.Detail.BeginFetch` | src/components/modal/CoinInfo.tsx:31-33 | sets loading and returns the history URL for the current coin and currency |
| `CoinInfo.Detail.ResolveOk` | src/components/modal/CoinInfo.tsx:34-39 | stores the history, then clears loading |
| `CoinInfo.Detail.ResolveErr` | src/components/modal/CoinInfo.tsx:35-39 | stores null, then clears loading |
| `CoinInfo.Detail.ShowsSkeleton` | src/components/modal/CoinInfo.tsx:57 | the skeleton is drawn iff loading or there is no data, for every base time |

## Left out

- HTTP: the axios calls are not modelled. Each request's result comes into a resolve step as `Ok(payload)` or `Err`.
- Console logging is not modelled.
- React is not modelled: hooks, memoisation, JSX, widget layout and the code viewer. This includes the effect scheduler, which decides when a change re-runs the effect (its dependency arrays, equal-value bail-outs). A caller of `BeginFetch` stands in for the scheduler.
- Concurrency: requests in flight are modelled as events in one sequence. Requests are never cancelled and late results are never discarded, because the code does neither.
- Wall-clock time: the base time of `getLastNHours` is taken as a parameter. It stands for the current time with minutes set to zero; seconds and milliseconds are kept, because `setMinutes(0)` leaves them.
- Label formatting (`toLocaleString` with weekday, hour and minute) is not modelled. Neither is the upper-cased currency in the detail title.
- Prices, supplies and volumes are taken as `real` values that are passed through. Floating-point arithmetic is not modelled.
- Price cells: the text passed to the price renderer is taken as a string. JavaScript's conversion of the number to text is not modelled.
- Pagination numbers are integers; non-integral and NaN values are not modelled. The page and page size are unbounded integers printed in plain decimal (`Decimal.IntText`). This matches JavaScript only below 1e21 in magnitude, where it stops printing exponent form, and exactly only up to 2^53. Only `current`, `pageSize` and `total` of the widget's pagination record are modelled.
- `src/enums/enums.ts` is not part of this model. The enum values are taken to be the API's own codes: `usd`, `eur`, `market_cap_desc` and `market_cap_asc`.
- `src/interfaces/interfaces.ts` is not part of this model. `ICoinItem` and `ICoinPrice` are rebuilt from the fields the API returns; of `ICoinPrice`, only `prices` is modelled.
- `src/components/chart/CoinPriceChartTiny.tsx`, which `src/App.tsx` imports, is not part of this model. The sparkline in the change column is modelled as the selector in `src/components/chart/CoinPriceChart.tsx`.
- `src/constants/codeMirror.ts` is display text holding an older copy of the app; it is not modelled.
- The detail view's supply and volume cards are display only and are not modelled.
