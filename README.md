# Commodity price acquisition and analysis — a Dafny model

This project models the data layer of a dashboard that shows agricultural commodity prices (live
cattle, corn, soybeans, coffee, sugar). The model has three parts:

- **`CepeaAPI`** (`utils/api_connector.py`) is the acquisition service. It builds a
  cache-file name per product and date range and keeps downloaded price tables in a cache
  directory. It also keeps a product catalogue, persisted as a JSON list. It converts dollar
  quotes to local currency with the daily buy rate of the US dollar, and falls back to a fixed
  5.0 when that rate is unavailable. Every failure of a historical-price request degrades to an
  empty table.
- **`process_quotes_data`** (`utils/data_processing.py`) turns a raw quotes payload into a
  table with columns `data`, `preco` and `variacao_dia`. It coerces the values, drops rows
  without a numeric price and sorts the rest by date.
- **`DataProcessor`** (`utils/data_processor.py`) is the analysis pipeline. It coerces dates,
  drops undated rows and sorts by date. It then adds rolling means over 7, 30 and 90 rows
  (`ma_<w>`), and the one-row and thirty-row percentage changes. When a dollar price column is
  usable, it adds the `_usd` forms of both.

Modules:

- `Common`: Option, Result, incoming-field coercions, the order-keeping filter behind `dropna`,
  and decimal text.
- `Dates`: calendar dates, their order and their `%Y%m%d` form.
- `Sorting`: sorting by a date key with missing dates last, as `sort_values` on a date column does.
- `ApiConnector`: the service. The class `CepeaApi` holds two things:
  - the cache directory, as a map from path to file;
  - the product-list file, as an optional value.
- `DataProcessing`: the quotes normaliser, written as functions.
- `DataProcessor`: a DataFrame is the class `Frame`, holding its column set and its rows. The
  static methods change the frame they are given, as the source's in-place assignments do.

The outside world enters the model as parameters:

- the `investpy` download is a `FetchReply`;
- the exchange-rate endpoint is a function from date to `RateReply`;
- `datetime.now().date()` is `today`;
- whether a file write succeeds is a `writable` flag.

Prices are exact `real`s. A missing value is `None` or `Missing`, never NaN.

## Model

| member | source | states |
|---|---|---|
| `Common.Numeric` | utils/api_connector.py:131 | `to_numeric(errors='coerce')`: a number exactly when the cell held one, and then that number |
| `Common.FilterMap` | utils/data_processing.py:26 | `dropna` keeps at most the input's rows, and every kept row is the image of some input row |
| `Common.FilterMapKeeps` | utils/api_connector.py:145 | a row that survives `dropna` is never lost |
| `Common.FilterMapCounts` | utils/api_connector.py:145 | `dropna` keeps each surviving row as often as the input produces it: nothing is merged |
| `Common.DecimalInjective` | utils/data_processor.py:16 | distinct window sizes have distinct decimal text |
| `Dates.Ymd` | utils/api_connector.py:30 | `strftime('%Y%m%d')` is always eight characters |
| `Dates.YmdInjective` | utils/api_connector.py:30 | the eight-digit form identifies the date |
| `Sorting.SortBy` | utils/data_processing.py:29 | `sort_values` by date: ascending, missing dates last, and a permutation of its input |
| `Sorting.InsertSorted` | utils/data_processing.py:29 | inserting one row into rows already ordered by date keeps them ordered |
| `Sorting.SortByMembers` | utils/api_connector.py:148 | sorting neither adds nor loses a row |
| `ApiConnector.PathJoin` | utils/api_connector.py:31 | `os.path.join`: an absolute second part replaces the directory |
| `ApiConnector.CacheFileName` | utils/api_connector.py:30 | the file name is the code plus 26 characters and starts with the code |
| `ApiConnector.CachePathInjective` | utils/api_connector.py:29-31 | for one product code, distinct (start, end) pairs get distinct cache files |
| `ApiConnector.CachePath` | utils/api_connector.py:29-31 | the path is `data/commodity_cache/<file name>`, or the file name alone when the code starts with `/` |
| `ApiConnector.ExchangeRate` | utils/api_connector.py:47-63 | a date after today gives 5.0; otherwise the rate is 5.0 or the first entry's buy quote |
| `ApiConnector.BuyQuote` | utils/api_connector.py:55-58 | a quote exists only when the reply decoded to a non-empty `value` list, and then it is the first entry's `cotacaoCompra` |
| `ApiConnector.FutureRateIgnoresReply` | utils/api_connector.py:49-50 | a future date never depends on the endpoint's reply |
| `ApiConnector.PastRateIsQuote` | utils/api_connector.py:51-63 | up to and including today, a usable first entry is the rate, and any failure or empty `value` list gives 5.0 |
| `ApiConnector.ExchangeRateAsWritten` | utils/api_connector.py:47-63 | as written, every date gives 5.0, because `requests` is never imported |
| `ApiConnector.AsWrittenIsAllRequestsFailing` | utils/api_connector.py:47-63 | the code as written equals the corrected lookup with every request failing |
| `ApiConnector.NormaliseAsWritten` | utils/api_connector.py:136-139 | as written, every row of a USD product carries the rate 5.0 and `price` is 5.0 times the dollar close |
| `ApiConnector.MissingImportDiscardsQuote` | utils/api_connector.py:54 | for 2024-01-02 with a 4.85 quote, the code as written returns 5.0 and the corrected rate 4.85 |
| `ApiConnector.ProductMapCodesDistinct` | utils/api_connector.py:19-27 | the five product codes are distinct |
| `ApiConnector.Lookup` | utils/api_connector.py:100 | `dict.get` finds something exactly when the code is a key, and what it finds is stored under that code |
| `ApiConnector.LookupFindsEntry` | utils/api_connector.py:100 | with distinct keys, each entry is found under its own code |
| `ApiConnector.BuildProductsList` | utils/api_connector.py:72-79 | one `{code, name, unit, currency}` entry per map item, in map order |
| `ApiConnector.CatalogueResolves` | utils/api_connector.py:72-79 | each listed product resolves to its own map entry, and no code is listed twice |
| `ApiConnector.CompleteFrameRow` | utils/api_connector.py:126-145 | a row that survives `dropna` has `price = price_usd * exchange_rate` for USD and `price = close` otherwise |
| `ApiConnector.FrameRow` | utils/api_connector.py:126-142 | the row carries the code and the parsed date; for USD, `price_usd` is the close, the rate is that date's rate, and `price` is their product when both exist; otherwise `price` is the close and both legs are missing |
| `ApiConnector.Complete` | utils/api_connector.py:145 | `dropna(subset=['date', 'price'])` keeps a row exactly when it has both, and keeps every cell of it |
| `ApiConnector.Normalise` | utils/api_connector.py:126-148 | the table is sorted by date and holds exactly the rows that survive `dropna` |
| `ApiConnector.NormaliseRowsComeFromFetch` | utils/api_connector.py:126-148 | every returned row comes from one downloaded row with that date and its close, and carries the requested product code and the rate of its own date |
| `ApiConnector.NormaliseKeepsCompleteRows` | utils/api_connector.py:145-148 | no row with a date and a numeric close is dropped, so there is no range filter; each kept row occurs exactly as often as fetched rows produce it, so there is no de-duplication |
| `ApiConnector.NormaliseWellFormed` | utils/api_connector.py:136-148 | the table is sorted by date, and its currency legs are both present or both absent and agree |
| `ApiConnector.ServeCacheFirst` | utils/api_connector.py:93-98 | a readable non-empty cached table is returned as stored, whatever the download would give |
| `ApiConnector.ServeFetches` | utils/api_connector.py:99-152 | on a miss with a mapped code and a usable download, the table is the normalised download, stored under the request's path when the write succeeds |
| `ApiConnector.Serve` | utils/api_connector.py:90-156 | the only write a call makes stores the returned table under its own path, and a call that cannot write changes nothing |
| `ApiConnector.ServeDegradesToEmpty` | utils/api_connector.py:100-156 | an unmapped code, a failed or empty download, a download without a `Date` or `Close` column, an unparseable date, or a USD download with a missing date gives the empty table and writes nothing |
| `ApiConnector.ServeWriteFailureKeepsTable` | utils/api_connector.py:150-152 | a failed cache write does not change the returned table |
| `ApiConnector.ServeRepeatIsCached` | utils/api_connector.py:90-152 | after a non-empty result was written, the same request returns the same table from the cache |
| `ApiConnector.ServeWritesOnlyItsPath` | utils/api_connector.py:33-37 | a request writes at most its own cache file |
| `ApiConnector.ServeWellFormed` | utils/api_connector.py:90-156 | well-formed cached tables stay well formed, and every returned table is well formed |
| `ApiConnector.CepeaApi.constructor` | utils/api_connector.py:9-13 | the service starts from the files already on disk |
| `ApiConnector.CepeaApi.LoadFromCache` | utils/api_connector.py:39-45 | a table exactly when the file exists and reads, and then the file's table |
| `ApiConnector.CepeaApi.SaveToCache` | utils/api_connector.py:33-37 | a successful write stores the table under its path, and a failed one changes nothing |
| `ApiConnector.CepeaApi.GetAvailableProducts` | utils/api_connector.py:65-88 | a stored list is returned verbatim; otherwise the list built from the map is persisted and returned; an unreadable file or a failed write gives `[]` |
| `ApiConnector.CepeaApi.GetHistoricalPrices` | utils/api_connector.py:90-156 | the returned table and the new cache are those of `Serve`, for which the lemmas above hold |
| `DataProcessing.ProcessQuotesData` | utils/data_processing.py:4-31 | no payload or no `cotacoes` gives an empty table; an error exactly when a column is missing or a date does not parse; otherwise a date-sorted permutation of the records with a numeric price |
| `DataProcessing.QuotesComeFromPricedRecords` | utils/data_processing.py:18-26 | every output row is an input record with a numeric `preco`, with its date and coerced `variacao_dia` |
| `DataProcessing.Priced` | utils/data_processing.py:21-26 | a record is kept exactly when `preco` is numeric, with its parsed date, that price and its coerced `variacao_dia` |
| `DataProcessing.PricedRecordsAreKept` | utils/data_processing.py:22-26 | a record with a numeric `preco` is kept even when its `variacao_dia` is not numeric |
| `DataProcessing.MissingDatesSortLast` | utils/data_processing.py:29 | the output is in ascending date order, with missing dates last |
| `DataProcessing.EmptyQuotesListRaises` | utils/data_processing.py:18-21 | an empty `cotacoes` list raises the missing-`data`-column error |
| `DataProcessor.NumCell` | utils/data_processor.py:10 | coercion keeps numbers and turns anything else into a missing value |
| `DataProcessor.DateCell` | utils/data_processor.py:47 | coercion keeps dates and turns anything else into a missing value |
| `DataProcessor.Series` | utils/data_processor.py:16 | a column read as numbers has one entry per row |
| `DataProcessor.NumColumn` | utils/data_processor.py:10 | the coerced column is the per-row coercion |
| `DataProcessor.MinPresent` | utils/data_processor.py:16 | the smallest present value of a window is attained and bounds the others |
| `DataProcessor.MaxPresent` | utils/data_processor.py:16 | the largest present value of a window is attained and bounds the others |
| `DataProcessor.RollingMeanDefined` | utils/data_processor.py:16 | with `min_periods=1`, the mean is defined exactly when rows max(0, i-w+1)..i hold a present price |
| `DataProcessor.RollingMean` | utils/data_processor.py:16 | the mean exists exactly when the window holds a present price, and times the count of present prices it gives their sum |
| `DataProcessor.RollingMeanBounds` | utils/data_processor.py:16 | a defined moving average lies between its window's minimum and maximum |
| `DataProcessor.MeanOfPresentBounds` | utils/data_processor.py:16 | the mean of a window's present prices (missing ones skipped) lies between their minimum and maximum |
| `DataProcessor.RollingMeanOfConstant` | utils/data_processor.py:16 | a constant price series averages to that price |
| `DataProcessor.FilledAtIsLastPresent` | utils/data_processor.py:31 | the forward fill before `pct_change` yields the last present price at or before the row |
| `DataProcessor.FilledAt` | utils/data_processor.py:31 | a present price is its own fill, and any fill is a price at or before the row |
| `DataProcessor.PctChange` | utils/data_processor.py:31-32 | missing for the first `p` rows; a defined change applied to the filled price `p` rows back gives the filled price at the row |
| `DataProcessor.PctChangeGapFree` | utils/data_processor.py:31-32 | on a gap-free series, the first `p` rows are missing, later rows are `(x[i]/x[i-p] - 1)*100`, and the price is recovered from the change |
| `DataProcessor.MaNameInjective` | utils/data_processor.py:16 | distinct windows give distinct `ma_` columns |
| `DataProcessor.MaNamesDistinct` | utils/data_processor.py:16-20 | a moving-average column never collides with a `_usd` average, a price column or a percentage column |
| `DataProcessor.PctNamesAvoidPrices` | utils/data_processor.py:31-36 | the percentage columns are not price columns |
| `DataProcessor.MaColumnsMembers` | utils/data_processor.py:14-20 | the loop writes exactly `ma_<w>` for each window, plus `ma_<w>_usd` when dollar prices are usable |
| `DataProcessor.MaColumnsAvoidFixed` | utils/data_processor.py:14-20 | the average columns overwrite neither the prices nor the percentage columns |
| `DataProcessor.CoercedRow` | utils/data_processor.py:9-12 | coercion keeps every column and changes only the price columns |
| `DataProcessor.RowAveragesSpec` | utils/data_processor.py:14-20 | a row gains each window's average and keeps every other cell, even when a window is repeated |
| `DataProcessor.RowAveragesKeep` | utils/data_processor.py:14-20 | a cell that is not an average column leaves the window loop untouched |
| `DataProcessor.RowAverageAt` | utils/data_processor.py:14-16 | after the loop, `ma_<w>` holds the rolling mean of `price` for every listed window `w`, repeated windows included |
| `DataProcessor.RowUsdAverageAt` | utils/data_processor.py:18-20 | with usable dollar prices, `ma_<w>_usd` holds the rolling mean of `price_usd` for `w` |
| `DataProcessor.AveragedRowsByRow` | utils/data_processor.py:14-20 | row `i` after the loop is row `i` with its own averages added |
| `DataProcessor.RowChangesSpec` | utils/data_processor.py:31-36 | a row gains exactly the percentage columns, each holding its change, and keeps every other cell |
| `DataProcessor.ChangedRows` | utils/data_processor.py:31-36 | the column assignments change each row by its own percentage changes |
| `DataProcessor.DateStepKeeps` | utils/data_processor.py:47-49 | a row survives the date step exactly when its date parses, and it survives unchanged |
| `DataProcessor.DateStepKeepsOnlyDated` | utils/data_processor.py:47-49 | every row left by the date step came unchanged from the input and has a parsed date |
| `DataProcessor.DateStepKeepsAllDated` | utils/data_processor.py:47-49 | every input row whose date parses is still there after the date step |
| `DataProcessor.DatedRows` | utils/data_processor.py:46-49 | the kept rows are exactly the input rows with a date, each as often as in the input, with every input column |
| `DataProcessor.DatedRowCount` | utils/data_processor.py:48 | `dropna` on the date keeps every dated row as often as it occurs and no undated row |
| `DataProcessor.DateStepCounts` | utils/data_processor.py:47-48 | coercing and dropping the dates keeps each dated input row as often as it occurs |
| `DataProcessor.DatedRowsOrdered` | utils/data_processor.py:49 | the kept rows are in ascending date order |
| `DataProcessor.Frame.constructor` | utils/data_processor.py:41 | a frame holds its columns and rows |
| `DataProcessor.Frame.Copy` | utils/data_processor.py:43 | `df.copy()` is a new frame with the same contents |
| `DataProcessor.Frame.Assign` | utils/data_processor.py:47 | `df[name] = values` sets that column in every row and adds the name to the columns |
| `DataProcessor.Frame.DropMissingDates` | utils/data_processor.py:48 | in-place `dropna` keeps, in order, the rows with a date |
| `DataProcessor.Frame.SortByDate` | utils/data_processor.py:49 | in-place sort by date, keeping the frame's columns |
| `DataProcessor.CoercePrices` | utils/data_processor.py:9-12 | every row becomes its coerced row, and the columns stay |
| `DataProcessor.CoercionKeepsUsd` | utils/data_processor.py:10-19 | coercion changes neither the prices read nor whether dollar prices are usable |
| `DataProcessor.AddMovingAverages` | utils/data_processor.py:7-21 | adds exactly the `ma_` columns, each row holding its rolling means, and keeps every other column and all rows |
| `DataProcessor.AveragesMeetSpec` | utils/data_processor.py:14-20 | the loop's rows satisfy the per-row moving-average definition against the rows it was given |
| `DataProcessor.AddPercentageChange` | utils/data_processor.py:24-38 | adds exactly the percentage columns, each row holding its changes, and keeps every other column and all rows |
| `DataProcessor.ChangesKeepPrices` | utils/data_processor.py:31-34 | writing `pct_change` does not disturb `price_usd` |
| `DataProcessor.ChangesMeetSpec` | utils/data_processor.py:31-36 | the changed rows satisfy the per-row percentage definition against the rows they came from |
| `DataProcessor.PrepareAnalysisData` | utils/data_processor.py:41-61 | leaves the caller's frame alone; a missing `date` column raises; a missing or all-null `price` raises; otherwise, and only then, the call succeeds: the dated, sorted rows gain the 7/30/90 averages and the percentage changes, and nothing else changes |
| `DataProcessor.StepsCompose` | utils/data_processor.py:58-59 | the averages survive the percentage step, and `_usd` usability is the same for both steps |
| `DataProcessor.AveragesKeepPrices` | utils/data_processor.py:10-20 | the averages step leaves `price` and `price_usd` reading as before, so `_usd` usability is unchanged |
| `DataProcessor.AveragesSurviveChanges` | utils/data_processor.py:58-59 | the percentage step does not overwrite any moving-average column |
| `DataProcessor.ChangesRebased` | utils/data_processor.py:30-36 | percentage changes computed from rows whose prices read as the base rows' are the base rows' changes |

## Left out

- I/O is left out. Parquet and JSON serialisation, `os.makedirs` and `os.path.exists` are not
  modelled. The cache holds tables as values, and a file that exists but does not read is
  `None`. Partial writes are not modelled.
- `print` logging and the timestamps in the log messages are left out.
- The `investpy` call is a `FetchReply` parameter. A missing `Date` or `Close` column is a
  download whose rows all lack that cell (`ApiConnector.MissingColumn`); it raises and gives
  the empty table. A column that some rows have and others lack cannot occur in a DataFrame;
  the model reads such a cell as a null one.
- `ApiConnector.PricePoint` keeps only `date`, `product`, `price`, `price_usd` and
  `exchange_rate`. The download's other columns (`Open`, `High`, `Low`, `Volume`, `Currency`)
  survive `dropna`, are cached and are returned by the source; the model drops them.
- `ApiConnector.Serve` and `ApiConnector.CepeaApi.GetHistoricalPrices` use the corrected
  `ExchangeRate` with the `rates` parameter. The code as written is that model with `rates`
  set to `ApiConnector.AllRequestsFail`: every USD row gets the rate 5.0 and `price` is 5.0
  times the close (`ApiConnector.NormaliseAsWritten`).
- The exchange-rate endpoint is a function of the date. The URL, its `%m-%d-%Y` date text and
  the 5-second timeout are not modelled.
- `datetime.now()` is the `today` parameter.
- `ApiConnector.Serve` follows pandas 2, where comparing `NaT` with a `datetime.date` raises
  `TypeError`: a USD download with a missing date reaches that comparison at line 49, outside
  the `try`, and the call returns the empty table and writes nothing. Under pandas 1 the
  comparison is false, the rate lookup proceeds, and only the undated row is dropped; the model
  does not cover that version.
- Floating point is not modelled. Prices, rates, means and percentages are exact reals.
  Rounding, NaN and infinities are left out.
- `Dates.Ymd`: `%Y` is zero-padded to four digits. Some C libraries do not pad years below
  1000.
- `Sorting.SortBy` is a stable sort, while pandas' default quicksort is not. `Sorting.SortBy`
  itself claims only what both give: sorted by date, and a permutation. Three members fix the
  stable order for rows that share a date, which pandas need not keep:
  `ApiConnector.CepeaApi.GetHistoricalPrices` returns exactly `Serve`'s table,
  `DataProcessor.Frame.SortByDate` sets the rows to `SortBy`'s order, and
  `DataProcessor.PrepareAnalysisData` states its averages and changes over `DatedRows`' order.
  With several rows on one date, pandas may order them differently, and the moving averages
  and percentage changes at those rows may then differ from the model's.
- `DataProcessor.Cell`: cells are typed values. Parsing text into numbers or dates is not
  modelled, so a text cell counts as unparseable. `DataProcessor.DateCell` also turns a numeric
  cell into a missing value, while `pd.to_datetime` reads a number as an offset from the epoch;
  the model drops such a row, where pandas keeps it with that date.
- `DataProcessor.PctChange`: a zero base gives a missing value. pandas gives an infinity or NaN
  there.
- `DataProcessor.PctChange`: the forward fill that `pct_change` applies by default is modelled.
  Properties are stated for gap-free series and for the fill itself.
- The frame index is not modelled: `reset_index` and the index labels that survive `dropna`
  and sorting. Rows are a sequence.
- `DataProcessor.AddMovingAverages` requires a `price` column. The source raises `KeyError`
  without one, and its only caller checks first.
- `DataProcessor.AddPercentageChange` requires a `price` column, for the same reason.
- `DataProcessor.AddMovingAverages`: a window of 0 gives a missing column. pandas rejects it
  with an error.
- `DataProcessor.AddMovingAverages` decides once, before the loop, whether the `_usd` averages
  are written. The source asks on every pass, but the loop never writes `price_usd`, so the
  answer cannot change.
- `DataProcessing.ProcessQuotesData`: record keys other than `data`, `preco` and
  `variacao_dia` are not carried along. `.dt.date` is implicit, because dates are already days.
- `ApiConnector.ExchangeRate`: an endpoint reply whose structure raises another exception is
  folded into `RequestFailed`, or into a missing buy quote.
- `utils/api_client.py`, `utils/visualization.py`, `main.py` and `app.py` are not part of this
  model.

## Findings

| source | as written | input that shows it | evidently intended | confidence | as-written member | corrected member |
|---|---|---|---|---|---|---|
| utils/api_connector.py:54 | `requests.get` is called, but the module never imports `requests`. Every non-future lookup raises `NameError`, and the handler turns it into 5.0. | date 2024-01-02, today 2024-06-03, endpoint buy quote 4.85 | the day's buy quote, 4.85 | high, not executed | `ApiConnector.ExchangeRateAsWritten`, `ApiConnector.MissingImportDiscardsQuote` | `ApiConnector.ExchangeRate` |
