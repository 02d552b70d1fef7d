# stock_data_analyzer in Dafny

This project is a verified model of the logic of `stock_data_analyzer`, a small
desktop tool. The tool downloads daily stock prices, caches them in one CSV
file per ticker, adds moving averages and Bollinger bands to the price table,
and charts the result. The model covers three parts of the package:

- **Input validation** (`validation.dfy`, module `Validation`). It models
  `validate_ticker` and `validate_date` the way CPython runs them.
  - `re.match(r"^[A-Z]{1,5}$", ticker)`: a greedy run of capitals, then
    backtracking. `$` also matches just before one final newline.
  - `datetime.strptime(date, "%Y-%m-%d")`: the regular expression that
    `_strptime` compiles for this format, tried alternative by alternative.
    Then the "unconverted data remains" check, `int()` of each field, and the
    `date` constructor's checks in its own order. Every `ValueError` becomes
    `False`.
  - Each predicate is proved equal to a plain reference definition of the
    strings it accepts.
- **Technical indicators** (`indicators.dfy`, module `Indicators`).
  - The 20- and 50-row rolling means of the close. The Bollinger bands: the
    20-row mean ± 2 × the 20-row sample standard deviation.
  - Each column is a function on `seq<real>` whose rows are `Option<real>`;
    `None` stands for pandas' NaN.
  - A `PriceFrame` object models the DataFrame. The two Python functions are
    its methods, and each changes only the columns it assigns.
- **Cache refresh** (`data_fetch.dfy`, module `DataFetch`).
  - A `StockCache` object holds the `data/` folder as a map from file path to
    stored series. A `MarketSource` object stands for yfinance's `download`:
    a fixed answer per request, plus a log of the requests made.
  - `fetch_stock_data` either serves the stored series or downloads and
    replaces the file.
  - Staleness is decided on the text of dates, so `Before`, a calendar
    order, and `StrLess`, Python's order on `str`, are related by lemmas.

`wrappers.dfy` holds the shared `Option`, `Result` and `Outcome` types.

Where the code and its description disagree, the model follows the code.
- The docstring of `fetch_stock_data` promises to "update only the new data
  points". The code overwrites the whole file with the fresh download, and so
  does the model (`StockCache.FetchStockData`).
- The refresh test compares the last stored date, formatted `YYYY-MM-DD`,
  with the requested end date as strings, not as dates.
  - `CacheHitIffNotBefore` proves the two orders agree for a fully padded end
    date.
  - `UnpaddedEndDateRefetches` and `SpacePaddedEndDateServesStaleData` prove
    they disagree for end dates that `validate_date` accepts.

## Model

| member | source | states |
|---|---|---|
| `Validation.GreedyRun` | stock_data_analyzer/validation.py:12 | the first attempt of `[A-Z]{1,5}` takes at most five capitals from the start of the text, and stops only at the limit, the end, or a non-capital |
| `Validation.EndAnchorAt` | stock_data_analyzer/validation.py:12 | `$` without MULTILINE: at the end of the text or just before one final newline; no contract of its own, used through `BacktrackFromSearches` and `ValidateTickerSpec` |
| `Validation.BacktrackFrom` | stock_data_analyzer/validation.py:12 | the engine giving back one capital at a time until `$` holds; no contract of its own, characterised by `BacktrackFromSearches` |
| `Validation.ValidateTicker` | stock_data_analyzer/validation.py:5-12 | `validate_ticker`: anchored match at position 0, greedy run, then backtracking to `$`; no contract of its own, characterised exactly by `ValidateTickerSpec` |
| `Validation.BacktrackFromSearches` | stock_data_analyzer/validation.py:12 | backtracking from `k` capitals succeeds exactly when, for some count from 1 to `k`, `$` holds after that many characters |
| `Validation.GreedyRunStopsAt` | stock_data_analyzer/validation.py:12 | a run of capitals that ends at the limit, the end, or a non-capital is exactly what the greedy attempt takes |
| `Validation.ValidateTickerSpec` | stock_data_analyzer/validation.py:12 | `validate_ticker` accepts exactly 1 to 5 capitals `A`–`Z`, optionally followed by one final newline |
| `Validation.TickerAcceptedExamples` | stock_data_analyzer/validation.py:12 | "AAPL", "A" and "GOOGL" are accepted |
| `Validation.TickerTrailingNewlineExamples` | stock_data_analyzer/validation.py:12 | "AAPL\n" is accepted and "AAPL\n\n" is rejected |
| `Validation.TickerRejectedExamples` | stock_data_analyzer/validation.py:12 | "", "aapl", "AAPL1", "TOOLONG" and "AAPL " are rejected |
| `Validation.DaysInMonth` | stock_data_analyzer/validation.py:23 | every month has 28 to 31 days, and February has 29 exactly in Gregorian leap years |
| `Validation.IsLeapYear` | stock_data_analyzer/validation.py:23 | the Gregorian leap-year rule `datetime` applies; no contract of its own, exercised by `AcceptsLeapDay2000` and `RejectsLeapDay1900` |
| `Validation.IsCalendarDate` | stock_data_analyzer/validation.py:23-26 | the year, month and day range checks that make `strptime` raise ValueError; no contract of its own, used by `Strptime` and `ValidateDateSpec` |
| `Validation.DecimalValue` | stock_data_analyzer/validation.py:23 | `int()` of a field of ASCII digits; no contract of its own, characterised by `DecimalValueOne`, `DecimalValueTwo` and `DecimalValueFour` |
| `Validation.FieldValue` | stock_data_analyzer/validation.py:23 | `int()` of a captured field, skipping the leading space of a space-padded day; no contract of its own, exercised by `AcceptsSpacePaddedDay` |
| `Validation.MonthAlternatives` | stock_data_analyzer/validation.py:23 | every end the month group can reach is one or two characters on and spans digits only |
| `Validation.DayMatchEnd` | stock_data_analyzer/validation.py:23 | the day group, when it matches, spans one or two characters: digits, or a space and then a digit |
| `Validation.MatchFromMonth` | stock_data_analyzer/validation.py:23 | a match found through the month alternatives has a four-digit year, field-shaped month and day, and ends inside the text |
| `Validation.MatchDatePattern` | stock_data_analyzer/validation.py:23 | a match of the whole date pattern is well formed in the same sense |
| `Validation.Strptime` | stock_data_analyzer/validation.py:23 | a successful parse always yields a real calendar date: year 1–9999, month 1–12, day within its month |
| `Validation.ValidateDate` | stock_data_analyzer/validation.py:22-26 | `validate_date`: true when `Strptime` succeeds, false on its ValueError; no contract of its own, characterised exactly by `ValidateDateSpec` |
| `Validation.MonthAlternativesSound` | stock_data_analyzer/validation.py:23 | every month alternative that matches captures a month field of value 1 to 12 |
| `Validation.MonthAlternativesComplete` | stock_data_analyzer/validation.py:23 | every month field is reached by some month alternative |
| `Validation.DayMatchSound` | stock_data_analyzer/validation.py:23 | whatever day alternative the engine keeps, the captured text is a well-formed day field |
| `Validation.DayMatchComplete` | stock_data_analyzer/validation.py:23 | when the rest of the text is a day field, the day group takes all of it |
| `Validation.MonthEndFollowedByHyphenUnique` | stock_data_analyzer/validation.py:23 | at most one month alternative is followed by `-`, so the parse of a date text is unique |
| `Validation.MatchFromMonthWitness` | stock_data_analyzer/validation.py:23 | a successful month search names the first month end followed by `-` and a day, and the captures it returns |
| `Validation.MatchFromMonthFinds` | stock_data_analyzer/validation.py:23 | the month search succeeds whenever some month end is followed by `-` and a day |
| `Validation.StrptimeSuccess` | stock_data_analyzer/validation.py:23 | a successful parse matched the whole text and converted its three captured fields |
| `Validation.ValidateDateSound` | stock_data_analyzer/validation.py:22-26 | every accepted text is a reference date text |
| `Validation.DateTextMatches` | stock_data_analyzer/validation.py:23 | every reference date text matches the pattern in full, with the month ending at its second `-` |
| `Validation.ValidateDateComplete` | stock_data_analyzer/validation.py:23 | every reference date text is accepted and parsed to the date its fields denote |
| `Validation.ValidateDateSpec` | stock_data_analyzer/validation.py:22-26 | `validate_date` is total and accepts exactly a four-digit year, a one- or two-digit month, and a one- or two-digit or space-padded day forming a real date |
| `Validation.PaddedDateAccepted` | stock_data_analyzer/validation.py:23 | a zero-padded `YYYY-MM-DD` text of a real date parses to that date |
| `Validation.PaddedDateRejected` | stock_data_analyzer/validation.py:23-26 | a zero-padded `YYYY-MM-DD` text whose fields are not a real date is rejected |
| `Validation.FieldsAccepted` | stock_data_analyzer/validation.py:23 | a date text is parsed to the values of its year, month and day fields |
| `Validation.AcceptsPaddedDate` | stock_data_analyzer/validation.py:23 | "2021-01-01" parses to 1 January 2021 |
| `Validation.AcceptsLastDayOfYear` | stock_data_analyzer/validation.py:23 | "2021-12-31" parses to 31 December 2021 |
| `Validation.AcceptsLeapDay2020` | stock_data_analyzer/validation.py:23 | "2020-02-29" is accepted |
| `Validation.AcceptsLeapDay2000` | stock_data_analyzer/validation.py:23 | "2000-02-29" is accepted: 2000 is divisible by 400 |
| `Validation.RejectsLeapDay2021` | stock_data_analyzer/validation.py:23-26 | "2021-02-29" is rejected |
| `Validation.RejectsLeapDay1900` | stock_data_analyzer/validation.py:23-26 | "1900-02-29" is rejected: 1900 is divisible by 100 and not by 400 |
| `Validation.RejectsMonth13` | stock_data_analyzer/validation.py:23-26 | "2021-13-01" is rejected |
| `Validation.RejectsDay32` | stock_data_analyzer/validation.py:23-26 | "2021-01-32" is rejected |
| `Validation.RejectsYearZero` | stock_data_analyzer/validation.py:23-26 | "0000-01-01" matches the pattern but fails the year range check |
| `Validation.RejectsSlashes` | stock_data_analyzer/validation.py:23-26 | "2021/01/01" does not match the format |
| `Validation.RejectsWords` | stock_data_analyzer/validation.py:23-26 | "not-a-date" does not match the format |
| `Validation.RejectsTrailingSpace` | stock_data_analyzer/validation.py:23-26 | "2021-01-01 " fails with the trailing space as unconverted data |
| `Validation.AcceptsOneDigitMonthAndDay` | stock_data_analyzer/validation.py:23 | "2021-1-5" parses to 5 January 2021 |
| `Validation.AcceptsUnpaddedFebruaryFirst` | stock_data_analyzer/validation.py:23 | "2021-2-1" parses to 1 February 2021 |
| `Validation.AcceptsSpacePaddedDay` | stock_data_analyzer/validation.py:23 | "2021-01- 5" parses to 5 January 2021 |
| `Indicators.Product` | stock_data_analyzer/indicators.py:25 | the sign rule of multiplication: a product of two same-signed non-zero numbers is positive, and a zero factor gives zero |
| `Indicators.Square` | stock_data_analyzer/indicators.py:25 | a squared deviation is non-negative and zero only for a zero deviation |
| `Indicators.SquaredDeviations` | stock_data_analyzer/indicators.py:25 | a sum of squared deviations is non-negative |
| `Indicators.SampleVariance` | stock_data_analyzer/indicators.py:25 | the sample variance of a window, dividing by n − 1 as pandas' `std()` does, is non-negative |
| `Indicators.SampleStd` | stock_data_analyzer/indicators.py:25 | the rolling standard deviation is non-negative and squares to the sample variance |
| `Indicators.Window` | stock_data_analyzer/indicators.py:12 | a trailing window has exactly the window's length |
| `Indicators.Sum` | stock_data_analyzer/indicators.py:12 | the sum of a window's closes; no contract of its own, characterised by `SumAppend`, `SumFront`, `SumBounds` and `SumConstant` |
| `Indicators.Mean` | stock_data_analyzer/indicators.py:12-13 | a full window's mean, its sum divided by its length; no contract of its own, characterised by `RollingMeanWithinWindow`, `RollingMeanOfFlatWindow` and `RollingMeanSlides` |
| `Indicators.RollingMean` | stock_data_analyzer/indicators.py:12-13 | a rolling mean has one row per close |
| `Indicators.RollingStd` | stock_data_analyzer/indicators.py:24-27 | the rolling deviation has one row per close, and every defined row is non-negative |
| `Indicators.AddScaled` | stock_data_analyzer/indicators.py:24-27 | adding a scaled column to an aligned column keeps the row count |
| `Indicators.UpperBand` | stock_data_analyzer/indicators.py:24-25 | the upper band has one row per close |
| `Indicators.LowerBand` | stock_data_analyzer/indicators.py:26-27 | the lower band has one row per close |
| `Indicators.RollingMeanDefinedFrom` | stock_data_analyzer/indicators.py:12-13 | a `w`-row rolling mean has a value exactly from row `w − 1` on |
| `Indicators.SumAppend` | stock_data_analyzer/indicators.py:12 | adding a close at the end of a window adds it to the sum |
| `Indicators.SumFront` | stock_data_analyzer/indicators.py:12 | a window's sum is its first close plus the sum of the rest |
| `Indicators.SumBounds` | stock_data_analyzer/indicators.py:12 | n values between `lo` and `hi` sum to between n·lo and n·hi |
| `Indicators.SumConstant` | stock_data_analyzer/indicators.py:12 | n equal values sum to n times the value |
| `Indicators.DivideBounds` | stock_data_analyzer/indicators.py:12 | dividing by a positive count keeps a bound |
| `Indicators.RollingMeanWithinWindow` | stock_data_analyzer/indicators.py:12-13 | every defined moving average lies between the smallest and the largest close of its window |
| `Indicators.RollingMeanOfFlatWindow` | stock_data_analyzer/indicators.py:12-13 | over a run of equal closes the moving average equals that close |
| `Indicators.RollingMeanSlides` | stock_data_analyzer/indicators.py:12-13 | from one row to the next, w·SMA grows by the new close and loses the close that left the window |
| `Indicators.SquaredDeviationsZero` | stock_data_analyzer/indicators.py:25 | the squared deviations sum to zero exactly when every value equals the centre |
| `Indicators.SampleVarianceZero` | stock_data_analyzer/indicators.py:25 | the sample variance is zero exactly when all values of the window are equal |
| `Indicators.BandsDefinedWithAverage` | stock_data_analyzer/indicators.py:24-27 | both bands have a value at exactly the rows where SMA_20 has one, which are the rows from 19 on |
| `Indicators.BandsSymmetric` | stock_data_analyzer/indicators.py:24-27 | at every defined row, BB_upper − SMA_20 = SMA_20 − BB_lower = 2 × the window's sample deviation |
| `Indicators.BandsBracketAverage` | stock_data_analyzer/indicators.py:24-27 | BB_lower ≤ SMA_20 ≤ BB_upper, and the bands meet exactly when the window's twenty closes are all equal |
| `Indicators.ShortSeriesHasNoIndicators` | stock_data_analyzer/indicators.py:12-27 | with fewer than 20 rows SMA_20 and both bands have no value at all, and with fewer than 50 rows SMA_50 has none |
| `Indicators.PriceFrame.CalculateMovingAverages` | stock_data_analyzer/indicators.py:5-14 | sets SMA_20 and SMA_50 to the 20- and 50-row rolling means; every other column and the closes stay as they were |
| `Indicators.PriceFrame.CalculateBollingerBands` | stock_data_analyzer/indicators.py:17-28 | without SMA_20 it raises KeyError and changes nothing; otherwise it sets BB_upper and BB_lower from the SMA_20 column it finds and changes nothing else |
| `Indicators.ComputeIndicators` | main.py:34-35 | after averages then bands, all four columns exist, SMA_20 and SMA_50 are the 20- and 50-row rolling means, BB_upper and BB_lower are the upper and lower bands of the 20-row rolling mean, BB_lower ≤ SMA_20 ≤ BB_upper from row 19 on, and every other column is untouched |
| `DataFetch.Pow10` | stock_data_analyzer/data_fetch.py:51 | a power of ten is at least 1 |
| `DataFetch.LastDate` | stock_data_analyzer/data_fetch.py:51 | `data.index[-1]`, the last row's date of a non-empty stored series; no contract of its own beyond its type `Date`; the empty series is the IndexError branch of `LoadExistingData` |
| `DataFetch.DigitChar` | stock_data_analyzer/data_fetch.py:51 | the character written for a digit is an ASCII digit that reads back as that digit |
| `DataFetch.Digits` | stock_data_analyzer/data_fetch.py:51 | a zero-padded field has exactly its width, all digits |
| `DataFetch.DigitsValue` | stock_data_analyzer/data_fetch.py:51 | reading a zero-padded field back gives the number, when it fits the width |
| `DataFetch.FormatDate` | stock_data_analyzer/data_fetch.py:51 | `strftime('%Y-%m-%d')` of an index date has ten characters with `-` at positions 4 and 7 |
| `DataFetch.FormatDateParses` | stock_data_analyzer/data_fetch.py:51 | the formatted last date is accepted by `validate_date` and parses back to the same day |
| `DataFetch.StrLessAt` | stock_data_analyzer/data_fetch.py:53 | two strings compare as their first differing characters |
| `DataFetch.StrLess` | stock_data_analyzer/data_fetch.py:53 | Python's `<` on `str`: code-point order at the first difference, a proper prefix first; no contract of its own, characterised by `StrLessAt`, `StrLessConcat` and `FormatDateOrder` |
| `DataFetch.StrLessConcat` | stock_data_analyzer/data_fetch.py:53 | concatenations whose first parts have equal length compare first on those parts, then on the rest |
| `DataFetch.DigitCharOrder` | stock_data_analyzer/data_fetch.py:53 | digit characters are ordered and distinct as their digits are |
| `DataFetch.LastDigitOrder` | stock_data_analyzer/data_fetch.py:53 | numbers compare as their quotient by ten, then their last digit |
| `DataFetch.DigitsOrder` | stock_data_analyzer/data_fetch.py:53 | zero-padded numbers of one width compare as strings exactly as they do as numbers |
| `DataFetch.FormatDateOrder` | stock_data_analyzer/data_fetch.py:51-53 | two formatted dates compare as strings exactly as the dates compare in time |
| `DataFetch.GetFilePath` | stock_data_analyzer/data_fetch.py:25-38 | the cache path is `data/` + ticker + `_stock_data.csv` |
| `DataFetch.TickerOfPathInverse` | stock_data_analyzer/data_fetch.py:37 | the ticker can be read back from its cache path |
| `DataFetch.GetFilePathInjective` | stock_data_analyzer/data_fetch.py:37 | two tickers share a cache file exactly when they are the same ticker |
| `DataFetch.LoadExistingData` | stock_data_analyzer/data_fetch.py:41-58 | no file gives nothing; an empty file raises IndexError; otherwise nothing when the formatted last date is below the end date in string order, and else the stored series itself, with no filtering by start date |
| `DataFetch.CacheHitIffNotBefore` | stock_data_analyzer/data_fetch.py:51-56 | for a fully padded end date, the stored series is served exactly when its last date is not before the end date, and dropped exactly when it is |
| `DataFetch.UnpaddedEndDateRefetches` | stock_data_analyzer/data_fetch.py:51-53 | with a stored series ending 2021-12-31, the accepted end date "2021-2-1" forces a download although 1 February comes earlier |
| `DataFetch.SpacePaddedEndDateServesStaleData` | stock_data_analyzer/data_fetch.py:51-56 | with a stored series ending 2021-01-01, the accepted end date "2021-01- 5" serves the stored series although it stops four days short |
| `DataFetch.DigitsOf2021` | stock_data_analyzer/data_fetch.py:51 | the year 2021 is written "2021" |
| `DataFetch.FormatDecember31` | stock_data_analyzer/data_fetch.py:51 | 31 December 2021 is written "2021-12-31" |
| `DataFetch.FormatJanuary1` | stock_data_analyzer/data_fetch.py:51 | 1 January 2021 is written "2021-01-01" |
| `DataFetch.FormatDateText` | stock_data_analyzer/data_fetch.py:51 | a date is written as the three zero-padded fields joined by `-` |
| `DataFetch.ExclusiveEndNeverHits` | stock_data_analyzer/data_fetch.py:51-72 | when every downloaded row precedes a padded end date, as yfinance's exclusive end gives, the next call with that end date downloads again, or raises IndexError if the download was empty |
| `DataFetch.MarketSource.Download` | stock_data_analyzer/data_fetch.py:71 | a download logs its request and returns the provider's answer for it |
| `DataFetch.StockCache.FetchAndSaveData` | stock_data_analyzer/data_fetch.py:61-73 | one download is made; its series replaces whatever the path held and is returned; every other path is unchanged |
| `DataFetch.StockCache.FetchStockData` | stock_data_analyzer/data_fetch.py:6-22 | an IndexError passes through and a hit returns the stored series, both without a download or any change to the files; a miss makes one download, returns it, and stores it over the ticker's file with no merge; after success the ticker's file holds what was returned; other tickers' files are never touched |

## Left out

- The window, widgets, event loop and figure sizing in main.py are GUI code and are not modelled. Its only logic, validating before fetching (main.py:25-31), is covered by the validation model.
- stock_data_analyzer/plotting.py is not part of this model. It draws with matplotlib and calls statsmodels' `seasonal_decompose`, with nothing in it to check.
- The network side of `yf.download` is outside the model. A `MarketSource` returns a fixed series per request. yfinance reports failures as an empty table, so a download never raises here.
- Writing the CSV (`to_csv`) and reading it back (`pd.read_csv` with date parsing) are not modelled. The file system is a map from path to series, and a series written is the series read back.
- `os.makedirs` for the `data` folder is a file-system side effect with nothing to prove, and is left out.
- `DataFetch.LoadExistingData`: a file with no rows raises IndexError, as `data.index[-1]` does on a header-only CSV. A zero-byte file, where `read_csv` raises its own error first, is not distinguished.
- `DataFetch.FormatDate`: index dates have years 1000 to 9999, the four-digit years within pandas' timestamp range (1677 to 2262). `strftime` padding of earlier years is not modelled.
- Floating-point rounding is not modelled. Closes are exact reals and every close is present. A NaN close and its propagation through pandas' rolling windows are out of scope.
- `Indicators.SampleStd`: Dafny's reals have no square root. The square root is a parameter `sqrt` that must satisfy `IsSqrt`: non-negative, and squaring back to its argument.
- `Indicators.PriceFrame.CalculateMovingAverages`: the Python functions also return the same DataFrame they updated. The methods update the frame in place and return nothing, since that return value is the caller's own object.
- `Validation.Strptime`: `\d` is taken as ASCII `0`–`9`. CPython's `re` also matches other Unicode decimal digits, and `int()` accepts them. The `%Y`, `%m` and `%d` patterns are case- and locale-independent, so nothing else is lost.
