/**
 * The per-ticker CSV cache of stock_data_analyzer/data_fetch.py.
 *
 * The `data/` folder is a map from file path to the series stored there,
 * held in a `StockCache` object whose methods read it or replace one entry.
 * The market data provider (yfinance's `download`) is a `MarketSource`: a
 * fixed answer for each request, and a log of the requests made. A stored
 * series is the frame `pd.read_csv` gives back, one `Row` per trading day
 * with its date as the index.
 */
module DataFetch {
  import opened Wrappers
  import Validation

  // ---------------------------------------------------------------------
  // Dates as the index holds them
  // ---------------------------------------------------------------------

  datatype RawDate = RawDate(year: int, month: int, day: int)

  /**
   * A calendar day a pandas timestamp can hold. pandas' timestamps span the
   * years 1677 to 2262, so every year has four digits.
   */
  type Date = d: RawDate | 1000 <= d.year && Validation.IsCalendarDate(d.year, d.month, d.day)
    witness RawDate(2000, 1, 1)

  /** Chronological order: by year, then month, then day. */
  predicate Before(a: RawDate, b: RawDate) {
    || a.year < b.year
    || (a.year == b.year && a.month < b.month)
    || (a.year == b.year && a.month == b.month && a.day < b.day)
  }

  /** One row of a downloaded price table, indexed by its trading day. */
  datatype Row = Row(date: Date, open: real, high: real, low: real, close: real, adjClose: real, volume: int)

  type Series = seq<Row>

  /** `data.index[-1]`, for a series that has a last row. */
  function LastDate(s: Series): Date
    requires |s| > 0
  {
    s[|s| - 1].date
  }

  // ---------------------------------------------------------------------
  // strftime('%Y-%m-%d')
  // ---------------------------------------------------------------------

  function Pow10(n: nat): (p: nat)
    ensures p >= 1
  {
    if n == 0 then 1 else 10 * Pow10(n - 1)
  }

  function DigitChar(v: nat): (c: char)
    requires v <= 9
    ensures Validation.IsDigit(c) && Validation.DigitValue(c) == v
  {
    ('0' as int + v) as char
  }

  /** The last `width` decimal digits of `n`, zero-padded on the left. */
  function Digits(n: nat, width: nat): (s: string)
    ensures |s| == width && Validation.AllDigits(s)
  {
    if width == 0 then "" else Digits(n / 10, width - 1) + [DigitChar(n % 10)]
  }

  /** Reading the digits back gives the number, when it fits the width. */
  lemma {:induction false} DigitsValue(n: nat, width: nat)
    requires n < Pow10(width)
    ensures Validation.DecimalValue(Digits(n, width)) == n
  {
    if width > 0 {
      DigitsValue(n / 10, width - 1);
      var s := Digits(n, width);
      assert s[..|s| - 1] == Digits(n / 10, width - 1);
    }
  }

  /** `strftime('%Y-%m-%d')` of an index date. */
  function FormatDate(d: Date): (s: string)
    ensures |s| == 10 && s[4] == '-' && s[7] == '-'
  {
    Digits(d.year, 4) + "-" + Digits(d.month, 2) + "-" + Digits(d.day, 2)
  }

  /** The formatted date is a text `validate_date` accepts, and it parses back to the same day. */
  lemma FormatDateParses(d: Date)
    ensures Validation.Strptime(FormatDate(d)) == Success(Validation.CivilDate(d.year, d.month, d.day))
  {
    var s := FormatDate(d);
    assert s[..4] == Digits(d.year, 4) && s[5..7] == Digits(d.month, 2) && s[8..] == Digits(d.day, 2);
    DigitsValue(d.year, 4);
    DigitsValue(d.month, 2);
    DigitsValue(d.day, 2);
    Validation.PaddedDateAccepted(s, d.year, d.month, d.day);
  }

  // ---------------------------------------------------------------------
  // Python's order on str
  // ---------------------------------------------------------------------

  /** `a < b` on Python strings: the first differing character decides, and a proper prefix comes first. */
  predicate StrLess(a: string, b: string) {
    if |a| == 0 then |b| > 0
    else if |b| == 0 then false
    else if a[0] != b[0] then a[0] < b[0]
    else StrLess(a[1..], b[1..])
  }

  /** Where two strings first differ, that character decides. */
  lemma {:induction false} StrLessAt(a: string, b: string, k: nat)
    requires k < |a| && k < |b| && a[..k] == b[..k] && a[k] != b[k]
    ensures StrLess(a, b) <==> a[k] < b[k]
  {
    if k > 0 {
      assert a[0] == a[..k][0] && b[0] == b[..k][0];
      assert a[1..][..k - 1] == a[..k][1..] && b[1..][..k - 1] == b[..k][1..];
      StrLessAt(a[1..], b[1..], k - 1);
    }
  }

  /** Comparing two concatenations whose first parts have equal length. */
  lemma {:induction false} StrLessConcat(p1: string, q1: string, p2: string, q2: string)
    requires |p1| == |p2|
    ensures StrLess(p1 + q1, p2 + q2) <==> StrLess(p1, p2) || (p1 == p2 && StrLess(q1, q2))
  {
    if |p1| == 0 {
      assert p1 + q1 == q1 && p2 + q2 == q2;
    } else {
      assert (p1 + q1)[0] == p1[0] && (p2 + q2)[0] == p2[0];
      assert (p1 + q1)[1..] == p1[1..] + q1 && (p2 + q2)[1..] == p2[1..] + q2;
      StrLessConcat(p1[1..], q1, p2[1..], q2);
      assert p1 == [p1[0]] + p1[1..] && p2 == [p2[0]] + p2[1..];
    }
  }

  lemma DigitCharOrder(x: nat, y: nat)
    requires x <= 9 && y <= 9
    ensures DigitChar(x) < DigitChar(y) <==> x < y
    ensures DigitChar(x) == DigitChar(y) <==> x == y
  {
  }

  /** Numbers compare as their quotient by ten, then their last digit. */
  lemma LastDigitOrder(x: nat, y: nat)
    ensures x < y <==> x / 10 < y / 10 || (x / 10 == y / 10 && x % 10 < y % 10)
    ensures x == y <==> x / 10 == y / 10 && x % 10 == y % 10
  {
    assert x == 10 * (x / 10) + x % 10;
    assert y == 10 * (y / 10) + y % 10;
  }

  /** Zero-padded numbers of one width compare as strings as they do as numbers. */
  lemma {:induction false} DigitsOrder(x: nat, y: nat, width: nat)
    requires x < Pow10(width) && y < Pow10(width)
    ensures StrLess(Digits(x, width), Digits(y, width)) <==> x < y
    ensures Digits(x, width) == Digits(y, width) <==> x == y
  {
    if width == 0 {
    } else {
      DigitsOrder(x / 10, y / 10, width - 1);
      StrLessConcat(Digits(x / 10, width - 1), [DigitChar(x % 10)], Digits(y / 10, width - 1), [DigitChar(y % 10)]);
      DigitCharOrder(x % 10, y % 10);
      assert StrLess([DigitChar(x % 10)], [DigitChar(y % 10)]) <==> x % 10 < y % 10;
      LastDigitOrder(x, y);
      if Digits(x, width) == Digits(y, width) {
        DigitsValue(x, width);
        DigitsValue(y, width);
      }
    }
  }

  /** For dates written in full `YYYY-MM-DD`, string order is date order. */
  lemma FormatDateOrder(d1: Date, d2: Date)
    ensures StrLess(FormatDate(d1), FormatDate(d2)) <==> Before(d1, d2)
  {
    var y1, m1, e1 := Digits(d1.year, 4), Digits(d1.month, 2), Digits(d1.day, 2);
    var y2, m2, e2 := Digits(d2.year, 4), Digits(d2.month, 2), Digits(d2.day, 2);
    assert FormatDate(d1) == y1 + ("-" + (m1 + ("-" + e1)));
    assert FormatDate(d2) == y2 + ("-" + (m2 + ("-" + e2)));
    DigitsOrder(d1.year, d2.year, 4);
    DigitsOrder(d1.month, d2.month, 2);
    DigitsOrder(d1.day, d2.day, 2);
    assert !StrLess("-", "-");
    StrLessConcat(y1, "-" + (m1 + ("-" + e1)), y2, "-" + (m2 + ("-" + e2)));
    StrLessConcat("-", m1 + ("-" + e1), "-", m2 + ("-" + e2));
    StrLessConcat(m1, "-" + e1, m2, "-" + e2);
    StrLessConcat("-", e1, "-", e2);
  }

  // ---------------------------------------------------------------------
  // File paths
  // ---------------------------------------------------------------------

  const DataFolder := "data"
  const FileSuffix := "_stock_data.csv"

  /** get_file_path: `data/<ticker>_stock_data.csv`. */
  function GetFilePath(ticker: string): (path: string)
    ensures |path| == |ticker| + 20
    ensures path[..5] == DataFolder + "/" && path[|path| - 15..] == FileSuffix
  {
    DataFolder + "/" + ticker + FileSuffix
  }

  /** The ticker named by a cache path. */
  function TickerOfPath(path: string): string
    requires |path| >= 20
  {
    path[5..|path| - 15]
  }

  lemma TickerOfPathInverse(ticker: string)
    ensures TickerOfPath(GetFilePath(ticker)) == ticker
  {
    var path := GetFilePath(ticker);
    assert path == (DataFolder + "/") + ticker + FileSuffix;
  }

  /** Different tickers are cached in different files. */
  lemma GetFilePathInjective(t1: string, t2: string)
    ensures GetFilePath(t1) == GetFilePath(t2) <==> t1 == t2
  {
    TickerOfPathInverse(t1);
    TickerOfPathInverse(t2);
  }

  // ---------------------------------------------------------------------
  // load_existing_data
  // ---------------------------------------------------------------------

  /** An exception `fetch_stock_data` lets through. */
  datatype FetchError =
    /** `data.index[-1]` on a stored file with no rows. */
    IndexError(path: string)

  /**
   * load_existing_data: nothing when no file is stored at `path`; the stored
   * series when its last date, written `YYYY-MM-DD`, is not below `endDate`
   * in string order; nothing when it is.
   */
  function LoadExistingData(files: map<string, Series>, path: string, endDate: string): (r: Result<Option<Series>, FetchError>)
    ensures path !in files ==> r == Success(None)
    ensures path in files && |files[path]| == 0 ==> r == Failure(IndexError(path))
    ensures path in files && |files[path]| > 0 ==>
              && r.Success?
              && (r.value.None? <==> StrLess(FormatDate(LastDate(files[path])), endDate))
    ensures r.Success? && r.value.Some? ==> path in files && r.value.value == files[path]
  {
    if path !in files then Success(None)
    else
      var data := files[path];
      if |data| == 0 then Failure(IndexError(path))
      else if StrLess(FormatDate(LastDate(data)), endDate) then Success(None)
      else Success(Some(data))
  }

  /**
   * With an end date written in full `YYYY-MM-DD`, the stored series is
   * served exactly when it reaches that date.
   */
  lemma CacheHitIffNotBefore(files: map<string, Series>, path: string, endDate: Date)
    requires path in files && |files[path]| > 0
    ensures var served := LoadExistingData(files, path, FormatDate(endDate));
            && (served == Success(Some(files[path])) <==> !Before(LastDate(files[path]), endDate))
            && (served == Success(None) <==> Before(LastDate(files[path]), endDate))
  {
    FormatDateOrder(LastDate(files[path]), endDate);
  }

  lemma DigitsOf2021()
    ensures Digits(2021, 4) == "2021"
  {
    assert Digits(2, 1) == "2";
    assert Digits(20, 2) == "20";
    assert Digits(202, 3) == "202";
  }

  lemma FormatDecember31()
    ensures FormatDate(RawDate(2021, 12, 31)) == "2021-12-31"
  {
    DigitsOf2021();
    assert Digits(1, 1) == "1" && Digits(3, 1) == "3";
    assert Digits(12, 2) == "12" && Digits(31, 2) == "31";
    FormatDateText(RawDate(2021, 12, 31), "2021-12-31");
  }

  lemma FormatJanuary1()
    ensures FormatDate(RawDate(2021, 1, 1)) == "2021-01-01"
  {
    DigitsOf2021();
    assert Digits(0, 1) == "0";
    assert Digits(1, 2) == "01";
    FormatDateText(RawDate(2021, 1, 1), "2021-01-01");
  }

  /**
   * An unpadded end date that `validate_date` accepts compares below a
   * stored December date, so the stored series is dropped although it
   * reaches past that end date.
   */
  lemma UnpaddedEndDateRefetches(files: map<string, Series>, path: string)
    requires path in files && |files[path]| > 0 && LastDate(files[path]) == RawDate(2021, 12, 31)
    ensures Validation.Strptime("2021-2-1") == Success(Validation.CivilDate(2021, 2, 1))
    ensures Before(RawDate(2021, 2, 1), LastDate(files[path]))
    ensures LoadExistingData(files, path, "2021-2-1") == Success(None)
  {
    Validation.AcceptsUnpaddedFebruaryFirst();
    FormatDecember31();
    var last, end := "2021-12-31", "2021-2-1";
    assert last[..5] == end[..5];
    StrLessAt(last, end, 5);
  }

  /**
   * A space-padded end day that `validate_date` accepts compares above the
   * stored padded day, so a series that stops before the end date is served
   * as up to date.
   */
  lemma SpacePaddedEndDateServesStaleData(files: map<string, Series>, path: string)
    requires path in files && |files[path]| > 0 && LastDate(files[path]) == RawDate(2021, 1, 1)
    ensures Validation.Strptime("2021-01- 5") == Success(Validation.CivilDate(2021, 1, 5))
    ensures Before(LastDate(files[path]), RawDate(2021, 1, 5))
    ensures LoadExistingData(files, path, "2021-01- 5") == Success(Some(files[path]))
  {
    Validation.AcceptsSpacePaddedDay();
    FormatJanuary1();
    var last, end := "2021-01-01", "2021-01- 5";
    assert last[..8] == end[..8];
    StrLessAt(last, end, 8);
  }

  /** The formatted text of a date, checked digit by digit. */
  lemma FormatDateText(d: Date, text: string)
    requires |text| == 10 && text[4] == '-' && text[7] == '-'
    requires text[..4] == Digits(d.year, 4) && text[5..7] == Digits(d.month, 2) && text[8..] == Digits(d.day, 2)
    ensures FormatDate(d) == text
  {
    var s := FormatDate(d);
    assert s[..4] == text[..4] && s[5..7] == text[5..7] && s[8..] == text[8..];
    assert forall i | 0 <= i < 10 :: s[i] == text[i] by {
      forall i | 0 <= i < 10 ensures s[i] == text[i] {
        if i < 4 {
          assert s[i] == s[..4][i];
        } else if 5 <= i < 7 {
          assert s[i] == s[5..7][i - 5] && text[i] == text[5..7][i - 5];
        } else if 8 <= i {
          assert s[i] == s[8..][i - 8] && text[i] == text[8..][i - 8];
        }
      }
    }
  }

  /**
   * yfinance treats the end date as exclusive. A download whose rows all
   * precede a fully written end date is stale again at once: the next call
   * with the same end date downloads again.
   */
  lemma ExclusiveEndNeverHits(files: map<string, Series>, path: string, data: Series, endDate: Date)
    requires forall k | 0 <= k < |data| :: Before(data[k].date, endDate)
    ensures |data| == 0 ==> LoadExistingData(files[path := data], path, FormatDate(endDate)) == Failure(IndexError(path))
    ensures |data| > 0 ==> LoadExistingData(files[path := data], path, FormatDate(endDate)) == Success(None)
  {
    if |data| > 0 {
      CacheHitIffNotBefore(files[path := data], path, endDate);
    }
  }

  // ---------------------------------------------------------------------
  // The market data provider and the cache
  // ---------------------------------------------------------------------

  /** The arguments of one `yf.download(ticker, start=..., end=...)` call. */
  datatype Request = Request(ticker: string, start: string, end: string)

  /**
   * The market data provider: the series it returns for each request, and
   * the requests made so far. yfinance reports a failed download as an
   * empty table, so every request yields a series.
   */
  class MarketSource {
    const answer: Request -> Series
    var requests: seq<Request>

    constructor (answer: Request -> Series)
      ensures this.answer == answer && requests == []
    {
      this.answer := answer;
      requests := [];
    }

    /** yf.download: records the request and returns the provider's series. */
    method Download(ticker: string, start: string, end: string) returns (data: Series)
      modifies this`requests
      ensures requests == old(requests) + [Request(ticker, start, end)]
      ensures data == answer(Request(ticker, start, end))
    {
      requests := requests + [Request(ticker, start, end)];
      data := answer(Request(ticker, start, end));
    }
  }

  /** The `data/` folder: the series stored under each file path. */
  class StockCache {
    var files: map<string, Series>

    constructor (files: map<string, Series>)
      ensures this.files == files
    {
      this.files := files;
    }

    /** fetch_and_save_data: downloads and writes the result over whatever `path` held. */
    method FetchAndSaveData(ticker: string, start: string, end: string, path: string, source: MarketSource)
      returns (data: Series)
      modifies this`files, source`requests
      ensures source.requests == old(source.requests) + [Request(ticker, start, end)]
      ensures data == source.answer(Request(ticker, start, end))
      ensures files == old(files)[path := data]
    {
      data := source.Download(ticker, start, end);
      files := files[path := data];
    }

    /**
     * fetch_stock_data: serves the stored series when load_existing_data
     * finds it up to date; otherwise downloads and replaces the ticker's
     * file, with no merge of the rows it held. Other tickers' files are
     * never touched.
     */
    method FetchStockData(ticker: string, start: string, end: string, source: MarketSource)
      returns (r: Result<Series, FetchError>)
      modifies this`files, source`requests
      ensures var loaded := LoadExistingData(old(files), GetFilePath(ticker), end);
              && (loaded.Failure? ==>
                    r == Failure(loaded.error) && files == old(files) && source.requests == old(source.requests))
              && (loaded.Success? && loaded.value.Some? ==>
                    r == Success(loaded.value.value) && files == old(files) && source.requests == old(source.requests))
              && (loaded == Success(None) ==>
                    var request := Request(ticker, start, end);
                    && source.requests == old(source.requests) + [request]
                    && r == Success(source.answer(request))
                    && files == old(files)[GetFilePath(ticker) := source.answer(request)])
      ensures r.Success? ==> GetFilePath(ticker) in files && files[GetFilePath(ticker)] == r.value
      ensures forall other: string | other != ticker ::
                && (GetFilePath(other) in files <==> GetFilePath(other) in old(files))
                && (GetFilePath(other) in files ==> files[GetFilePath(other)] == old(files)[GetFilePath(other)])
    {
      var path := GetFilePath(ticker);
      var loaded := LoadExistingData(files, path, end);
      if loaded.Failure? {
        return Failure(loaded.error);
      }
      var data := loaded.value;
      if data.None? {
        var fetched := FetchAndSaveData(ticker, start, end, path, source);
        data := Some(fetched);
      }
      r := Success(data.value);
      forall other: string | other != ticker
        ensures GetFilePath(other) != path
      {
        GetFilePathInjective(other, ticker);
      }
    }
  }
}
