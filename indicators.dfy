/**
 * Technical indicators (stock_data_analyzer/indicators.py): the 20- and
 * 50-row simple moving averages of the closing price and the Bollinger bands
 * around the 20-row average.
 *
 * Column values are functions on the closing prices, taken as reals with
 * every close present; a row with no value is `None` (pandas' NaN). The two
 * Python functions add columns to the caller's DataFrame in place; they are
 * methods of `PriceFrame` that change only its named columns.
 */
module Indicators {
  import opened Wrappers

  /** Window lengths and band width used by indicators.py. */
  const ShortWindow: nat := 20
  const LongWindow: nat := 50
  const BandWidth: real := 2.0

  /** Column names. */
  const Sma20Column := "SMA_20"
  const Sma50Column := "SMA_50"
  const UpperBandColumn := "BB_upper"
  const LowerBandColumn := "BB_lower"

  // ---------------------------------------------------------------------
  // Window statistics
  // ---------------------------------------------------------------------

  function Sum(s: seq<real>): real {
    if |s| == 0 then 0.0 else Sum(s[..|s| - 1]) + s[|s| - 1]
  }

  function Mean(s: seq<real>): real
    requires |s| > 0
  {
    Sum(s) / (|s| as real)
  }

  /**
   * The sign rule of multiplication. `Product` and `Square` exist so that the
   * solver can show a square is non-negative: it does not reliably derive
   * that from `x * x` written out.
   */
  function Product(a: real, b: real): (r: real)
    ensures a > 0.0 && b > 0.0 ==> r > 0.0
    ensures a < 0.0 && b < 0.0 ==> r > 0.0
    ensures a == 0.0 || b == 0.0 ==> r == 0.0
  {
    a * b
  }

  /** A square is non-negative, and zero only for zero. */
  function Square(x: real): (r: real)
    ensures r >= 0.0
    ensures r == 0.0 <==> x == 0.0
  {
    Product(x, x)
  }

  /** The sum of squared deviations of `s` from `m`. */
  function SquaredDeviations(s: seq<real>, m: real): (r: real)
    ensures r >= 0.0
  {
    if |s| == 0 then 0.0
    else
      SquaredDeviations(s[..|s| - 1], m) + Square(s[|s| - 1] - m)
  }

  /** pandas' `std()` default: the sample variance, dividing by n - 1. */
  function SampleVariance(s: seq<real>): (v: real)
    requires |s| >= 2
    ensures v >= 0.0
  {
    SquaredDeviations(s, Mean(s)) / ((|s| - 1) as real)
  }

  /**
   * A square-root routine: for each non-negative number, the non-negative
   * number whose square it is. The square root is taken as a parameter
   * because Dafny's reals have none.
   */
  ghost predicate IsSqrt(sqrt: real -> real) {
    forall v: real :: v >= 0.0 ==> sqrt(v) >= 0.0 && Square(sqrt(v)) == v
  }

  function SampleStd(s: seq<real>, sqrt: real -> real): (d: real)
    requires |s| >= 2 && IsSqrt(sqrt)
    ensures d >= 0.0 && Square(d) == SampleVariance(s)
  {
    sqrt(SampleVariance(s))
  }

  /** The `w` closes ending at row `i`. */
  function Window(close: seq<real>, i: nat, w: nat): (win: seq<real>)
    requires w <= i + 1 <= |close|
    ensures |win| == w
  {
    close[i + 1 - w..i + 1]
  }

  // ---------------------------------------------------------------------
  // Columns
  // ---------------------------------------------------------------------

  /** `close.rolling(window=w).mean()`: no value until `w` rows are available, then the trailing mean. */
  function RollingMean(close: seq<real>, w: nat): (r: seq<Option<real>>)
    requires w >= 1
    ensures |r| == |close|
  {
    seq(|close|, i requires 0 <= i < |close| =>
      if i + 1 < w then None else Some(Mean(Window(close, i, w))))
  }

  /** `close.rolling(window=w).std()`: no value until `w` rows are available, then the sample deviation. */
  function RollingStd(close: seq<real>, w: nat, sqrt: real -> real): (r: seq<Option<real>>)
    requires w >= 2 && IsSqrt(sqrt)
    ensures |r| == |close|
    ensures forall i | 0 <= i < |r| && r[i].Some? :: r[i].value >= 0.0
  {
    seq(|close|, i requires 0 <= i < |close| =>
      if i + 1 < w then None else Some(SampleStd(Window(close, i, w), sqrt)))
  }

  /** `a + k * b` on two aligned columns; a row missing on either side has no value, as NaN propagates. */
  function AddScaled(a: seq<Option<real>>, k: real, b: seq<Option<real>>): (r: seq<Option<real>>)
    requires |a| == |b|
    ensures |r| == |a|
  {
    seq(|a|, i requires 0 <= i < |a| =>
      if a[i].Some? && b[i].Some? then Some(a[i].value + k * b[i].value) else None)
  }

  /**
   * The upper band: the 20-row average plus twice the 20-row sample standard
   * deviation of the closing price; no value where either side has none.
   */
  function UpperBand(sma: seq<Option<real>>, close: seq<real>, sqrt: real -> real): (r: seq<Option<real>>)
    requires |sma| == |close| && IsSqrt(sqrt)
    ensures |r| == |close|
  {
    AddScaled(sma, BandWidth, RollingStd(close, ShortWindow, sqrt))
  }

  /**
   * The lower band: the 20-row average minus twice the 20-row sample standard
   * deviation of the closing price; no value where either side has none.
   */
  function LowerBand(sma: seq<Option<real>>, close: seq<real>, sqrt: real -> real): (r: seq<Option<real>>)
    requires |sma| == |close| && IsSqrt(sqrt)
    ensures |r| == |close|
  {
    AddScaled(sma, -BandWidth, RollingStd(close, ShortWindow, sqrt))
  }

  // ---------------------------------------------------------------------
  // Properties of the columns
  // ---------------------------------------------------------------------

  /** A rolling mean has no value in exactly the first `w - 1` rows. */
  lemma RollingMeanDefinedFrom(close: seq<real>, w: nat, i: nat)
    requires w >= 1 && i < |close|
    ensures RollingMean(close, w)[i].Some? <==> i >= w - 1
  {
  }

  lemma {:induction false} SumAppend(s: seq<real>, x: real)
    ensures Sum(s + [x]) == Sum(s) + x
  {
    assert (s + [x])[..|s|] == s;
  }

  /** Taking the first element off a sum. */
  lemma {:induction false} SumFront(s: seq<real>)
    requires |s| > 0
    ensures Sum(s) == s[0] + Sum(s[1..])
  {
    if |s| > 1 {
      SumFront(s[..|s| - 1]);
      assert s[..|s| - 1][1..] == s[1..][..|s| - 2];
    }
  }

  /** A sum of values between `lo` and `hi` lies between n * lo and n * hi. */
  lemma {:induction false} SumBounds(s: seq<real>, lo: real, hi: real)
    requires forall j | 0 <= j < |s| :: lo <= s[j] <= hi
    ensures (|s| as real) * lo <= Sum(s) <= (|s| as real) * hi
  {
    if |s| > 0 {
      SumBounds(s[..|s| - 1], lo, hi);
    }
  }

  /** A sum of `n` copies of `v` is n * v. */
  lemma {:induction false} SumConstant(s: seq<real>, v: real)
    requires forall j | 0 <= j < |s| :: s[j] == v
    ensures Sum(s) == (|s| as real) * v
  {
    if |s| > 0 {
      SumConstant(s[..|s| - 1], v);
    }
  }

  /** Dividing by a positive count keeps a bound: n * lo <= x <= n * hi gives lo <= x / n <= hi. */
  lemma DivideBounds(x: real, n: real, lo: real, hi: real)
    requires n > 0.0 && n * lo <= x <= n * hi
    ensures lo <= x / n <= hi
  {
    var q := x / n;
    assert q * n == x;
    assert (q - lo) * n >= 0.0 && (hi - q) * n >= 0.0;
  }

  /** Every defined moving average lies between the smallest and the largest close of its window. */
  lemma RollingMeanWithinWindow(close: seq<real>, w: nat, i: nat, lo: real, hi: real)
    requires w >= 1 && w - 1 <= i < |close|
    requires forall j | i + 1 - w <= j <= i :: lo <= close[j] <= hi
    ensures RollingMean(close, w)[i].Some?
    ensures lo <= RollingMean(close, w)[i].value <= hi
  {
    var win := Window(close, i, w);
    SumBounds(win, lo, hi);
    DivideBounds(Sum(win), w as real, lo, hi);
  }

  /** Over a run of equal closes the moving average is that close. */
  lemma RollingMeanOfFlatWindow(close: seq<real>, w: nat, i: nat)
    requires w >= 1 && w - 1 <= i < |close|
    requires forall j | i + 1 - w <= j <= i :: close[j] == close[i]
    ensures RollingMean(close, w)[i] == Some(close[i])
  {
    RollingMeanWithinWindow(close, w, i, close[i], close[i]);
  }

  /**
   * From one row to the next the window drops its oldest close and takes
   * the new one: w * SMA[i + 1] = w * SMA[i] + close[i + 1] - close[i + 1 - w].
   */
  lemma RollingMeanSlides(close: seq<real>, w: nat, i: nat)
    requires w >= 1 && w - 1 <= i && i + 1 < |close|
    ensures (w as real) * RollingMean(close, w)[i + 1].value
            == (w as real) * RollingMean(close, w)[i].value + close[i + 1] - close[i + 1 - w]
  {
    var prev, next := Window(close, i, w), Window(close, i + 1, w);
    SumFront(prev);
    assert next == prev[1..] + [close[i + 1]];
    SumAppend(prev[1..], close[i + 1]);
    var n := w as real;
    assert Mean(prev) * n == Sum(prev);
    assert Mean(next) * n == Sum(next);
  }

  /** A sum of squared deviations is zero exactly when every value equals the centre. */
  lemma {:induction false} SquaredDeviationsZero(s: seq<real>, m: real)
    ensures SquaredDeviations(s, m) == 0.0 <==> forall j | 0 <= j < |s| :: s[j] == m
  {
    if |s| > 0 {
      var init, d := s[..|s| - 1], s[|s| - 1] - m;
      SquaredDeviationsZero(init, m);
      if forall j | 0 <= j < |init| :: init[j] == m {
        if d == 0.0 {
          assert forall j | 0 <= j < |s| :: s[j] == m by {
            forall j | 0 <= j < |s| ensures s[j] == m {
              if j < |init| { assert s[j] == init[j]; }
            }
          }
        } else {
          assert s[|s| - 1] != m;
        }
      } else {
        var j :| 0 <= j < |init| && init[j] != m;
        assert s[j] == init[j];
      }
    }
  }

  /** The sample variance of a window is zero exactly when all its values are equal. */
  lemma SampleVarianceZero(s: seq<real>)
    requires |s| >= 2
    ensures SampleVariance(s) == 0.0 <==> forall j | 0 <= j < |s| :: s[j] == s[0]
  {
    var m := Mean(s);
    SquaredDeviationsZero(s, m);
    var n := (|s| - 1) as real;
    assert SampleVariance(s) * n == SquaredDeviations(s, m);
    if forall j | 0 <= j < |s| :: s[j] == s[0] {
      SumConstant(s, s[0]);
      assert m == s[0];
    }
  }

  /** The bands exist at exactly the rows where the 20-row average does, from row 19 on. */
  lemma BandsDefinedWithAverage(close: seq<real>, sqrt: real -> real, i: nat)
    requires IsSqrt(sqrt) && i < |close|
    ensures var sma := RollingMean(close, ShortWindow);
            && (UpperBand(sma, close, sqrt)[i].Some? <==> sma[i].Some?)
            && (LowerBand(sma, close, sqrt)[i].Some? <==> sma[i].Some?)
            && (sma[i].Some? <==> i >= ShortWindow - 1)
  {
  }

  /** The bands sit symmetrically around the average, two sample deviations of the window away. */
  lemma BandsSymmetric(close: seq<real>, sqrt: real -> real, i: nat)
    requires IsSqrt(sqrt) && ShortWindow - 1 <= i < |close|
    ensures var sma := RollingMean(close, ShortWindow);
            var d := BandWidth * SampleStd(Window(close, i, ShortWindow), sqrt);
            && UpperBand(sma, close, sqrt)[i].value - sma[i].value == d
            && sma[i].value - LowerBand(sma, close, sqrt)[i].value == d
  {
  }

  /**
   * Lower band <= average <= upper band, and the bands meet exactly when the
   * twenty closes of the window are all equal.
   */
  lemma BandsBracketAverage(close: seq<real>, sqrt: real -> real, i: nat)
    requires IsSqrt(sqrt) && ShortWindow - 1 <= i < |close|
    ensures var sma := RollingMean(close, ShortWindow);
            var upper, lower := UpperBand(sma, close, sqrt)[i].value, LowerBand(sma, close, sqrt)[i].value;
            && lower <= sma[i].value <= upper
            && (lower == upper <==> forall j | i + 1 - ShortWindow <= j <= i :: close[j] == close[i])
  {
    var win := Window(close, i, ShortWindow);
    var d := SampleStd(win, sqrt);
    SampleVarianceZero(win);
    assert d == 0.0 <==> forall j | 0 <= j < |win| :: win[j] == win[0];
    if forall j | 0 <= j < |win| :: win[j] == win[0] {
      forall j | i + 1 - ShortWindow <= j <= i ensures close[j] == close[i] {
        assert close[j] == win[j - (i + 1 - ShortWindow)];
        assert close[i] == win[|win| - 1];
      }
    }
    if forall j | i + 1 - ShortWindow <= j <= i :: close[j] == close[i] {
      forall j | 0 <= j < |win| ensures win[j] == win[0] {
        assert win[j] == close[j + (i + 1 - ShortWindow)];
        assert win[0] == close[i + 1 - ShortWindow];
      }
    }
  }

  /** With fewer rows than a window, a column has no value at all. */
  lemma ShortSeriesHasNoIndicators(close: seq<real>, sqrt: real -> real)
    requires IsSqrt(sqrt)
    ensures |close| < ShortWindow ==>
              var sma := RollingMean(close, ShortWindow);
              forall i | 0 <= i < |close| ::
                sma[i].None? && UpperBand(sma, close, sqrt)[i].None? && LowerBand(sma, close, sqrt)[i].None?
    ensures |close| < LongWindow ==> forall i | 0 <= i < |close| :: RollingMean(close, LongWindow)[i].None?
  {
  }

  // ---------------------------------------------------------------------
  // The DataFrame, updated in place
  // ---------------------------------------------------------------------

  /** An error raised by column lookup. */
  datatype FrameError = KeyError(column: string)

  /**
   * A price DataFrame: the closing prices and every other column by name,
   * all aligned to the same rows.
   */
  class PriceFrame {
    var close: seq<real>
    var columns: map<string, seq<Option<real>>>

    ghost predicate Valid()
      reads this
    {
      forall name | name in columns :: |columns[name]| == |close|
    }

    constructor (close: seq<real>, columns: map<string, seq<Option<real>>>)
      requires forall name | name in columns :: |columns[name]| == |close|
      ensures Valid()
      ensures this.close == close && this.columns == columns
    {
      this.close := close;
      this.columns := columns;
    }

    /** calculate_moving_averages: sets the SMA_20 and SMA_50 columns; nothing else changes. */
    method CalculateMovingAverages()
      requires Valid()
      modifies this`columns
      ensures Valid()
      ensures columns == old(columns)[Sma20Column := RollingMean(close, ShortWindow)]
                                      [Sma50Column := RollingMean(close, LongWindow)]
    {
      columns := columns[Sma20Column := RollingMean(close, ShortWindow)];
      columns := columns[Sma50Column := RollingMean(close, LongWindow)];
    }

    /**
     * calculate_bollinger_bands: sets BB_upper and BB_lower from whatever the
     * SMA_20 column holds. Without that column the lookup raises KeyError
     * before anything is assigned.
     */
    method CalculateBollingerBands(sqrt: real -> real) returns (outcome: Outcome<FrameError>)
      requires Valid() && IsSqrt(sqrt)
      modifies this`columns
      ensures Valid()
      ensures Sma20Column !in old(columns) ==>
                outcome == Fail(KeyError(Sma20Column)) && columns == old(columns)
      ensures Sma20Column in old(columns) ==>
                var sma := old(columns)[Sma20Column];
                && outcome == Pass
                && columns == old(columns)[UpperBandColumn := UpperBand(sma, close, sqrt)]
                                          [LowerBandColumn := LowerBand(sma, close, sqrt)]
    {
      if Sma20Column !in columns {
        return Fail(KeyError(Sma20Column));
      }
      var sma := columns[Sma20Column];
      columns := columns[UpperBandColumn := UpperBand(sma, close, sqrt)];
      columns := columns[LowerBandColumn := LowerBand(sma, close, sqrt)];
      outcome := Pass;
    }
  }

  /**
   * The indicator steps of the analysis action, in its order: averages, then
   * bands. The bands then bracket the 20-row average wherever it is defined.
   */
  method ComputeIndicators(frame: PriceFrame, sqrt: real -> real)
    requires frame.Valid() && IsSqrt(sqrt)
    modifies frame`columns
    ensures frame.Valid()
    ensures Sma20Column in frame.columns && Sma50Column in frame.columns
    ensures UpperBandColumn in frame.columns && LowerBandColumn in frame.columns
    ensures frame.columns[Sma20Column] == RollingMean(frame.close, ShortWindow)
    ensures frame.columns[Sma50Column] == RollingMean(frame.close, LongWindow)
    ensures frame.columns[UpperBandColumn] == UpperBand(RollingMean(frame.close, ShortWindow), frame.close, sqrt)
    ensures frame.columns[LowerBandColumn] == LowerBand(RollingMean(frame.close, ShortWindow), frame.close, sqrt)
    ensures forall i | ShortWindow - 1 <= i < |frame.close| ::
              var lower, sma, upper := frame.columns[LowerBandColumn][i], frame.columns[Sma20Column][i], frame.columns[UpperBandColumn][i];
              lower.Some? && sma.Some? && upper.Some? && lower.value <= sma.value <= upper.value
    ensures forall name | name in old(frame.columns) && name !in {Sma20Column, Sma50Column, UpperBandColumn, LowerBandColumn} ::
              name in frame.columns && frame.columns[name] == old(frame.columns)[name]
  {
    frame.CalculateMovingAverages();
    var outcome := frame.CalculateBollingerBands(sqrt);
    forall i | ShortWindow - 1 <= i < |frame.close|
      ensures var lower, sma, upper := frame.columns[LowerBandColumn][i], frame.columns[Sma20Column][i], frame.columns[UpperBandColumn][i];
              lower.Some? && sma.Some? && upper.Some? && lower.value <= sma.value <= upper.value
    {
      BandsBracketAverage(frame.close, sqrt, i);
    }
  }
}
