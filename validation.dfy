/**
 * The two input checks of the form: `validate_ticker` and `validate_date`
 * (stock_data_analyzer/validation.py).
 *
 * Both are modelled on what CPython actually does: the ticker check as the
 * regular-expression engine runs `^[A-Z]{1,5}$` under `re.match`, the date
 * check as `datetime.strptime(date, "%Y-%m-%d")` compiles the format into a
 * regular expression, matches it, rejects unconverted trailing text and then
 * builds a `date`. Each is proved equal to a declarative reference definition.
 */
module Validation {
  import opened Wrappers

  // ---------------------------------------------------------------------
  // Ticker: re.match(r"^[A-Z]{1,5}$", ticker) is not None
  // ---------------------------------------------------------------------

  /** The upper bound of the repetition `{1,5}`. */
  const MaxTickerLength: nat := 5

  predicate IsUpper(c: char) {
    'A' <= c <= 'Z'
  }

  predicate AllUpper(t: string) {
    forall i | 0 <= i < |t| :: IsUpper(t[i])
  }

  /**
   * The number of capitals the repetition consumes on its first, greedy
   * attempt: as many as there are at the start of `s`, but at most `max`.
   */
  function GreedyRun(s: string, max: nat): (n: nat)
    ensures n <= max && n <= |s|
    ensures AllUpper(s[..n])
    ensures n < max && n < |s| ==> !IsUpper(s[n])
  {
    if max == 0 || |s| == 0 || !IsUpper(s[0]) then 0
    else
      var rest := GreedyRun(s[1..], max - 1);
      assert s[..1 + rest] == [s[0]] + s[1..][..rest];
      1 + rest
  }

  /** `$` without the MULTILINE flag: at the end of the string, or just before a newline that ends it. */
  predicate EndAnchorAt(s: string, pos: nat)
    requires pos <= |s|
  {
    pos == |s| || (pos + 1 == |s| && s[pos] == '\n')
  }

  /**
   * After the greedy attempt fails at `$`, the engine gives back one capital
   * at a time, down to the minimum count of one, and tries `$` again.
   */
  predicate BacktrackFrom(s: string, k: nat)
    requires k <= |s|
    decreases k
  {
    k >= 1 && (EndAnchorAt(s, k) || BacktrackFrom(s, k - 1))
  }

  /** validate_ticker: `^` is implied by `re.match`; the pattern then runs as above. */
  predicate ValidateTicker(ticker: string) {
    BacktrackFrom(ticker, GreedyRun(ticker, MaxTickerLength))
  }

  /** Reference: one to five capital Latin letters and nothing else. */
  predicate TickerSymbol(t: string) {
    1 <= |t| <= MaxTickerLength && AllUpper(t)
  }

  /** Backtracking from `k` succeeds exactly when `$` holds after some count between 1 and `k`. */
  lemma {:induction false} BacktrackFromSearches(s: string, k: nat)
    requires k <= |s|
    ensures BacktrackFrom(s, k) <==> exists j :: 1 <= j <= k && EndAnchorAt(s, j)
  {
    if k >= 1 {
      BacktrackFromSearches(s, k - 1);
    }
  }

  /** The greedy run stops at `p` when `p` capitals lead and the cap, the end or a non-capital comes next. */
  lemma {:induction false} GreedyRunStopsAt(s: string, max: nat, p: nat)
    requires p <= max && p <= |s| && AllUpper(s[..p])
    requires p == max || p == |s| || !IsUpper(s[p])
    ensures GreedyRun(s, max) == p
  {
    if p > 0 {
      assert s[..p][0] == s[0];
      assert s[1..][..p - 1] == s[..p][1..];
      GreedyRunStopsAt(s[1..], max - 1, p - 1);
    }
  }

  /**
   * The ticker check accepts a ticker symbol, and a ticker symbol followed by
   * one newline (CPython's `$` matches before a final newline), and nothing else.
   */
  lemma ValidateTickerSpec(ticker: string)
    ensures ValidateTicker(ticker) <==>
              TickerSymbol(ticker)
              || (|ticker| >= 2 && ticker[|ticker| - 1] == '\n' && TickerSymbol(ticker[..|ticker| - 1]))
  {
    var n := GreedyRun(ticker, MaxTickerLength);
    BacktrackFromSearches(ticker, n);
    if ValidateTicker(ticker) {
      var j :| 1 <= j <= n && EndAnchorAt(ticker, j);
      assert ticker[..j] == ticker[..n][..j];
      if j == |ticker| {
        assert ticker == ticker[..j];
      }
    }
    if TickerSymbol(ticker) {
      assert ticker[..|ticker|] == ticker;
      GreedyRunStopsAt(ticker, MaxTickerLength, |ticker|);
      assert EndAnchorAt(ticker, n);
    } else if |ticker| >= 2 && ticker[|ticker| - 1] == '\n' && TickerSymbol(ticker[..|ticker| - 1]) {
      GreedyRunStopsAt(ticker, MaxTickerLength, |ticker| - 1);
      assert EndAnchorAt(ticker, n);
    }
  }

  /** Tickers of one to five capitals are accepted. */
  lemma TickerAcceptedExamples()
    ensures ValidateTicker("AAPL") && ValidateTicker("A") && ValidateTicker("GOOGL")
  {
    assert TickerSymbol("AAPL") by {
      var t := "AAPL";
      assert forall i | 0 <= i < |t| :: t[i] == 'A' || t[i] == 'P' || t[i] == 'L';
    }
    ValidateTickerSpec("AAPL");
    ValidateTickerSpec("A");
    assert TickerSymbol("GOOGL") by {
      var t := "GOOGL";
      assert forall i | 0 <= i < |t| :: t[i] == 'G' || t[i] == 'O' || t[i] == 'L';
    }
    ValidateTickerSpec("GOOGL");
  }

  /** CPython's `$` lets one trailing newline through, but not two. */
  lemma TickerTrailingNewlineExamples()
    ensures ValidateTicker("AAPL\n") && !ValidateTicker("AAPL\n\n")
  {
    ValidateTickerSpec("AAPL\n");
    assert "AAPL\n"[..4] == "AAPL";
    ValidateTickerSpec("AAPL\n\n");
    assert "AAPL\n\n"[..5][4] == '\n';
  }

  /** Empty, lower-case, digit-bearing, over-long and space-padded tickers are rejected. */
  lemma TickerRejectedExamples()
    ensures !ValidateTicker("") && !ValidateTicker("aapl") && !ValidateTicker("AAPL1")
    ensures !ValidateTicker("TOOLONG") && !ValidateTicker("AAPL ")
  {
    ValidateTickerSpec("");
    ValidateTickerSpec("aapl");
    assert !IsUpper("aapl"[0]);
    ValidateTickerSpec("AAPL1");
    assert !IsUpper("AAPL1"[4]);
    ValidateTickerSpec("TOOLONG");
    ValidateTickerSpec("AAPL ");
    assert !IsUpper("AAPL "[4]);
  }

  // ---------------------------------------------------------------------
  // Calendar (the proleptic Gregorian calendar of Python's datetime)
  // ---------------------------------------------------------------------

  const MinYear: int := 1
  const MaxYear: int := 9999

  /** Divisible by 4, and not by 100 unless also by 400. */
  predicate IsLeapYear(year: int) {
    year % 4 == 0 && (year % 100 != 0 || year % 400 == 0)
  }

  function DaysInMonth(year: int, month: int): (n: int)
    requires 1 <= month <= 12
    ensures 28 <= n <= 31
    ensures month == 2 ==> (n == 29 <==> IsLeapYear(year))
  {
    if month == 2 then (if IsLeapYear(year) then 29 else 28)
    else if month == 4 || month == 6 || month == 9 || month == 11 then 30
    else 31
  }

  /** A date the `date` constructor accepts. */
  predicate IsCalendarDate(year: int, month: int, day: int) {
    MinYear <= year <= MaxYear && 1 <= month <= 12 && 1 <= day <= DaysInMonth(year, month)
  }

  // ---------------------------------------------------------------------
  // Date: datetime.strptime(date, "%Y-%m-%d"), ValueError -> False
  // ---------------------------------------------------------------------

  /** `\d` restricted to ASCII digits. */
  predicate IsDigit(c: char) {
    '0' <= c <= '9'
  }

  predicate AllDigits(t: string) {
    forall i | 0 <= i < |t| :: IsDigit(t[i])
  }

  function DigitValue(c: char): (v: nat)
    requires IsDigit(c)
    ensures v <= 9
  {
    c as int - '0' as int
  }

  /** The number a string of decimal digits denotes. */
  function DecimalValue(t: string): nat
    requires AllDigits(t)
  {
    if |t| == 0 then 0 else 10 * DecimalValue(t[..|t| - 1]) + DigitValue(t[|t| - 1])
  }

  /** What a capture group can hold: digits, or a space and then digits (the day alternative ` [1-9]`). */
  predicate FieldShape(t: string) {
    AllDigits(t) || (|t| >= 1 && t[0] == ' ' && AllDigits(t[1..]))
  }

  /** `int()` of a captured field; leading whitespace is skipped, so `int(" 5") == 5`. */
  function FieldValue(t: string): int
    requires FieldShape(t)
  {
    if |t| >= 1 && t[0] == ' ' then DecimalValue(t[1..]) else DecimalValue(t)
  }

  /**
   * End positions of the alternatives of the month group
   * `(?P<m>1[0-2]|0[1-9]|[1-9])` that match at `i`, in the order the engine
   * tries them.
   */
  function MonthAlternatives(s: string, i: nat): (ends: seq<nat>)
    requires i <= |s|
    ensures forall k | 0 <= k < |ends| :: i < ends[k] <= |s| && ends[k] <= i + 2 && AllDigits(s[i..ends[k]])
  {
    (if i + 2 <= |s| && s[i] == '1' && '0' <= s[i + 1] <= '2' then [i + 2] else [])
    + (if i + 2 <= |s| && s[i] == '0' && '1' <= s[i + 1] <= '9' then [i + 2] else [])
    + (if i + 1 <= |s| && '1' <= s[i] <= '9' then [i + 1] else [])
  }

  /**
   * Where the day group `(?P<d>3[01]|[12]\d|0[1-9]|[1-9]| [1-9])` ends when
   * matched at `i`: the first alternative that matches, in the order the
   * engine tries them. Nothing in the pattern follows the day group, so the
   * engine never comes back to try a later one.
   */
  function DayMatchEnd(s: string, i: nat): (end: Option<nat>)
    requires i <= |s|
    ensures end.Some? ==> i < end.value <= |s| && end.value <= i + 2 && FieldShape(s[i..end.value])
  {
    if i + 2 <= |s| && s[i] == '3' && '0' <= s[i + 1] <= '1' then Some(i + 2)
    else if i + 2 <= |s| && '1' <= s[i] <= '2' && IsDigit(s[i + 1]) then Some(i + 2)
    else if i + 2 <= |s| && s[i] == '0' && '1' <= s[i + 1] <= '9' then Some(i + 2)
    else if i + 1 <= |s| && '1' <= s[i] <= '9' then Some(i + 1)
    else if i + 2 <= |s| && s[i] == ' ' && '1' <= s[i + 1] <= '9' then Some(i + 2)
    else None
  }

  /** A successful match of the whole pattern: the three captured texts and where the match ends. */
  datatype DateMatch = DateMatch(year: string, month: string, day: string, end: nat)

  predicate WellFormedMatch(s: string, m: DateMatch) {
    && |m.year| == 4 && AllDigits(m.year)
    && FieldShape(m.month) && FieldShape(m.day)
    && m.end <= |s|
  }

  /**
   * Having matched the year and the first '-', the engine tries each month
   * alternative in turn; one succeeds when a '-' follows it and some day
   * alternative matches after that. Nothing in the pattern follows the day
   * group, so the first day alternative that matches is kept.
   */
  function MatchFromMonth(s: string, monthEnds: seq<nat>): (m: Option<DateMatch>)
    requires |s| >= 5
    requires forall k | 0 <= k < |monthEnds| :: 5 < monthEnds[k] <= |s| && AllDigits(s[5..monthEnds[k]])
    requires AllDigits(s[..4])
    ensures m.Some? ==> WellFormedMatch(s, m.value)
  {
    if |monthEnds| == 0 then None
    else
      var e := monthEnds[0];
      if e < |s| && s[e] == '-' && DayMatchEnd(s, e + 1).Some? then
        var d := DayMatchEnd(s, e + 1).value;
        Some(DateMatch(s[..4], s[5..e], s[e + 1..d], d))
      else
        MatchFromMonth(s, monthEnds[1..])
  }

  /**
   * `re.match` of `(?P<Y>\d\d\d\d)-(?P<m>...)-(?P<d>...)` at the start of `s`
   * (the format has no whitespace and no characters that need escaping).
   */
  function MatchDatePattern(s: string): (m: Option<DateMatch>)
    ensures m.Some? ==> WellFormedMatch(s, m.value)
  {
    if |s| >= 5 && AllDigits(s[..4]) && s[4] == '-' then
      MatchFromMonth(s, MonthAlternatives(s, 5))
    else
      None
  }

  /** The ValueErrors `strptime` raises for this format. */
  datatype ParseError =
    | DoesNotMatchFormat
    | UnconvertedDataRemains(rest: string)
    | YearOutOfRange(year: int)
    | MonthOutOfRange(month: int)
    | DayOutOfRange(day: int)

  datatype CivilDate = CivilDate(year: int, month: int, day: int)

  /**
   * `datetime.strptime(s, "%Y-%m-%d")`, as a result: no match; text left over
   * after the match; then the `date` constructor's checks in its own order
   * (year, month, day).
   */
  function Strptime(s: string): (r: Result<CivilDate, ParseError>)
    ensures r.Success? ==> IsCalendarDate(r.value.year, r.value.month, r.value.day)
  {
    match MatchDatePattern(s)
    case None => Failure(DoesNotMatchFormat)
    case Some(m) =>
      if m.end != |s| then Failure(UnconvertedDataRemains(s[m.end..]))
      else
        var year, month, day := FieldValue(m.year), FieldValue(m.month), FieldValue(m.day);
        if year < MinYear || MaxYear < year then Failure(YearOutOfRange(year))
        else if month < 1 || 12 < month then Failure(MonthOutOfRange(month))
        else if day < 1 || DaysInMonth(year, month) < day then Failure(DayOutOfRange(day))
        else Success(CivilDate(year, month, day))
  }

  /** validate_date: every ValueError of `strptime` becomes False. */
  predicate ValidateDate(date: string) {
    Strptime(date).Success?
  }

  // ---------------------------------------------------------------------
  // Reference definition of the accepted date texts
  // ---------------------------------------------------------------------

  /** A month field: one or two digits, with value 1 to 12. */
  predicate MonthText(t: string) {
    1 <= |t| <= 2 && AllDigits(t) && 1 <= DecimalValue(t) <= 12
  }

  /** A day field: one or two digits with value 1 to 31, or a space and a digit 1 to 9. */
  predicate DayText(t: string) {
    || (1 <= |t| <= 2 && AllDigits(t) && 1 <= DecimalValue(t) <= 31)
    || (|t| == 2 && t[0] == ' ' && '1' <= t[1] <= '9')
  }

  /**
   * `s` is four digits, '-', a month field, '-' at position `j`, a day field,
   * and these denote a real calendar date.
   */
  predicate DateTextAt(s: string, j: nat) {
    && 6 <= j < |s|
    && AllDigits(s[..4]) && s[4] == '-'
    && MonthText(s[5..j]) && s[j] == '-' && DayText(s[j + 1..])
    && IsCalendarDate(DecimalValue(s[..4]), DecimalValue(s[5..j]), FieldValue(s[j + 1..]))
  }

  /** The month field has one or two digits, so the second '-' sits at position 6 or 7. */
  predicate DateText(s: string) {
    DateTextAt(s, 6) || DateTextAt(s, 7)
  }

  function TextDate(s: string, j: nat): CivilDate
    requires DateTextAt(s, j)
  {
    CivilDate(DecimalValue(s[..4]), DecimalValue(s[5..j]), FieldValue(s[j + 1..]))
  }

  lemma DecimalValueTwo(t: string)
    requires |t| == 2 && AllDigits(t)
    ensures DecimalValue(t) == 10 * DigitValue(t[0]) + DigitValue(t[1])
  {
    assert t[..|t| - 1] == t[..1];
    assert t[..1][..0] == [];
    assert DecimalValue(t[..1]) == DigitValue(t[0]);
  }

  lemma DecimalValueOne(t: string)
    requires |t| == 1 && AllDigits(t)
    ensures DecimalValue(t) == DigitValue(t[0])
  {
    assert t[..0] == [];
  }

  /** Every month alternative that matches captures a month field. */
  lemma MonthAlternativesSound(s: string, i: nat, k: nat)
    requires i <= |s| && k < |MonthAlternatives(s, i)|
    ensures MonthText(s[i..MonthAlternatives(s, i)[k]])
  {
    var e := MonthAlternatives(s, i)[k];
    var t := s[i..e];
    if e == i + 1 {
      DecimalValueOne(t);
    } else {
      DecimalValueTwo(t);
    }
  }

  /** Every month field at `i` is matched by one of the month alternatives. */
  lemma MonthAlternativesComplete(s: string, i: nat, j: nat)
    requires i < j <= |s| && MonthText(s[i..j])
    ensures j in MonthAlternatives(s, i)
  {
    var t := s[i..j];
    if |t| == 1 {
      DecimalValueOne(t);
    } else {
      DecimalValueTwo(t);
    }
  }

  /** Whatever day alternative the engine keeps, the captured text is a well-formed day field. */
  lemma DayMatchSound(s: string, i: nat)
    requires i <= |s| && DayMatchEnd(s, i).Some?
    ensures DayText(s[i..DayMatchEnd(s, i).value])
  {
    var e := DayMatchEnd(s, i).value;
    var t := s[i..e];
    if e == i + 1 {
      DecimalValueOne(t);
    } else if t[0] != ' ' {
      DecimalValueTwo(t);
    }
  }

  /** When the rest of `s` is a day field, the day group takes all of it. */
  lemma DayMatchComplete(s: string, i: nat)
    requires i <= |s| && DayText(s[i..])
    ensures DayMatchEnd(s, i) == Some(|s|)
  {
    var t := s[i..];
    if |t| == 1 {
      DecimalValueOne(t);
    } else if t[0] != ' ' {
      DecimalValueTwo(t);
    }
  }

  /** Month ends followed by '-': at most one, because a two-digit month has a digit at position 6. */
  lemma MonthEndFollowedByHyphenUnique(s: string, e1: nat, e2: nat)
    requires 5 <= |s|
    requires e1 in MonthAlternatives(s, 5) && e2 in MonthAlternatives(s, 5)
    requires e1 < |s| && s[e1] == '-' && e2 < |s| && s[e2] == '-'
    ensures e1 == e2
  {
  }

  /** What the month-by-month search returns, when it finds something: the first month end that works. */
  lemma {:induction false} MatchFromMonthWitness(s: string, monthEnds: seq<nat>) returns (e: nat)
    requires |s| >= 5
    requires forall k | 0 <= k < |monthEnds| :: 5 < monthEnds[k] <= |s| && AllDigits(s[5..monthEnds[k]])
    requires AllDigits(s[..4])
    requires MatchFromMonth(s, monthEnds).Some?
    ensures e in monthEnds && e < |s| && s[e] == '-' && DayMatchEnd(s, e + 1).Some?
    ensures MatchFromMonth(s, monthEnds).value
            == DateMatch(s[..4], s[5..e], s[e + 1..DayMatchEnd(s, e + 1).value], DayMatchEnd(s, e + 1).value)
  {
    var first := monthEnds[0];
    if first < |s| && s[first] == '-' && DayMatchEnd(s, first + 1).Some? {
      e := first;
    } else {
      var rest := monthEnds[1..];
      assert MatchFromMonth(s, monthEnds) == MatchFromMonth(s, rest);
      e := MatchFromMonthWitness(s, rest);
      assert e in monthEnds by {
        var k :| 0 <= k < |rest| && rest[k] == e;
        assert monthEnds[k + 1] == e;
      }
    }
  }

  /** The month-by-month search finds something whenever some month end is followed by '-' and a day. */
  lemma {:induction false} MatchFromMonthFinds(s: string, monthEnds: seq<nat>, e: nat)
    requires |s| >= 5
    requires forall k | 0 <= k < |monthEnds| :: 5 < monthEnds[k] <= |s| && AllDigits(s[5..monthEnds[k]])
    requires AllDigits(s[..4])
    requires e in monthEnds && e < |s| && s[e] == '-' && DayMatchEnd(s, e + 1).Some?
    ensures MatchFromMonth(s, monthEnds).Some?
  {
    if monthEnds[0] != e {
      MatchFromMonthFinds(s, monthEnds[1..], e);
    }
  }

  /** What a successful parse has matched. */
  lemma StrptimeSuccess(s: string) returns (m: DateMatch)
    requires Strptime(s).Success?
    ensures MatchDatePattern(s) == Some(m) && m.end == |s|
    ensures |s| >= 5 && AllDigits(s[..4]) && s[4] == '-'
    ensures Strptime(s).value == CivilDate(FieldValue(m.year), FieldValue(m.month), FieldValue(m.day))
  {
    m := MatchDatePattern(s).value;
  }

  /** Every date the check accepts is a reference date text. */
  lemma ValidateDateSound(date: string)
    requires ValidateDate(date)
    ensures DateText(date)
  {
    var s := date;
    var m := StrptimeSuccess(s);
    var ends := MonthAlternatives(s, 5);
    var e := MatchFromMonthWitness(s, ends);
    var d := DayMatchEnd(s, e + 1).value;
    assert m == DateMatch(s[..4], s[5..e], s[e + 1..d], d);
    var k :| 0 <= k < |ends| && ends[k] == e;
    MonthAlternativesSound(s, 5, k);
    DayMatchSound(s, e + 1);
    assert s[e + 1..d] == s[e + 1..];
    assert DateTextAt(s, e);
  }

  /** Every reference date text is matched with the month ending at its second '-'. */
  lemma DateTextMatches(s: string, j: nat)
    requires DateTextAt(s, j)
    ensures MatchDatePattern(s) == Some(DateMatch(s[..4], s[5..j], s[j + 1..], |s|))
  {
    var ends := MonthAlternatives(s, 5);
    MonthAlternativesComplete(s, 5, j);
    DayMatchComplete(s, j + 1);
    MatchFromMonthFinds(s, ends, j);
    var e := MatchFromMonthWitness(s, ends);
    MonthEndFollowedByHyphenUnique(s, e, j);
    assert MatchDatePattern(s) == MatchFromMonth(s, ends);
    assert s[j + 1..|s|] == s[j + 1..];
  }

  /** Every reference date text is accepted, and parsed to the date it denotes. */
  lemma ValidateDateComplete(date: string, j: nat)
    requires DateTextAt(date, j)
    ensures Strptime(date) == Success(TextDate(date, j))
  {
    DateTextMatches(date, j);
  }

  /**
   * The date check accepts exactly the texts of the reference definition:
   * a four-digit year, a one- or two-digit month, a one- or two-digit or
   * space-padded day, forming a real date with year 1 to 9999.
   */
  lemma ValidateDateSpec(date: string)
    ensures ValidateDate(date) <==> DateText(date)
  {
    if ValidateDate(date) {
      ValidateDateSound(date);
    } else if DateTextAt(date, 6) {
      ValidateDateComplete(date, 6);
    } else if DateTextAt(date, 7) {
      ValidateDateComplete(date, 7);
    }
  }

  /** The value of a four-digit text, digit by digit. */
  lemma DecimalValueFour(t: string)
    requires |t| == 4 && AllDigits(t)
    ensures DecimalValue(t) == 1000 * DigitValue(t[0]) + 100 * DigitValue(t[1]) + 10 * DigitValue(t[2]) + DigitValue(t[3])
  {
    assert t[..3][..2] == t[..2];
    DecimalValueTwo(t[..2]);
  }

  /** A zero-padded `YYYY-MM-DD` text of a real date is accepted. */
  lemma PaddedDateAccepted(s: string, year: int, month: int, day: int)
    requires |s| == 10 && s[4] == '-' && s[7] == '-'
    requires AllDigits(s[..4]) && AllDigits(s[5..7]) && AllDigits(s[8..])
    requires DecimalValue(s[..4]) == year && DecimalValue(s[5..7]) == month && DecimalValue(s[8..]) == day
    requires IsCalendarDate(year, month, day)
    ensures Strptime(s) == Success(CivilDate(year, month, day))
  {
    DecimalValueTwo(s[8..]);
    ValidateDateComplete(s, 7);
  }

  /** A zero-padded `YYYY-MM-DD` text whose fields do not form a real date is rejected. */
  lemma PaddedDateRejected(s: string, year: int, month: int, day: int)
    requires |s| == 10 && s[4] == '-' && s[7] == '-'
    requires AllDigits(s[..4]) && AllDigits(s[5..7]) && AllDigits(s[8..])
    requires DecimalValue(s[..4]) == year && DecimalValue(s[5..7]) == month && DecimalValue(s[8..]) == day
    requires !IsCalendarDate(year, month, day)
    ensures !ValidateDate(s)
  {
    ValidateDateSpec(s);
    assert IsDigit(s[5..7][1]);
    assert IsDigit(s[8..][0]);
  }

  // Concrete texts, one lemma each.

  lemma AcceptsPaddedDate()
    ensures Strptime("2021-01-01") == Success(CivilDate(2021, 1, 1))
  {
    var s := "2021-01-01";
    assert s[..4] == "2021" && s[5..7] == "01" && s[8..] == "01";
    DecimalValueFour("2021");
    DecimalValueTwo("01");
    PaddedDateAccepted(s, 2021, 1, 1);
  }

  lemma AcceptsLastDayOfYear()
    ensures Strptime("2021-12-31") == Success(CivilDate(2021, 12, 31))
  {
    var s := "2021-12-31";
    assert s[..4] == "2021" && s[5..7] == "12" && s[8..] == "31";
    DecimalValueFour("2021");
    DecimalValueTwo("12");
    DecimalValueTwo("31");
    PaddedDateAccepted(s, 2021, 12, 31);
  }

  lemma AcceptsLeapDay2020()
    ensures Strptime("2020-02-29") == Success(CivilDate(2020, 2, 29))
  {
    var s := "2020-02-29";
    assert s[..4] == "2020" && s[5..7] == "02" && s[8..] == "29";
    DecimalValueFour("2020");
    DecimalValueTwo("02");
    DecimalValueTwo("29");
    PaddedDateAccepted(s, 2020, 2, 29);
  }

  /** 2000 is divisible by 400, so it is a leap year although divisible by 100. */
  lemma AcceptsLeapDay2000()
    ensures Strptime("2000-02-29") == Success(CivilDate(2000, 2, 29))
  {
    var s := "2000-02-29";
    assert s[..4] == "2000" && s[5..7] == "02" && s[8..] == "29";
    DecimalValueFour("2000");
    DecimalValueTwo("02");
    DecimalValueTwo("29");
    PaddedDateAccepted(s, 2000, 2, 29);
  }

  lemma RejectsLeapDay2021()
    ensures !ValidateDate("2021-02-29")
  {
    var s := "2021-02-29";
    assert s[..4] == "2021" && s[5..7] == "02" && s[8..] == "29";
    DecimalValueFour("2021");
    DecimalValueTwo("02");
    DecimalValueTwo("29");
    PaddedDateRejected(s, 2021, 2, 29);
  }

  /** 1900 is divisible by 100 and not by 400, so it is not a leap year. */
  lemma RejectsLeapDay1900()
    ensures !ValidateDate("1900-02-29")
  {
    var s := "1900-02-29";
    assert s[..4] == "1900" && s[5..7] == "02" && s[8..] == "29";
    DecimalValueFour("1900");
    DecimalValueTwo("02");
    DecimalValueTwo("29");
    PaddedDateRejected(s, 1900, 2, 29);
  }

  lemma RejectsMonth13()
    ensures !ValidateDate("2021-13-01")
  {
    var s := "2021-13-01";
    assert s[..4] == "2021" && s[5..7] == "13" && s[8..] == "01";
    DecimalValueFour("2021");
    DecimalValueTwo("13");
    DecimalValueTwo("01");
    PaddedDateRejected(s, 2021, 13, 1);
  }

  lemma RejectsDay32()
    ensures !ValidateDate("2021-01-32")
  {
    var s := "2021-01-32";
    assert s[..4] == "2021" && s[5..7] == "01" && s[8..] == "32";
    DecimalValueFour("2021");
    DecimalValueTwo("01");
    DecimalValueTwo("32");
    PaddedDateRejected(s, 2021, 1, 32);
  }

  /** Year 0 matches `\d\d\d\d` but the `date` constructor refuses it. */
  lemma RejectsYearZero()
    ensures Strptime("0000-01-01") == Failure(YearOutOfRange(0))
  {
    var s := "0000-01-01";
    assert s[..4] == "0000" && s[5..7] == "01" && s[8..] == "01";
    DecimalValueFour("0000");
    DecimalValueTwo("01");
    var ends := MonthAlternatives(s, 5);
    assert ends == [7];
    assert DayMatchEnd(s, 8) == Some(10);
    assert s[5..7] == "01" && s[8..10] == "01";
    assert MatchDatePattern(s) == MatchFromMonth(s, [7]);
    assert MatchDatePattern(s) == Some(DateMatch("0000", "01", "01", 10));
  }

  lemma RejectsSlashes()
    ensures Strptime("2021/01/01") == Failure(DoesNotMatchFormat)
  {
  }

  lemma RejectsWords()
    ensures Strptime("not-a-date") == Failure(DoesNotMatchFormat)
  {
    assert !IsDigit("not-a-date"[..4][0]);
  }

  /** A trailing space is text left over after the match. */
  lemma RejectsTrailingSpace()
    ensures Strptime("2021-01-01 ") == Failure(UnconvertedDataRemains(" "))
  {
    var s := "2021-01-01 ";
    assert s[..4] == "2021";
    assert MonthAlternatives(s, 5) == [7];
    assert DayMatchEnd(s, 8) == Some(10);
    assert s[5..7] == "01" && s[8..10] == "01" && s[10..] == " ";
    assert MatchDatePattern(s) == MatchFromMonth(s, [7]);
    assert MatchDatePattern(s) == Some(DateMatch("2021", "01", "01", 10));
  }

  /** A date text, given the texts and values of its three fields, is accepted. */
  lemma FieldsAccepted(s: string, j: nat, year: int, month: int, day: int)
    requires 6 <= j < |s| && s[4] == '-' && s[j] == '-'
    requires AllDigits(s[..4]) && DecimalValue(s[..4]) == year
    requires MonthText(s[5..j]) && DecimalValue(s[5..j]) == month
    requires DayText(s[j + 1..]) && FieldValue(s[j + 1..]) == day
    requires IsCalendarDate(year, month, day)
    ensures Strptime(s) == Success(CivilDate(year, month, day))
  {
    ValidateDateComplete(s, j);
  }

  lemma AcceptsOneDigitMonthAndDay()
    ensures Strptime("2021-1-5") == Success(CivilDate(2021, 1, 5))
  {
    var s := "2021-1-5";
    assert s[..4] == "2021" && s[5..6] == "1" && s[7..] == "5";
    DecimalValueFour("2021");
    DecimalValueOne("1");
    DecimalValueOne("5");
    assert MonthText("1") && DayText("5") && FieldValue("5") == 5;
    FieldsAccepted(s, 6, 2021, 1, 5);
  }

  lemma AcceptsUnpaddedFebruaryFirst()
    ensures Strptime("2021-2-1") == Success(CivilDate(2021, 2, 1))
  {
    var s := "2021-2-1";
    assert s[..4] == "2021" && s[5..6] == "2" && s[7..] == "1";
    DecimalValueFour("2021");
    DecimalValueOne("2");
    DecimalValueOne("1");
    assert MonthText("2") && DayText("1") && FieldValue("1") == 1;
    FieldsAccepted(s, 6, 2021, 2, 1);
  }

  lemma AcceptsSpacePaddedDay()
    ensures Strptime("2021-01- 5") == Success(CivilDate(2021, 1, 5))
  {
    var s := "2021-01- 5";
    assert s[..4] == "2021" && s[5..7] == "01" && s[8..] == " 5";
    DecimalValueFour("2021");
    DecimalValueTwo("01");
    assert " 5"[1..] == "5";
    DecimalValueOne("5");
    assert MonthText("01") && DayText(" 5") && FieldValue(" 5") == 5;
    FieldsAccepted(s, 7, 2021, 1, 5);
  }
}
