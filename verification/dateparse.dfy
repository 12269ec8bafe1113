/**
 `datetime.strptime(text, "%Y-%m-%d")` as the two date setters use it.
 The directive patterns are those of Python's `_strptime`, over ASCII
 digits: `%Y` is exactly four digits, `%m` is `1[0-2]|0[1-9]|[1-9]`, `%d` is
 `3[01]|[12]\d|0[1-9]|[1-9]| [1-9]` (a space-padded day is accepted), the
 whole text must be consumed, and the parsed fields must then form a date
 `datetime` accepts.
 */
module DateParse {
  import opened Values
  import opened Calendar

  predicate IsDigit(c: char) {
    '0' <= c <= '9'
  }

  function DigitValue(c: char): (n: int)
    requires IsDigit(c)
    ensures 0 <= n <= 9
  {
    c as int - '0' as int
  }

  function Digit(n: int): (c: char)
    requires 0 <= n <= 9
    ensures IsDigit(c) && DigitValue(c) == n
  {
    ('0' as int + n) as char
  }

  /** `%Y`: exactly four digits. */
  function ParseYear(t: string): (r: Option<int>)
    ensures r.Some? ==> 0 <= r.value <= 9999
  {
    if |t| == 4 && IsDigit(t[0]) && IsDigit(t[1]) && IsDigit(t[2]) && IsDigit(t[3]) then
      Some(100 * (10 * DigitValue(t[0]) + DigitValue(t[1])) + 10 * DigitValue(t[2]) + DigitValue(t[3]))
    else
      None
  }

  /** `%m`: one of the alternatives `1[0-2]`, `0[1-9]`, `[1-9]`, covering the whole text. */
  function ParseMonth(t: string): (r: Option<int>)
    ensures r.Some? ==> 1 <= r.value <= 12
  {
    if |t| == 2 && t[0] == '1' && '0' <= t[1] <= '2' then Some(10 + DigitValue(t[1]))
    else if |t| == 2 && t[0] == '0' && '1' <= t[1] <= '9' then Some(DigitValue(t[1]))
    else if |t| == 1 && '1' <= t[0] <= '9' then Some(DigitValue(t[0]))
    else None
  }

  /** `%d`: one of `3[01]`, `[12]\d`, `0[1-9]`, `[1-9]`, `' '[1-9]`, covering the whole text. */
  function ParseDay(t: string): (r: Option<int>)
    ensures r.Some? ==> 1 <= r.value <= 31
  {
    if |t| == 2 && t[0] == '3' && (t[1] == '0' || t[1] == '1') then Some(30 + DigitValue(t[1]))
    else if |t| == 2 && (t[0] == '1' || t[0] == '2') && IsDigit(t[1]) then Some(10 * DigitValue(t[0]) + DigitValue(t[1]))
    else if |t| == 2 && t[0] == '0' && '1' <= t[1] <= '9' then Some(DigitValue(t[1]))
    else if |t| == 1 && '1' <= t[0] <= '9' then Some(DigitValue(t[0]))
    else if |t| == 2 && t[0] == ' ' && '1' <= t[1] <= '9' then Some(DigitValue(t[1]))
    else None
  }

  /**
   The date `strptime(s, "%Y-%m-%d")` returns, or `None` where it raises.
   The year is the first four characters; the month, which never contains
   a dash, runs to the next dash at index 6 or 7; the day is all the rest.
   */
  function ParseDate(s: string): (r: Option<Date>)
    ensures r.Some? ==> Valid(r.value)
  {
    if |s| < 7 || s[4] != '-' then None
    else
      var monthEnd := if s[6] == '-' then 6 else 7;
      if monthEnd >= |s| || s[monthEnd] != '-' then None
      else
        match (ParseYear(s[..4]), ParseMonth(s[5..monthEnd]), ParseDay(s[monthEnd + 1..]))
        case (Some(y), Some(m), Some(d)) =>
          if Valid(Date(y, m, d)) then Some(Date(y, m, d)) else None
        case _ => None
  }

  // ----- The texts the format accepts for a date -----

  /** How a month below 10 is written: `05` or `5`. */
  datatype MonthStyle = MonthPadded | MonthBare

  /** How a day below 10 is written: `05`, `5` or ` 5`. */
  datatype DayStyle = DayPadded | DayBare | DaySpaced

  function TwoDigits(n: int): string
    requires 0 <= n <= 99
  {
    [Digit(n / 10), Digit(n % 10)]
  }

  function YearText(y: int): string
    requires 0 <= y <= 9999
  {
    TwoDigits(y / 100) + TwoDigits(y % 100)
  }

  function MonthText(m: int, style: MonthStyle): string
    requires 1 <= m <= 12
  {
    if m < 10 && style == MonthBare then [Digit(m)] else TwoDigits(m)
  }

  function DayText(d: int, style: DayStyle): string
    requires 1 <= d <= 31
  {
    if d >= 10 then TwoDigits(d)
    else match style
      case DayPadded => TwoDigits(d)
      case DayBare => [Digit(d)]
      case DaySpaced => [' ', Digit(d)]
  }

  /** A text of `d` in the format: four-digit year, month, day, separated by dashes. */
  function Format(d: ValidDate, ms: MonthStyle, ds: DayStyle): string {
    YearText(d.year) + "-" + MonthText(d.month, ms) + "-" + DayText(d.day, ds)
  }

  // ----- Round trip: every text of a valid date parses back to it -----

  /** Positional notation: a high part and a low part below the base are recovered by `/` and `%`. */
  lemma Positional(base: int, high: int, low: int)
    requires base == 10 || base == 100
    requires 0 <= low < base
    ensures (base * high + low) / base == high && (base * high + low) % base == low
  {
  }

  lemma ParseYearText(y: int)
    requires 0 <= y <= 9999
    ensures ParseYear(YearText(y)) == Some(y)
  {
    var h, l := y / 100, y % 100;
    assert y == 100 * h + l;
    Positional(10, h / 10, h % 10);
    Positional(10, l / 10, l % 10);
  }

  lemma ParseMonthText(m: int, style: MonthStyle)
    requires 1 <= m <= 12
    ensures ParseMonth(MonthText(m, style)) == Some(m)
  {
  }

  lemma ParseDayText(d: int, style: DayStyle)
    requires 1 <= d <= 31
    ensures ParseDay(DayText(d, style)) == Some(d)
  {
  }

  /** Every text `Format` produces for a valid date parses back to that date. */
  lemma ParseFormat(d: ValidDate, ms: MonthStyle, ds: DayStyle)
    ensures ParseDate(Format(d, ms, ds)) == Some(d)
  {
    var s := Format(d, ms, ds);
    var y, mt, dt := YearText(d.year), MonthText(d.month, ms), DayText(d.day, ds);
    var monthEnd := 5 + |mt|;
    Infix(y + "-", mt, "-" + dt);
    Infix(y, "-", mt + "-" + dt);
    assert s == (y + "-") + mt + ("-" + dt) == y + "-" + (mt + "-" + dt);
    assert s[4] == '-';
    assert s[monthEnd] == ("-" + dt)[0] == '-';
    assert s[monthEnd + 1..] == ("-" + dt)[1..] == dt;
    assert s[6] == '-' <==> |mt| == 1;
    ParseYearText(d.year);
    ParseMonthText(d.month, ms);
    ParseDayText(d.day, ds);
  }

  /** The three parts of a concatenation are recovered by slicing it at their lengths. */
  lemma Infix(a: string, b: string, c: string)
    ensures (a + b + c)[..|a|] == a
    ensures (a + b + c)[|a|..|a| + |b|] == b
    ensures (a + b + c)[|a| + |b|..] == c
  {
  }

  // ----- Soundness: whatever parses is one of those texts -----

  lemma ParseYearSound(t: string)
    requires ParseYear(t).Some?
    ensures YearText(ParseYear(t).value) == t
  {
    var a, b, c, e := DigitValue(t[0]), DigitValue(t[1]), DigitValue(t[2]), DigitValue(t[3]);
    var h, l := 10 * a + b, 10 * c + e;
    Positional(10, a, b);
    Positional(10, c, e);
    Positional(100, h, l);
    assert TwoDigits(h) == t[..2] && TwoDigits(l) == t[2..];
  }

  lemma ParseMonthSound(t: string) returns (style: MonthStyle)
    requires ParseMonth(t).Some?
    ensures MonthText(ParseMonth(t).value, style) == t
  {
    style := if |t| == 1 then MonthBare else MonthPadded;
  }

  lemma ParseDaySound(t: string) returns (style: DayStyle)
    requires ParseDay(t).Some?
    ensures DayText(ParseDay(t).value, style) == t
  {
    style := if |t| == 1 then DayBare else if t[0] == ' ' then DaySpaced else DayPadded;
  }

  /** A text that parses is a rendering, in some style, of the date it parses to. */
  lemma ParseDateSound(s: string) returns (ms: MonthStyle, ds: DayStyle)
    requires ParseDate(s).Some?
    ensures Format(ParseDate(s).value, ms, ds) == s
  {
    var d := ParseDate(s).value;
    var monthEnd := if s[6] == '-' then 6 else 7;
    ParseYearSound(s[..4]);
    ms := ParseMonthSound(s[5..monthEnd]);
    ds := ParseDaySound(s[monthEnd + 1..]);
    assert s == s[..4] + [s[4]] + s[5..monthEnd] + [s[monthEnd]] + s[monthEnd + 1..];
  }

  /**
   `strptime` accepts exactly the renderings of valid dates: `s` parses to
   `d` if and only if `d` is a valid date and `s` is one of its texts.
   */
  lemma ParseDateExactly(s: string, d: Date)
    ensures ParseDate(s) == Some(d) <==> Valid(d) && exists ms, ds :: Format(d, ms, ds) == s
  {
    if ParseDate(s) == Some(d) {
      var ms, ds := ParseDateSound(s);
      assert Format(d, ms, ds) == s;
    }
    if Valid(d) && exists ms, ds :: Format(d, ms, ds) == s {
      var ms, ds :| Format(d, ms, ds) == s;
      ParseFormat(d, ms, ds);
    }
  }

  /** The dates of the option tests parse to the dates they name. */
  lemma ParseDateTestDates()
    ensures ParseDate("2022-11-23") == Some(Date(2022, 11, 23))
    ensures ParseDate("2023-05-10") == Some(Date(2023, 5, 10))
  {
    ParseFormat(Date(2022, 11, 23), MonthPadded, DayPadded);
    ParseFormat(Date(2023, 5, 10), MonthPadded, DayPadded);
    assert Format(Date(2022, 11, 23), MonthPadded, DayPadded) == "2022-11-23";
    assert Format(Date(2023, 5, 10), MonthPadded, DayPadded) == "2023-05-10";
  }

  /** A space-padded day and a one-digit month are accepted. */
  lemma ParseDateShortFields()
    ensures ParseDate("2024-2- 9") == Some(Date(2024, 2, 9))
  {
    ParseFormat(Date(2024, 2, 9), MonthBare, DaySpaced);
    assert Format(Date(2024, 2, 9), MonthBare, DaySpaced) == "2024-2- 9";
  }

  /** Texts the format rejects: the test inputs, a day missing from its month, year 0. */
  lemma ParseDateRejects()
    ensures ParseDate("invalid") == None
    ensures ParseDate("20222-11-23") == None
    ensures ParseDate("2023-02-29") == None
    ensures ParseDate("0000-01-01") == None
  {
    assert "20222-11-23"[4] == '2';
    var leapless := "2023-02-29";
    assert leapless[..4] == "2023" && leapless[5..7] == "02" && leapless[8..] == "29";
    var zero := "0000-01-01";
    assert zero[..4] == "0000" && zero[5..7] == "01" && zero[8..] == "01";
  }
}
