/** Calendar dates as `datetime.strptime(text, "%Y-%m-%d")` reads them and
    `strftime("%Y-%m")` writes the month key back. */
module Dates {
  import opened Wrappers

  datatype Date = Date(year: int, month: int, day: int)

  /** Gregorian leap years, as `datetime` uses for every year. */
  predicate IsLeapYear(y: int) {
    y % 4 == 0 && (y % 100 != 0 || y % 400 == 0)
  }

  function DaysInMonth(y: int, m: int): (n: int)
    requires 1 <= m <= 12
    ensures 28 <= n <= 31
    ensures m == 2 ==> (n == 29 <==> IsLeapYear(y))
  {
    if m == 2 then (if IsLeapYear(y) then 29 else 28)
    else if m == 4 || m == 6 || m == 9 || m == 11 then 30
    else 31
  }

  /** What `datetime.date` accepts: years 1 to 9999 and a real day of the
      month; anything else raises `ValueError`. */
  predicate ValidDate(d: Date) {
    && 1 <= d.year <= 9999
    && 1 <= d.month <= 12
    && 1 <= d.day <= DaysInMonth(d.year, d.month)
  }

  // ---- ASCII digits ------------------------------------------------------

  predicate IsDigit(c: char) {
    '0' <= c <= '9'
  }

  function DigitValue(c: char): (n: int)
    requires IsDigit(c)
    ensures 0 <= n <= 9
  {
    c as int - '0' as int
  }

  function DigitChar(n: int): (c: char)
    requires 0 <= n <= 9
    ensures IsDigit(c) && DigitValue(c) == n
  {
    ('0' as int + n) as char
  }

  lemma DigitCharOrder(a: int, b: int)
    requires 0 <= a <= 9 && 0 <= b <= 9
    ensures DigitChar(a) < DigitChar(b) <==> a < b
    ensures DigitChar(a) == DigitChar(b) <==> a == b
  {
  }

  /** Two decimal digits, zero-padded, as `%m`, `%d`, `%H`, `%M`, `%S` print. */
  function Pad2(n: int): (s: string)
    requires 0 <= n <= 99
    ensures |s| == 2 && IsDigit(s[0]) && IsDigit(s[1])
  {
    [DigitChar(n / 10), DigitChar(n % 10)]
  }

  /** Four decimal digits, zero-padded, as `%Y` prints a year. */
  function Pad4(n: int): (s: string)
    requires 0 <= n <= 9999
    ensures |s| == 4 && forall i | 0 <= i < 4 :: IsDigit(s[i])
  {
    Pad2(n / 100) + Pad2(n % 100)
  }

  function Value2(s: string): (n: int)
    requires |s| == 2 && IsDigit(s[0]) && IsDigit(s[1])
    ensures 0 <= n <= 99
  {
    10 * DigitValue(s[0]) + DigitValue(s[1])
  }

  function Value4(s: string): (n: int)
    requires |s| == 4 && forall i | 0 <= i < 4 :: IsDigit(s[i])
    ensures 0 <= n <= 9999
  {
    100 * Value2(s[..2]) + Value2(s[2..])
  }

  lemma Pad2Value(n: int)
    requires 0 <= n <= 99
    ensures Value2(Pad2(n)) == n
  {
  }

  lemma Value2Pad(s: string)
    requires |s| == 2 && IsDigit(s[0]) && IsDigit(s[1])
    ensures Pad2(Value2(s)) == s
  {
    var n := Value2(s);
    assert n / 10 == DigitValue(s[0]) && n % 10 == DigitValue(s[1]);
  }

  lemma Pad4Value(n: int)
    requires 0 <= n <= 9999
    ensures Value4(Pad4(n)) == n
  {
    var s := Pad4(n);
    assert s[..2] == Pad2(n / 100) && s[2..] == Pad2(n % 100);
    Pad2Value(n / 100);
    Pad2Value(n % 100);
  }

  lemma Value4Pad(s: string)
    requires |s| == 4 && forall i | 0 <= i < 4 :: IsDigit(s[i])
    ensures Pad4(Value4(s)) == s
  {
    var hi, lo := Value2(s[..2]), Value2(s[2..]);
    assert Value4(s) / 100 == hi && Value4(s) % 100 == lo;
    Value2Pad(s[..2]);
    Value2Pad(s[2..]);
    assert s == s[..2] + s[2..];
  }

  // ---- the directives of "%Y-%m-%d" ---------------------------------------

  /** The month token of `%m`: the regular expression `1[0-2]|0[1-9]|[1-9]`. */
  function MonthToken(t: string): (r: Option<int>)
    ensures r.Some? ==> 1 <= r.value <= 12
  {
    if |t| == 1 && '1' <= t[0] <= '9' then Some(DigitValue(t[0]))
    else if |t| == 2 && t[0] == '0' && '1' <= t[1] <= '9' then Some(DigitValue(t[1]))
    else if |t| == 2 && t[0] == '1' && '0' <= t[1] <= '2' then Some(10 + DigitValue(t[1]))
    else None
  }

  /** The day token of `%d`: the regular expression
      `3[01]|[12]\d|0[1-9]|[1-9]| [1-9]`, which must use up the rest of the
      text (otherwise "unconverted data remains").  A space before a single
      digit is accepted. */
  function DayToken(t: string): (r: Option<int>)
    ensures r.Some? ==> 1 <= r.value <= 31
  {
    if |t| == 1 && '1' <= t[0] <= '9' then Some(DigitValue(t[0]))
    else if |t| == 2 && (t[0] == '0' || t[0] == ' ') && '1' <= t[1] <= '9' then Some(DigitValue(t[1]))
    else if |t| == 2 && '1' <= t[0] <= '2' && IsDigit(t[1]) then Some(10 * DigitValue(t[0]) + DigitValue(t[1]))
    else if |t| == 2 && t[0] == '3' && '0' <= t[1] <= '1' then Some(30 + DigitValue(t[1]))
    else None
  }

  /** Splits what follows "YYYY-" into the month token and the text after the
      second '-'.  The two-character month is tried first, as the regular
      expression does; at most one of the two readings is followed by '-'. */
  function SplitMonth(rest: string): Option<(int, string)>
  {
    if |rest| >= 3 && rest[2] == '-' && MonthToken(rest[..2]).Some? then
      Some((MonthToken(rest[..2]).value, rest[3..]))
    else if |rest| >= 2 && rest[1] == '-' && MonthToken(rest[..1]).Some? then
      Some((MonthToken(rest[..1]).value, rest[2..]))
    else None
  }

  /** `datetime.strptime(s, "%Y-%m-%d")`: `None` is the `ValueError` it raises. */
  function ParseDate(s: string): (r: Option<Date>)
    ensures r.Some? ==> ValidDate(r.value)
  {
    if |s| < 5 || !(forall i | 0 <= i < 4 :: IsDigit(s[i])) || s[4] != '-' then None
    else
      var year := Value4(s[..4]);
      match SplitMonth(s[5..])
      case None => None
      case Some((month, dayText)) =>
        match DayToken(dayText)
        case None => None
        case Some(day) =>
          if 1 <= year && day <= DaysInMonth(year, month) then Some(Date(year, month, day))
          else None
  }

  /** The canonical spelling, as `strftime("%Y-%m-%d")` would print it. */
  function FormatDate(d: Date): string
    requires ValidDate(d)
  {
    Pad4(d.year) + "-" + Pad2(d.month) + "-" + Pad2(d.day)
  }

  /** `date.strftime("%Y-%m")`, the key of a monthly bucket. */
  function MonthKey(d: Date): (k: string)
    requires ValidDate(d)
    ensures |k| == 7 && k[4] == '-'
  {
    Pad4(d.year) + "-" + Pad2(d.month)
  }

  // ---- the exact language ParseDate accepts --------------------------------

  function MonthSpellings(m: int): set<string>
    requires 1 <= m <= 12
  {
    if m < 10 then {Pad2(m), [DigitChar(m)]} else {Pad2(m)}
  }

  function DaySpellings(d: int): set<string>
    requires 1 <= d <= 31
  {
    if d < 10 then {Pad2(d), [DigitChar(d)], [' ', DigitChar(d)]} else {Pad2(d)}
  }

  /** Every text that names `d` under "%Y-%m-%d": a four-digit year, a one-
      or two-digit month, and a one-digit, two-digit or space-led day. */
  function Spellings(d: Date): set<string>
    requires ValidDate(d)
  {
    set mt, dt | mt in MonthSpellings(d.month) && dt in DaySpellings(d.day) ::
      Pad4(d.year) + "-" + mt + "-" + dt
  }

  lemma MonthTokenSpelling(t: string, m: int)
    requires 1 <= m <= 12
    ensures MonthToken(t) == Some(m) <==> t in MonthSpellings(m)
  {
    if t in MonthSpellings(m) {
      if |t| == 2 {
        assert t == Pad2(m);
      }
    }
    if MonthToken(t) == Some(m) {
      if |t| == 2 {
        Value2Pad(t);
        assert Value2(t) == m;
      } else {
        assert t == [DigitChar(m)];
      }
    }
  }

  lemma DayTokenSpelling(t: string, d: int)
    requires 1 <= d <= 31
    ensures DayToken(t) == Some(d) <==> t in DaySpellings(d)
  {
    if DayToken(t) == Some(d) {
      if |t| == 2 && t[0] != ' ' {
        Value2Pad(t);
        assert Value2(t) == d;
      } else if |t| == 2 {
        assert t == [' ', DigitChar(d)];
      } else {
        assert t == [DigitChar(d)];
      }
    }
  }

  /** Whatever parses is a spelling of the date it parses to. */
  lemma ParsedIsSpelling(s: string, d: Date)
    requires ParseDate(s) == Some(d)
    ensures ValidDate(d) && s in Spellings(d)
  {
    var rest := s[5..];
    Value4Pad(s[..4]);
    var split := SplitMonth(rest).value;
    var mt := if |rest| >= 3 && rest[2] == '-' && MonthToken(rest[..2]).Some? then rest[..2] else rest[..1];
    var dt := split.1;
    MonthTokenSpelling(mt, d.month);
    DayTokenSpelling(dt, d.day);
    assert rest == mt + "-" + dt;
    assert s == s[..4] + "-" + rest;
    assert s == Pad4(d.year) + "-" + mt + "-" + dt;
  }

  /** Every spelling of a valid date parses to that date. */
  lemma SpellingParses(s: string, d: Date)
    requires ValidDate(d) && s in Spellings(d)
    ensures ParseDate(s) == Some(d)
  {
    var mt, dt :| mt in MonthSpellings(d.month) && dt in DaySpellings(d.day) &&
      s == Pad4(d.year) + "-" + mt + "-" + dt;
    MonthTokenSpelling(mt, d.month);
    DayTokenSpelling(dt, d.day);
    assert s[..4] == Pad4(d.year);
    Pad4Value(d.year);
    var rest := s[5..];
    assert rest == mt + "-" + dt;
    if |mt| == 2 {
      assert rest[..2] == mt;
      assert SplitMonth(rest) == Some((d.month, dt));
    } else {
      assert rest[..1] == mt;
      assert rest[2] != '-';
      assert SplitMonth(rest) == Some((d.month, dt));
    }
  }

  /** Parsing accepts exactly the spellings of valid dates, and reads each
      spelling back as the date it spells. */
  lemma ParseDateExactly(s: string, d: Date)
    ensures ParseDate(s) == Some(d) <==> ValidDate(d) && s in Spellings(d)
  {
    if ParseDate(s) == Some(d) {
      ParsedIsSpelling(s, d);
    }
    if ValidDate(d) && s in Spellings(d) {
      SpellingParses(s, d);
    }
  }

  /** The canonical spelling parses back to the same date. */
  lemma ParseFormat(d: Date)
    requires ValidDate(d)
    ensures ParseDate(FormatDate(d)) == Some(d)
  {
    assert Pad2(d.month) in MonthSpellings(d.month);
    assert Pad2(d.day) in DaySpellings(d.day);
    assert FormatDate(d) in Spellings(d);
    ParseDateExactly(FormatDate(d), d);
  }

  /** The month key keeps exactly the year and month of the date. */
  lemma MonthKeyInjective(d1: Date, d2: Date)
    requires ValidDate(d1) && ValidDate(d2)
    ensures MonthKey(d1) == MonthKey(d2) <==> d1.year == d2.year && d1.month == d2.month
  {
    if MonthKey(d1) == MonthKey(d2) {
      assert MonthKey(d1)[..4] == Pad4(d1.year) && MonthKey(d2)[..4] == Pad4(d2.year);
      assert MonthKey(d1)[5..] == Pad2(d1.month) && MonthKey(d2)[5..] == Pad2(d2.month);
      Pad4Value(d1.year);
      Pad4Value(d2.year);
      Pad2Value(d1.month);
      Pad2Value(d2.month);
    }
  }
}
