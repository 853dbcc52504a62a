/** Calendar dates and clock times as `datetime.strptime` reads them with the
    formats the core uses: `%Y-%m-%d`, `%H:%M` and `%I:%M %p`.

    The field rules follow the regular expressions `_strptime` builds: `%Y` is
    exactly four digits, `%m`, `%d`, `%H`, `%M` and `%I` are one or two digits
    in their range (`%d` also accepts a space and one digit), a space in the
    format matches one or more whitespace characters, `%p` is `am` or `pm` in
    any case, and the whole string must be consumed. Every literal that follows
    a field in these formats is a non-digit, so a field is always the whole run
    of digits in front of it. Only ASCII digits are recognised. */
module Dates {
  import opened Wrappers
  import opened Text

  datatype Date = Date(year: int, month: int, day: int)

  datatype Time = Time(hour: int, minute: int)

  predicate IsLeap(y: int) {
    y % 4 == 0 && (y % 100 != 0 || y % 400 == 0)
  }

  function DaysInMonth(y: int, m: int): (r: int)
    requires 1 <= m <= 12
    ensures 28 <= r <= 31
  {
    if m == 2 then (if IsLeap(y) then 29 else 28)
    else if m == 4 || m == 6 || m == 9 || m == 11 then 30
    else 31
  }

  /** The dates `datetime.date` can represent. */
  predicate ValidDate(d: Date) {
    1 <= d.year <= 9999 && 1 <= d.month <= 12 && 1 <= d.day <= DaysInMonth(d.year, d.month)
  }

  predicate ValidTime(t: Time) {
    0 <= t.hour <= 23 && 0 <= t.minute <= 59
  }

  // ---------------------------------------------------------------------------
  // Scanning

  /** A field's value and the text after it. */
  datatype Scan = Scan(value: nat, rest: string)

  /** The run of digits at the start of `s`. */
  function Digits(s: string): (r: string)
    ensures r <= s && AllDigits(r)
    ensures |r| == |s| || !IsDigit(s[|r|])
  {
    if s == [] || !IsDigit(s[0]) then [] else [s[0]] + Digits(s[1..])
  }

  /** A run of digits followed by a non-digit is read back whole. */
  lemma {:induction false} DigitsOfPrefix(t: string, rest: string)
    requires AllDigits(t)
    requires rest == [] || !IsDigit(rest[0])
    ensures Digits(t + rest) == t
  {
    if t != [] {
      assert (t + rest)[1..] == t[1..] + rest;
      DigitsOfPrefix(t[1..], rest);
      assert t == [t[0]] + t[1..];
    }
  }

  /** A one- or two-digit field with a value in `lo..hi`: the shape of `%m`
      (1..12), `%H` (0..23), `%M` (0..59) and `%I` (1..12), and of `%d`
      (1..31) when it does not start with a space. */
  function Field(s: string, lo: nat, hi: nat): (r: Option<Scan>)
    ensures r.Some? ==> lo <= r.value.value <= hi
    ensures r.Some? ==> |r.value.rest| < |s| && r.value.rest == s[|s| - |r.value.rest|..]
    ensures r.Some? ==> r.value.rest == [] || !IsDigit(r.value.rest[0])
  {
    var t := Digits(s);
    if 1 <= |t| <= 2 && lo <= DigitsValue(t) <= hi then Some(Scan(DigitsValue(t), s[|t|..]))
    else None
  }

  /** `%d`: a day field, or a space followed by a single non-zero digit. */
  function DayField(s: string): (r: Option<Scan>)
    ensures r.Some? ==> 1 <= r.value.value <= 31
  {
    if s != [] && s[0] == ' ' then
      var t := Digits(s[1..]);
      if |t| == 1 && t[0] != '0' then Some(Scan(DigitValue(t[0]), s[2..])) else None
    else Field(s, 1, 31)
  }

  /** The literal character `c`. */
  function Literal(s: string, c: char): (r: Option<string>)
    ensures r.Some? <==> s != [] && s[0] == c
    ensures r.Some? ==> r.value == s[1..]
  {
    if s != [] && s[0] == c then Some(s[1..]) else None
  }

  /** A space in the format: one or more whitespace characters. */
  function Spaces(s: string): (r: Option<string>)
    ensures r.Some? ==> r.value == [] || !IsSpace(r.value[0])
  {
    if s != [] && IsSpace(s[0]) then Some(LStrip(s)) else None
  }

  // ---------------------------------------------------------------------------
  // Parsing

  /** `datetime.strptime(s, "%Y-%m-%d")`; `None` where it raises `ValueError`
      (a malformed string, year 0, or a day the month does not have). */
  function ParseDate(s: string): (r: Option<Date>)
    ensures r.Some? ==> ValidDate(r.value) && |s| >= 4
  {
    var y := Digits(s);
    if |y| != 4 then None
    else
      var s1 :- Literal(s[4..], '-');
      var m :- Field(s1, 1, 12);
      var s2 :- Literal(m.rest, '-');
      var d :- DayField(s2);
      var date := Date(DigitsValue(y), m.value, d.value);
      if d.rest == [] && ValidDate(date) then Some(date) else None
  }

  /** `datetime.strptime(s, "%H:%M")` */
  function ParseTime24(s: string): (r: Option<Time>)
    ensures r.Some? ==> ValidTime(r.value)
  {
    var h :- Field(s, 0, 23);
    var s1 :- Literal(h.rest, ':');
    var m :- Field(s1, 0, 59);
    if m.rest == [] then Some(Time(h.value, m.value)) else None
  }

  /** `datetime.strptime(s, "%I:%M %p")`, with the hour turned into 24-hour
      form as `strptime` does (12 AM is hour 0, 12 PM is hour 12). */
  function ParseTime12(s: string): (r: Option<Time>)
    ensures r.Some? ==> ValidTime(r.value)
  {
    var h :- Field(s, 1, 12);
    var s1 :- Literal(h.rest, ':');
    var m :- Field(s1, 0, 59);
    var p :- Spaces(m.rest);
    var marker := Lower(p);
    if marker == "am" then Some(Time(if h.value == 12 then 0 else h.value, m.value))
    else if marker == "pm" then Some(Time(if h.value == 12 then 12 else h.value + 12, m.value))
    else None
  }

  // ---------------------------------------------------------------------------
  // Formatting

  /** `d.strftime("%Y-%m-%d")` */
  function FormatDate(d: Date): (r: string)
    requires ValidDate(d)
    ensures |r| == 10 && r[4] == '-' && r[7] == '-'
  {
    Pad(d.year, 4) + "-" + Pad(d.month, 2) + "-" + Pad(d.day, 2)
  }

  /** `t.strftime("%H:%M")` */
  function FormatTime(t: Time): (r: string)
    requires ValidTime(t)
    ensures |r| == 5 && r[2] == ':'
  {
    Pad(t.hour, 2) + ":" + Pad(t.minute, 2)
  }

  /** Ten o'clock, the time used when an event has none. */
  lemma TenOClock()
    ensures FormatTime(Time(10, 0)) == "10:00"
  {
    assert Pad(1, 1) == Pad(0, 0) + ['1'];
    assert Pad(10, 2) == Pad(1, 1) + ['0'] == "10";
    assert Pad(0, 2) == Pad(0, 1) + ['0'] == "00";
  }

  /** A two-digit field followed by a non-digit is read back. */
  lemma FieldOfPad(n: nat, rest: string, lo: nat, hi: nat)
    requires lo <= n <= hi && n < 100
    requires rest == [] || !IsDigit(rest[0])
    ensures Field(Pad(n, 2) + rest, lo, hi) == Some(Scan(n, rest))
  {
    DigitsOfPrefix(Pad(n, 2), rest);
    assert (Pad(n, 2) + rest)[2..] == rest;
  }

  /** Every representable date survives formatting and parsing. */
  lemma ParseFormatDate(d: Date)
    requires ValidDate(d)
    ensures ParseDate(FormatDate(d)) == Some(d)
  {
    var y := Pad(d.year, 4);
    var m := Pad(d.month, 2);
    var dd := Pad(d.day, 2);
    var s := FormatDate(d);
    var afterYear := "-" + m + "-" + dd;
    assert s == y + afterYear;
    DigitsOfPrefix(y, afterYear);
    assert s[4..] == afterYear;
    assert afterYear[0] == '-' && afterYear[1..] == m + ("-" + dd);
    assert Literal(s[4..], '-') == Some(m + ("-" + dd));
    FieldOfPad(d.month, "-" + dd, 1, 12);
    assert Literal("-" + dd, '-') == Some(dd);
    FieldOfPad(d.day, [], 1, 31);
    assert dd + [] == dd;
    assert DayField(dd) == Some(Scan(d.day, []));
    assert Date(DigitsValue(y), d.month, d.day) == d;
  }

  /** Every valid time survives `%H:%M` formatting and parsing. */
  lemma ParseFormatTime(t: Time)
    requires ValidTime(t)
    ensures ParseTime24(FormatTime(t)) == Some(t)
  {
    var h := Pad(t.hour, 2);
    var m := Pad(t.minute, 2);
    assert FormatTime(t) == h + (":" + m);
    FieldOfPad(t.hour, ":" + m, 0, 23);
    FieldOfPad(t.minute, [], 0, 59);
    assert m + [] == m;
  }

  // ---------------------------------------------------------------------------
  // Day arithmetic

  function YearLength(y: int): int {
    if IsLeap(y) then 366 else 365
  }

  /** Days in the years 1 .. y-1. */
  function DaysBeforeYear(y: int): (r: int)
    decreases y
    ensures r >= 0
  {
    if y <= 1 then 0 else DaysBeforeYear(y - 1) + YearLength(y - 1)
  }

  /** Days in the months 1 .. m-1 of year `y`. */
  function DaysBeforeMonth(y: int, m: int): (r: int)
    requires 1 <= m <= 13
    decreases m
    ensures r >= 0
  {
    if m == 1 then 0 else DaysBeforeMonth(y, m - 1) + DaysInMonth(y, m - 1)
  }

  /** `date.toordinal()`: 1 for 0001-01-01, counting one per day. */
  function DayNumber(d: Date): int
    requires ValidDate(d)
  {
    DaysBeforeYear(d.year) + DaysBeforeMonth(d.year, d.month) + d.day
  }

  /** The order `datetime` compares dates by. */
  predicate Before(a: Date, b: Date) {
    a.year < b.year
    || (a.year == b.year && a.month < b.month)
    || (a.year == b.year && a.month == b.month && a.day < b.day)
  }

  lemma {:induction false} DaysBeforeMonthGrows(y: int, m: int, m': int)
    requires 1 <= m <= m' <= 13
    ensures DaysBeforeMonth(y, m) + (if m < m' then DaysInMonth(y, m) else 0) <= DaysBeforeMonth(y, m')
    decreases m' - m
  {
    if m < m' {
      DaysBeforeMonthGrows(y, m + 1, m');
    }
  }

  /** The twelve months add up to the year. */
  lemma MonthsFillYear(y: int)
    ensures DaysBeforeMonth(y, 13) == YearLength(y)
  {
  }

  lemma {:induction false} DaysBeforeYearGrows(y: int, y': int)
    requires 1 <= y < y'
    ensures DaysBeforeYear(y) + YearLength(y) <= DaysBeforeYear(y')
    decreases y' - y
  {
    if y + 1 < y' {
      DaysBeforeYearGrows(y + 1, y');
    }
  }

  /** A date inside its year: its day number does not reach the next year. */
  lemma DayNumberInYear(d: Date)
    requires ValidDate(d)
    ensures DaysBeforeYear(d.year) < DayNumber(d) <= DaysBeforeYear(d.year) + YearLength(d.year)
  {
    DaysBeforeMonthGrows(d.year, d.month, 13);
    MonthsFillYear(d.year);
  }

  /** Day numbers follow the calendar order, so the difference of two day
      numbers is `(b - a).days`, positive exactly when `a` is before `b`. */
  lemma DayNumberOrder(a: Date, b: Date)
    requires ValidDate(a) && ValidDate(b)
    ensures Before(a, b) <==> DayNumber(a) < DayNumber(b)
    ensures a == b <==> DayNumber(a) == DayNumber(b)
  {
    DayNumberInYear(a);
    DayNumberInYear(b);
    if a.year < b.year {
      DaysBeforeYearGrows(a.year, b.year);
    } else if b.year < a.year {
      DaysBeforeYearGrows(b.year, a.year);
    } else if a.month < b.month {
      DaysBeforeMonthGrows(a.year, a.month, b.month);
    } else if b.month < a.month {
      DaysBeforeMonthGrows(a.year, b.month, a.month);
    }
  }
}
