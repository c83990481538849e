/** Calendar arithmetic of jsutil.py: `scanf_datetime` with the `'%Y_%m'`
    format and `find_months`, which turns a year and month (or a
    `'yyyy_mm'` label) into the first instants of that month and of the
    next one. */
module Calendar {
  import opened Wrappers
  import opened Decimal

  /** The range of years `datetime.datetime` accepts. */
  const MinYear := 1
  const MaxYear := 9999

  /** A naive `datetime.datetime` without microseconds. */
  datatype DateTime = DateTime(year: int, month: int, day: int, hour: int, minute: int, second: int)

  predicate IsLeapYear(y: int) {
    y % 4 == 0 && (y % 100 != 0 || y % 400 == 0)
  }

  function DaysInMonth(y: int, m: int): (n: int)
    requires 1 <= m <= 12
    ensures 28 <= n <= 31
  {
    if m == 2 then (if IsLeapYear(y) then 29 else 28)
    else if m == 4 || m == 6 || m == 9 || m == 11 then 30
    else 31
  }

  predicate ValidDateTime(dt: DateTime) {
    MinYear <= dt.year <= MaxYear && 1 <= dt.month <= 12 &&
    1 <= dt.day <= DaysInMonth(dt.year, dt.month) &&
    0 <= dt.hour < 24 && 0 <= dt.minute < 60 && 0 <= dt.second < 60
  }

  /** Midnight on the first day of a month. */
  predicate IsMonthStart(dt: DateTime) {
    dt.day == 1 && dt.hour == 0 && dt.minute == 0 && dt.second == 0
  }

  /** Chronological order of datetimes: strictly earlier. */
  predicate Before(a: DateTime, b: DateTime) {
    a.year < b.year ||
    (a.year == b.year && (a.month < b.month ||
    (a.month == b.month && (a.day < b.day ||
    (a.day == b.day && (a.hour < b.hour ||
    (a.hour == b.hour && (a.minute < b.minute ||
    (a.minute == b.minute && a.second < b.second)))))))))
  }

  /** `a <= b` on datetimes. */
  predicate NotAfter(a: DateTime, b: DateTime) {
    !Before(b, a)
  }

  /** `datetime.datetime(y, m, day=d)`; the ValueError it raises for a
      component out of range is `None`. */
  function MakeDate(y: int, m: int, d: int): (r: Option<DateTime>)
    ensures r.Some? <==> MinYear <= y <= MaxYear && 1 <= m <= 12 && 1 <= d <= DaysInMonth(y, m)
    ensures r.Some? ==> ValidDateTime(r.value) && r.value == DateTime(y, m, d, 0, 0, 0)
  {
    if MinYear <= y <= MaxYear && 1 <= m <= 12 && 1 <= d <= DaysInMonth(y, m)
    then Some(DateTime(y, m, d, 0, 0, 0))
    else None
  }

  /** How many characters at the head of `s` the `%m` directive consumes:
      its pattern is the alternation `1[0-2]|0[1-9]|[1-9]`, tried left to
      right; 0 means that no alternative matches. */
  function MonthFieldLength(s: string): (n: nat)
    ensures n <= 2 && n <= |s|
    ensures n > 0 ==> AllDigits(s[..n]) && 1 <= DigitsValue(s[..n]) <= 12
  {
    if 2 <= |s| && s[0] == '1' && '0' <= s[1] <= '2' then
      TwoDigitsValue(s[..2]);
      2
    else if 2 <= |s| && s[0] == '0' && '1' <= s[1] <= '9' then
      TwoDigitsValue(s[..2]);
      2
    else if 1 <= |s| && '1' <= s[0] <= '9' then 1
    else 0
  }

  /** `scanf_datetime(ts, fmt='%Y_%m')`: exactly four digits (`%Y`), an
      underscore, the month field, and nothing left over ("unconverted
      data remains" otherwise); any ValueError, including year 0, gives
      `None`. */
  function ScanYearMonth(ts: string): (r: Option<DateTime>)
    ensures r.Some? ==> ValidDateTime(r.value) && IsMonthStart(r.value)
    ensures r.Some? ==> 6 <= |ts| <= 7 && AllDigits(ts[..4]) && ts[4] == '_'
    ensures r.Some? ==> r.value.year == DigitsValue(ts[..4]) && AllDigits(ts[5..]) && r.value.month == DigitsValue(ts[5..])
  {
    if |ts| < 5 || !AllDigits(ts[..4]) || ts[4] != '_' then None
    else
      var rest := ts[5..];
      var n := MonthFieldLength(rest);
      if n == 0 || n != |rest| then None
      else
        assert rest[..n] == rest;
        MakeDate(DigitsValue(ts[..4]), DigitsValue(rest), 1)
  }

  /** The Python values `find_months` inspects with `type(...) == ...`. */
  datatype PyValue = PyInt(i: int) | PyStr(s: string) | PyOther

  /** `[this_month, next_month]` as returned by `find_months`. */
  datatype Period = Period(first: DateTime, next: DateTime)

  /** What makes `find_months` raise: the OverflowError `datetime` raises
      while converting an argument that does not fit a C `int`, the
      ValueError it raises for a component out of range, the
      AttributeError of `None.month` after a failed parse, and the
      UnboundLocalError when neither argument form matches. */
  datatype PeriodError = DateOverflow | InvalidDate | NoDate | UnboundDate

  /** The range of a C `int`, to which `datetime` converts each argument
      before it checks the ranges of the calendar. */
  const CIntMin := -0x8000_0000
  const CIntMax := 0x7fff_ffff

  predicate FitsCInt(i: int) {
    CIntMin <= i <= CIntMax
  }

  /** Integer arguments for which both month starts exist. */
  predicate HasPeriod(y: int, m: int) {
    MinYear <= y <= MaxYear && 1 <= m <= 12 && !(y == MaxYear && m == 12)
  }

  /** `find_months(year, month)`.  The source's January branch computes
      the same thing as its general branch; both are kept. */
  function FindMonths(year: PyValue, month: PyValue): (r: Result<Period, PeriodError>)
    ensures r.Success? ==> ValidDateTime(r.value.first) && IsMonthStart(r.value.first)
    ensures r.Success? ==> ValidDateTime(r.value.next) && IsMonthStart(r.value.next)
    ensures r.Success? && r.value.first.month == 12 ==>
              r.value.next.year == r.value.first.year + 1 && r.value.next.month == 1
    ensures r.Success? && r.value.first.month != 12 ==>
              r.value.next.year == r.value.first.year && r.value.next.month == r.value.first.month + 1
    ensures year.PyInt? && month.PyInt? ==>
              (r.Success? <==> HasPeriod(year.i, month.i)) &&
              (r.Success? ==> r.value.first.year == year.i && r.value.first.month == month.i) &&
              (r.Failure? ==> r.error == if FitsCInt(year.i) && FitsCInt(month.i) then InvalidDate else DateOverflow)
    ensures year.PyStr? ==>
              (ScanYearMonth(year.s).None? ==> r == Failure(NoDate)) &&
              (ScanYearMonth(year.s).Some? ==>
                 (r.Success? <==> HasPeriod(ScanYearMonth(year.s).value.year, ScanYearMonth(year.s).value.month)) &&
                 (r.Failure? ==> r.error == InvalidDate)) &&
              (r.Success? ==> ScanYearMonth(year.s) == Some(r.value.first))
    ensures !year.PyStr? && !(year.PyInt? && month.PyInt?) ==> r == Failure(UnboundDate)
  {
    var start :=
      if year.PyInt? && month.PyInt? then
        if !FitsCInt(year.i) || !FitsCInt(month.i) then Failure(DateOverflow)
        else (match MakeDate(year.i, month.i, 1)
         case Some(dt) => Success(dt)
         case None => Failure(InvalidDate))
      else if year.PyStr? then
        (match ScanYearMonth(year.s)
         case Some(dt) => Success(dt)
         case None => Failure(NoDate))
      else Failure(UnboundDate);
    match start
    case Failure(e) => Failure(e)
    case Success(dt) =>
      var next :=
        if dt.month == 1 then MakeDate(dt.year, dt.month + 1, 1)
        else if dt.month == 12 then MakeDate(dt.year + 1, 1, 1)
        else MakeDate(dt.year, dt.month + 1, 1);
      match next
      case None => Failure(InvalidDate)
      case Some(n) => Success(Period(dt, n))
  }

  /** The period `find_months` returns starts strictly before it ends. */
  lemma FindMonthsOrdered(year: PyValue, month: PyValue)
    requires FindMonths(year, month).Success?
    ensures Before(FindMonths(year, month).value.first, FindMonths(year, month).value.next)
  {
  }

  /** Every string `scanf_datetime` accepts is a zero-padded four-digit year,
      an underscore and the month as two digits or, below 10, one digit. */
  lemma ScanYearMonthSound(ts: string)
    requires ScanYearMonth(ts).Some?
    ensures var dt := ScanYearMonth(ts).value;
      ts == ZeroPad(dt.year, 4) + "_" + ZeroPad(dt.month, 2) ||
      (dt.month < 10 && ts == ZeroPad(dt.year, 4) + "_" + NatToString(dt.month))
  {
    var dt := ScanYearMonth(ts).value;
    var yearField, rest := ts[..4], ts[5..];
    PadOfDigits(yearField);
    PadOfDigits(rest);
    if |rest| == 1 {
      assert NatToString(dt.month) == rest;
    }
    assert ts == yearField + "_" + rest;
  }

  /** Conversely, each such string is accepted and read as the first of its
      month. */
  lemma ScanYearMonthComplete(ts: string, y: int, m: int)
    requires MinYear <= y <= MaxYear && 1 <= m <= 12
    requires ts == ZeroPad(y, 4) + "_" + ZeroPad(m, 2) || (m < 10 && ts == ZeroPad(y, 4) + "_" + NatToString(m))
    ensures ScanYearMonth(ts) == Some(DateTime(y, m, 1, 0, 0, 0))
  {
    NumeralLength(y, 4);
    var yearField := ZeroPad(y, 4);
    var rest := if ts == yearField + "_" + ZeroPad(m, 2) then ZeroPad(m, 2) else NatToString(m);
    MonthFieldOf(rest, m);
    ScanOfFields(ts, yearField, rest);
  }

  /** The month written with two digits or, below 10, one digit is a whole
      month field. */
  lemma MonthFieldOf(rest: string, m: int)
    requires 1 <= m <= 12
    requires rest == ZeroPad(m, 2) || (m < 10 && rest == NatToString(m))
    ensures MonthFieldLength(rest) == |rest| && DigitsValue(rest) == m
  {
    if rest == ZeroPad(m, 2) {
      TwoDigitMonthField(m);
    } else {
      OneDigitMonthField(m);
    }
  }

  lemma TwoDigitMonthField(m: int)
    requires 1 <= m <= 12
    ensures MonthFieldLength(ZeroPad(m, 2)) == |ZeroPad(m, 2)| == 2 && DigitsValue(ZeroPad(m, 2)) == m
  {
    TwoDigitPad(m);
  }

  lemma OneDigitMonthField(m: int)
    requires 1 <= m < 10
    ensures MonthFieldLength(NatToString(m)) == |NatToString(m)| == 1 && DigitsValue(NatToString(m)) == m
  {
  }

  /** A four-digit year field, an underscore and a whole month field are
      read as the first of that month. */
  lemma ScanOfFields(ts: string, yearField: string, rest: string)
    requires ts == yearField + "_" + rest
    requires |yearField| == 4 && AllDigits(yearField) && MinYear <= DigitsValue(yearField) <= MaxYear
    requires 0 < MonthFieldLength(rest) == |rest|
    ensures ScanYearMonth(ts) == Some(DateTime(DigitsValue(yearField), DigitsValue(rest), 1, 0, 0, 0))
  {
    assert ts[..4] == yearField && ts[4] == '_' && ts[5..] == rest;
    assert rest[..|rest|] == rest;
  }

  /** A `'yyyy_mm'` label read back: `scanf_datetime` accepts exactly the
      zero-padded four-digit year, an underscore and the month 1..12 as
      one or two digits, for years 1..9999. */
  lemma ScanYearMonthExact(ts: string, y: int, m: int)
    ensures ScanYearMonth(ts) == Some(DateTime(y, m, 1, 0, 0, 0)) <==>
              MinYear <= y <= MaxYear && 1 <= m <= 12 &&
              (ts == ZeroPad(y, 4) + "_" + ZeroPad(m, 2) ||
               (m < 10 && ts == ZeroPad(y, 4) + "_" + NatToString(m)))
  {
    if ScanYearMonth(ts) == Some(DateTime(y, m, 1, 0, 0, 0)) {
      ScanYearMonthSound(ts);
    }
    if MinYear <= y <= MaxYear && 1 <= m <= 12 &&
       (ts == ZeroPad(y, 4) + "_" + ZeroPad(m, 2) || (m < 10 && ts == ZeroPad(y, 4) + "_" + NatToString(m))) {
      ScanYearMonthComplete(ts, y, m);
    }
  }

  /** A label `scanf_datetime` reads as month `m` of year `y` gives the
      period from that month's start to the next month's start, when the
      latter exists; the month argument is not looked at. */
  lemma FindMonthsOfLabel(ts: string, month: PyValue, y: int, m: int)
    requires ScanYearMonth(ts) == Some(DateTime(y, m, 1, 0, 0, 0))
    requires HasPeriod(y, m)
    ensures FindMonths(PyStr(ts), month) ==
              Success(Period(DateTime(y, m, 1, 0, 0, 0),
                             if m == 12 then DateTime(y + 1, 1, 1, 0, 0, 0) else DateTime(y, m + 1, 1, 0, 0, 0)))
  {
  }

  /** A label whose two-digit month is 00 or 13..99 is refused by
      `scanf_datetime`, so `find_months` fails instead of returning a
      period. */
  lemma BadMonthLabelFails(yearField: string, m: nat, month: PyValue)
    requires |yearField| == 4 && AllDigits(yearField)
    requires m == 0 || 13 <= m <= 99
    ensures ScanYearMonth(yearField + "_" + ZeroPad(m, 2)) == None
    ensures FindMonths(PyStr(yearField + "_" + ZeroPad(m, 2)), month) == Failure(NoDate)
  {
    var ts := yearField + "_" + ZeroPad(m, 2);
    TwoDigitPad(m);
    assert ts[..4] == yearField && ts[4] == '_';
    assert ts[5..] == ZeroPad(m, 2);
  }
}
