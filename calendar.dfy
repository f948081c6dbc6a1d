/**
 * The part of Python's `datetime` the services use: naive date-times in the
 * proleptic Gregorian calendar, years 1 to 9999, day ordinals as in
 * `date.toordinal()` (0001-01-01 is day 1), `datetime.utcfromtimestamp` for a
 * timestamp given in whole milliseconds, and `isoformat(sep)`, which renders
 * the complete ISO 8601 representation `YYYY-MM-DDTHH:MM:SS[.ffffff]` with
 * no UTC offset.
 */
module Calendar {
  import opened Wrappers
  import opened Strings

  const MinYear := 1
  const MaxYear := 9999
  /** `date(9999, 12, 31).toordinal()`. */
  const MaxOrdinal := 3652059
  /** `date(1970, 1, 1).toordinal()`. */
  const EpochOrdinal := 719163
  const SecondsPerDay := 86400
  /** Earliest and latest millisecond timestamps that `utcfromtimestamp` accepts. */
  const MinEpochMs := -62135596800000
  const MaxEpochMs := 253402300799999

  predicate IsLeap(year: int) {
    year % 4 == 0 && (year % 100 != 0 || year % 400 == 0)
  }

  function DaysInYear(year: int): int {
    if IsLeap(year) then 366 else 365
  }

  function DaysInMonth(year: int, month: int): (n: int)
    requires 1 <= month <= 12
    ensures 28 <= n <= 31
  {
    if month == 2 then (if IsLeap(year) then 29 else 28)
    else if month == 4 || month == 6 || month == 9 || month == 11 then 30
    else 31
  }

  /** Days of `year` that come before the first of `month` (month 13: the whole year). */
  function DaysBeforeMonth(year: int, month: int): (n: int)
    requires 1 <= month <= 13
    ensures n >= 0
  {
    [0, 31, 59, 90, 120, 151, 181, 212, 243, 273, 304, 334, 365][month - 1]
    + (if month > 2 && IsLeap(year) then 1 else 0)
  }

  lemma MonthsFillYear(year: int)
    ensures DaysBeforeMonth(year, 13) == DaysInYear(year)
  {
  }

  /** Each month starts where the previous one ends. */
  lemma NextMonth(year: int, month: int)
    requires 1 <= month <= 12
    ensures DaysBeforeMonth(year, month + 1) == DaysBeforeMonth(year, month) + DaysInMonth(year, month)
  {
  }

  /** Days from 0001-01-01 to the first of January of `year`. */
  function DaysBeforeYear(year: int): int
    requires year >= 1
  {
    var p := year - 1;
    p * 365 + p / 4 - p / 100 + p / 400
  }

  lemma DaysBeforeNextYear(year: int)
    requires year >= 1
    ensures DaysBeforeYear(year + 1) == DaysBeforeYear(year) + DaysInYear(year)
  {
    var p := year - 1;
    StepDiv(p, 4);
    StepDiv(p, 100);
    StepDiv(p, 400);
    LeapDivisors(year);
    var i4 := if year % 4 == 0 then 1 else 0;
    var i100 := if year % 100 == 0 then 1 else 0;
    var i400 := if year % 400 == 0 then 1 else 0;
    assert i4 - i100 + i400 == DaysInYear(year) - 365;
    assert DaysBeforeYear(year + 1) == p * 365 + 365 + (p / 4 + i4) - (p / 100 + i100) + (p / 400 + i400);
  }

  /** A multiple of 400 is a multiple of 100, and a multiple of 100 one of 4. */
  lemma LeapDivisors(year: int)
    ensures year % 400 == 0 ==> year % 100 == 0
    ensures year % 100 == 0 ==> year % 4 == 0
  {
    if year % 400 == 0 {
      DivBy(year, 100, year / 400 * 4, 0);
    }
    if year % 100 == 0 {
      DivBy(year, 4, year / 100 * 25, 0);
    }
  }

  /** Going from `p` to `p + 1` raises `p / q` by one exactly when `q` divides `p + 1`. */
  lemma StepDiv(p: int, q: int)
    requires p >= 0 && q > 1
    ensures (p + 1) / q == p / q + (if (p + 1) % q == 0 then 1 else 0)
  {
    if p % q == q - 1 {
      DivBy(p + 1, q, p / q + 1, 0);
    } else {
      DivBy(p + 1, q, p / q, p % q + 1);
    }
  }

  lemma {:induction false} DaysBeforeYearMonotone(a: int, b: int)
    requires 1 <= a <= b
    ensures DaysBeforeYear(a) + 365 * (b - a) <= DaysBeforeYear(b)
    decreases b - a
  {
    if a < b {
      DaysBeforeYearMonotone(a, b - 1);
      DaysBeforeNextYear(b - 1);
    }
  }

  datatype Date = Date(year: int, month: int, day: int)

  predicate ValidDate(d: Date) {
    && MinYear <= d.year <= MaxYear
    && 1 <= d.month <= 12
    && 1 <= d.day <= DaysInMonth(d.year, d.month)
  }

  /** `date.toordinal()`. */
  function ToOrdinal(d: Date): int
    requires ValidDate(d)
  {
    DaysBeforeYear(d.year) + DaysBeforeMonth(d.year, d.month) + d.day
  }

  /** The ordinal of a date lies inside its year. */
  lemma OrdinalWithinYear(d: Date)
    requires ValidDate(d)
    ensures DaysBeforeYear(d.year) < ToOrdinal(d) <= DaysBeforeYear(d.year + 1)
  {
    MonthWithinYear(d.year, d.month);
    MonthsFillYear(d.year);
    DaysBeforeNextYear(d.year);
  }

  lemma {:induction false} MonthWithinYear(year: int, month: int)
    requires 1 <= month <= 12
    ensures DaysBeforeMonth(year, month) + DaysInMonth(year, month) <= DaysBeforeMonth(year, 13)
    decreases 12 - month
  {
    NextMonth(year, month);
    if month < 12 { MonthWithinYear(year, month + 1); }
  }

  lemma {:induction false} DaysBeforeMonthMonotone(year: int, a: int, b: int)
    requires 1 <= a < b <= 13
    ensures DaysBeforeMonth(year, a) + DaysInMonth(year, a) <= DaysBeforeMonth(year, b)
    decreases b - a
  {
    NextMonth(year, a);
    if a + 1 < b {
      DaysBeforeMonthMonotone(year, a, b - 1);
      NextMonth(year, b - 1);
    }
  }

  lemma OrdinalInRange(d: Date)
    requires ValidDate(d)
    ensures 1 <= ToOrdinal(d) <= MaxOrdinal
  {
    OrdinalWithinYear(d);
    DaysBeforeYearMonotone(d.year + 1, MaxYear + 1);
  }

  /** Distinct valid dates have distinct ordinals. */
  lemma ToOrdinalInjective(d1: Date, d2: Date)
    requires ValidDate(d1) && ValidDate(d2)
    requires ToOrdinal(d1) == ToOrdinal(d2)
    ensures d1 == d2
  {
    OrdinalWithinYear(d1);
    OrdinalWithinYear(d2);
    if d1.year < d2.year {
      DaysBeforeYearMonotone(d1.year + 1, d2.year);
      assert false;
    } else if d2.year < d1.year {
      DaysBeforeYearMonotone(d2.year + 1, d1.year);
      assert false;
    }
    if d1.month < d2.month {
      DaysBeforeMonthMonotone(d1.year, d1.month, d2.month);
      assert false;
    } else if d2.month < d1.month {
      DaysBeforeMonthMonotone(d1.year, d2.month, d1.month);
      assert false;
    }
  }

  /** Month and day of the `dayOfYear`-th day (from 0) of `year`, counting from `month`. */
  function MonthAndDayFrom(year: int, month: int, rest: int): (md: (int, int))
    requires 1 <= month <= 12 && rest >= 0
    requires DaysBeforeMonth(year, month) + rest < DaysInYear(year)
    ensures month <= md.0 <= 12 && 1 <= md.1 <= DaysInMonth(year, md.0)
    ensures DaysBeforeMonth(year, md.0) + md.1 == DaysBeforeMonth(year, month) + rest + 1
    decreases 12 - month
  {
    MonthsFillYear(year);
    NextMonth(year, month);
    if rest < DaysInMonth(year, month) then (month, rest + 1)
    else
      MonthWithinYear(year, month);
      MonthAndDayFrom(year, month + 1, rest - DaysInMonth(year, month))
  }

  lemma DivBy(x: int, q: int, k: int, r: int)
    requires q > 0 && x == q * k + r && 0 <= r < q
    ensures x / q == k && x % q == r
  {
    var k0, r0 := x / q, x % q;
    assert q * (k0 - k) == r - r0;
    if k0 > k {
      MulAtLeast(q, k0 - k);
      assert false;
    } else if k0 < k {
      MulAtLeast(q, k - k0);
      assert false;
    }
  }

  lemma {:induction false} MulAtLeast(q: int, m: int)
    requires q > 0 && m >= 1
    ensures q * m >= q
  {
    if m > 1 {
      MulAtLeast(q, m - 1);
      assert q * m == q * (m - 1) + q;
    }
  }

  /** `date.fromordinal(n)`: the four-century / century / four-year / year decomposition. */
  function FromOrdinal(n: int): (d: Date)
    requires 1 <= n <= MaxOrdinal
    ensures ValidDate(d) && ToOrdinal(d) == n
  {
    var n0 := n - 1;
    var n400, r400 := n0 / 146097, n0 % 146097;
    var n100, r100 := r400 / 36524, r400 % 36524;
    var n4, r4 := r100 / 1461, r100 % 1461;
    var n1, r1 := r4 / 365, r4 % 365;
    var year := n400 * 400 + n100 * 100 + n4 * 4 + n1 + 1;
    FromOrdinalFacts(n0, n400, r400, n100, r100, n4, r4, n1, r1);
    if n1 == 4 || n100 == 4 then
      var d := Date(year - 1, 12, 31);
      assert ToOrdinal(d) == n by { DaysBeforeNextYear(year - 1); MonthsFillYear(year - 1); }
      YearBound(d, n);
      d
    else
      var md := MonthAndDayFrom(year, 1, r1);
      var d := Date(year, md.0, md.1);
      YearBound(d, n);
      d
  }

  /** A date no later than MaxOrdinal cannot lie past year 9999. */
  lemma YearBound(d: Date, n: int)
    requires d.year >= MinYear && 1 <= d.month <= 12 && 1 <= d.day <= DaysInMonth(d.year, d.month)
    requires DaysBeforeYear(d.year) + DaysBeforeMonth(d.year, d.month) + d.day == n <= MaxOrdinal
    ensures d.year <= MaxYear
  {
    if d.year > MaxYear {
      DaysBeforeYearMonotone(MaxYear + 1, d.year);
      assert false;
    }
  }

  lemma FromOrdinalFacts(n0: int, n400: int, r400: int, n100: int, r100: int,
                         n4: int, r4: int, n1: int, r1: int)
    requires 0 <= n0
    requires n400 == n0 / 146097 && r400 == n0 % 146097
    requires n100 == r400 / 36524 && r100 == r400 % 36524
    requires n4 == r100 / 1461 && r100 % 1461 == r4
    requires n1 == r4 / 365 && r1 == r4 % 365
    ensures var year := n400 * 400 + n100 * 100 + n4 * 4 + n1 + 1;
            if n1 == 4 || n100 == 4 then
              year - 1 >= 1 && IsLeap(year - 1) && DaysBeforeYear(year - 1) + 366 == n0 + 1
            else
              year >= 1 && DaysBeforeYear(year) + r1 == n0 && r1 < 365
  {
    assert n0 == 146097 * n400 + 36524 * n100 + 1461 * n4 + 365 * n1 + r1;
    assert 0 <= n100 <= 4 && 0 <= n4 <= 24 && 0 <= n1 <= 4;
    if n100 == 4 {
      assert r400 == 146096 && n4 == 0 && n1 == 0;
      LastDayOfFourCenturies(n400);
    } else if n1 == 4 {
      assert r4 == 1460 && n4 <= 23;
      LastDayOfFourYears(n400, n100, n4);
    } else {
      assert n1 <= 3 && n4 <= 24 && n100 <= 3;
      OrdinaryYearStart(n400, n100, n4, n1);
    }
  }

  /** Day 146096 of a 400-year cycle is 31 December of its leap 400th year. */
  lemma LastDayOfFourCenturies(n400: int)
    requires n400 >= 0
    ensures var year := n400 * 400 + 400;
      IsLeap(year) && DaysBeforeYear(year) + 366 == 146097 * n400 + 146097
  {
    var p := n400 * 400 + 399;
    DivBy(p, 4, n400 * 100 + 99, 3);
    DivBy(p, 100, n400 * 4 + 3, 99);
    DivBy(p, 400, n400, 399);
    DivBy(p + 1, 400, n400 + 1, 0);
  }

  /** Day 1460 of a 4-year cycle is 31 December of its leap fourth year. */
  lemma LastDayOfFourYears(n400: int, n100: int, n4: int)
    requires n400 >= 0 && 0 <= n100 <= 3 && 0 <= n4 <= 23
    ensures var year := n400 * 400 + n100 * 100 + n4 * 4 + 4;
      IsLeap(year) && DaysBeforeYear(year) + 366 == 146097 * n400 + 36524 * n100 + 1461 * n4 + 1461
  {
    var p := n400 * 400 + n100 * 100 + n4 * 4 + 3;
    DivBy(p, 4, n400 * 100 + n100 * 25 + n4, 3);
    DivBy(p, 100, n400 * 4 + n100, n4 * 4 + 3);
    DivBy(p, 400, n400, n100 * 100 + n4 * 4 + 3);
    DivBy(p + 1, 4, n400 * 100 + n100 * 25 + n4 + 1, 0);
    DivBy(p + 1, 100, n400 * 4 + n100, n4 * 4 + 4);
  }

  /** Otherwise the cycle counts add up to the days before the year. */
  lemma OrdinaryYearStart(n400: int, n100: int, n4: int, n1: int)
    requires n400 >= 0 && 0 <= n100 <= 3 && 0 <= n4 <= 24 && 0 <= n1 <= 3
    ensures DaysBeforeYear(n400 * 400 + n100 * 100 + n4 * 4 + n1 + 1)
            == 146097 * n400 + 36524 * n100 + 1461 * n4 + 365 * n1
  {
    var p := n400 * 400 + n100 * 100 + n4 * 4 + n1;
    DivBy(p, 4, n400 * 100 + n100 * 25 + n4, n1);
    DivBy(p, 100, n400 * 4 + n100, n4 * 4 + n1);
    DivBy(p, 400, n400, n100 * 100 + n4 * 4 + n1);
  }

  /** Every valid date is recovered from its ordinal. */
  lemma FromOrdinalToOrdinal(d: Date)
    requires ValidDate(d)
    ensures 1 <= ToOrdinal(d) <= MaxOrdinal && FromOrdinal(ToOrdinal(d)) == d
  {
    OrdinalInRange(d);
    ToOrdinalInjective(FromOrdinal(ToOrdinal(d)), d);
  }

  // ---------------------------------------------------------------------
  // Naive date-times
  // ---------------------------------------------------------------------

  datatype DateTime = DateTime(year: int, month: int, day: int,
                               hour: int, minute: int, second: int, microsecond: int)
  {
    function DateOf(): Date { Date(year, month, day) }
  }

  predicate ValidDateTime(dt: DateTime) {
    && ValidDate(dt.DateOf())
    && 0 <= dt.hour < 24 && 0 <= dt.minute < 60 && 0 <= dt.second < 60
    && 0 <= dt.microsecond < 1000000
  }

  /** A value of Python's `datetime` type is always in range. */
  type PyDateTime = dt: DateTime | ValidDateTime(dt) witness DateTime(1970, 1, 1, 0, 0, 0, 0)

  /** Milliseconds since 1970-01-01T00:00:00 (sub-millisecond digits dropped). */
  function EpochMs(dt: PyDateTime): int {
    var days := ToOrdinal(dt.DateOf()) - EpochOrdinal;
    ((days * SecondsPerDay + dt.hour * 3600 + dt.minute * 60 + dt.second) * 1000) + dt.microsecond / 1000
  }

  /**
   * `datetime.utcfromtimestamp(ms / 1000)`: None where Python raises because
   * the year would leave 1..9999.  Milliseconds become whole microseconds.
   */
  function UtcFromTimestampMs(ms: int): (r: Option<PyDateTime>)
    ensures r.Some? <==> MinEpochMs <= ms <= MaxEpochMs
    ensures r.Some? ==> EpochMs(r.value) == ms && r.value.microsecond % 1000 == 0
  {
    var secs := ms / 1000;
    var days, sod := secs / SecondsPerDay, secs % SecondsPerDay;
    TimestampSplit(ms, secs, days, sod);
    if 1 <= days + EpochOrdinal <= MaxOrdinal then
      var d := FromOrdinal(days + EpochOrdinal);
      var hour, minute, second := sod / 3600, sod % 3600 / 60, sod % 60;
      TimeOfDay(sod);
      Some(DateTime(d.year, d.month, d.day, hour, minute, second, ms % 1000 * 1000))
    else
      None
  }

  lemma TimestampSplit(ms: int, secs: int, days: int, sod: int)
    requires secs == ms / 1000 && days == secs / SecondsPerDay && sod == secs % SecondsPerDay
    ensures ms == (days * SecondsPerDay + sod) * 1000 + ms % 1000
    ensures 1 <= days + EpochOrdinal <= MaxOrdinal <==> MinEpochMs <= ms <= MaxEpochMs
  {
    assert ms == days * 86400000 + (sod * 1000 + ms % 1000);
  }

  lemma TimeOfDay(sod: int)
    requires 0 <= sod < SecondsPerDay
    ensures 0 <= sod / 3600 < 24 && 0 <= sod % 3600 / 60 < 60
    ensures sod / 3600 * 3600 + sod % 3600 / 60 * 60 + sod % 60 == sod
  {
    var r := sod % 3600;
    assert sod == sod / 3600 * 3600 + r;
    assert r == r / 60 * 60 + r % 60;
    DivBy(sod, 60, sod / 3600 * 60 + r / 60, r % 60);
  }

  /** The timestamp in milliseconds is recovered from the date-time built from it. */
  lemma EpochMsInverse(dt: PyDateTime)
    requires dt.microsecond % 1000 == 0
    ensures UtcFromTimestampMs(EpochMs(dt)) == Some(dt)
  {
    var ms := EpochMs(dt);
    FromOrdinalToOrdinal(dt.DateOf());
    var ord := ToOrdinal(dt.DateOf());
    var sod := dt.hour * 3600 + dt.minute * 60 + dt.second;
    var milli := dt.microsecond / 1000;
    assert milli * 1000 == dt.microsecond;
    EpochMsParts(ms, ord - EpochOrdinal, sod, milli);
    ClockFields(dt.hour, dt.minute, dt.second);
    assert ms / 1000 / SecondsPerDay + EpochOrdinal == ord;
    assert FromOrdinal(ord) == dt.DateOf();
  }

  /** The day count, second of the day and millisecond a timestamp is split into. */
  lemma EpochMsParts(ms: int, days: int, sod: int, milli: int)
    requires 0 <= sod < SecondsPerDay && 0 <= milli < 1000
    requires ms == (days * SecondsPerDay + sod) * 1000 + milli
    ensures ms / 1000 == days * SecondsPerDay + sod && ms % 1000 == milli
    ensures ms / 1000 / SecondsPerDay == days && ms / 1000 % SecondsPerDay == sod
  {
    DivBy(ms, 1000, days * SecondsPerDay + sod, milli);
    DivBy(ms / 1000, SecondsPerDay, days, sod);
  }

  /** Hour, minute and second are recovered from the second of the day. */
  lemma ClockFields(hour: int, minute: int, second: int)
    requires 0 <= hour < 24 && 0 <= minute < 60 && 0 <= second < 60
    ensures var sod := hour * 3600 + minute * 60 + second;
      sod / 3600 == hour && sod % 3600 / 60 == minute && sod % 60 == second
  {
    var sod := hour * 3600 + minute * 60 + second;
    DivBy(sod, 3600, hour, minute * 60 + second);
    DivBy(minute * 60 + second, 60, minute, second);
    DivBy(sod, 60, hour * 60 + minute, second);
  }


  // ---------------------------------------------------------------------
  // isoformat
  // ---------------------------------------------------------------------

  /** `YYYY-MM-DD`, the date half of `isoformat`. */
  function DateField(dt: PyDateTime): (s: string)
    ensures |s| == 10
  {
    PadDigits(dt.year, 4) + "-" + PadDigits(dt.month, 2) + "-" + PadDigits(dt.day, 2)
  }

  /** `HH:MM:SS`, the time half of `isoformat` without the fraction. */
  function TimeField(dt: PyDateTime): (s: string)
    ensures |s| == 8
  {
    PadDigits(dt.hour, 2) + ":" + PadDigits(dt.minute, 2) + ":" + PadDigits(dt.second, 2)
  }

  /** `.ffffff`, present only when the microseconds are non-zero. */
  function FractionField(dt: PyDateTime): (s: string)
    ensures |s| == if dt.microsecond == 0 then 0 else 7
  {
    if dt.microsecond == 0 then "" else "." + PadDigits(dt.microsecond, 6)
  }

  /** `dt.isoformat(sep)`. */
  function IsoFormat(dt: PyDateTime, sep: char): (s: string)
    ensures |s| == if dt.microsecond == 0 then 19 else 26
  {
    DateField(dt) + [sep] + TimeField(dt) + FractionField(dt)
  }

  /** Reads the three fields of a `YYYY-MM-DD` or `HH:MM:SS`-shaped string. */
  function ParseFields(s: string, width: nat, delimiter: char): Option<(nat, nat, nat)>
    requires |s| == width + 6
  {
    if s[width] == delimiter && s[width + 3] == delimiter
       && AllDigits(s[..width]) && AllDigits(s[width + 1..width + 3]) && AllDigits(s[width + 4..])
    then Some((ParseNat(s[..width]), ParseNat(s[width + 1..width + 3]), ParseNat(s[width + 4..])))
    else None
  }

  lemma ParseFieldsOf(a: string, b: string, c: string, delimiter: char)
    requires |b| == 2 && |c| == 2 && AllDigits(a) && AllDigits(b) && AllDigits(c)
    ensures ParseFields(a + [delimiter] + b + [delimiter] + c, |a|, delimiter)
            == Some((ParseNat(a), ParseNat(b), ParseNat(c)))
  {
    var head := a + [delimiter] + b;
    var s := head + [delimiter] + c;
    assert s[..|a| + 3] == head && s[|a| + 3] == delimiter && s[|a| + 4..] == c;
    assert head[..|a|] == a && head[|a|] == delimiter && head[|a| + 1..] == b;
    assert s[..|a|] == a && s[|a| + 1..|a| + 3] == b;
  }

  /** `datetime.fromisoformat` for the two shapes `IsoFormat` produces. */
  function ParseIsoFormat(s: string, sep: char): (r: Option<PyDateTime>)
    ensures r.Some? ==> |s| == 19 || |s| == 26
  {
    if (|s| == 19 || |s| == 26) && s[10] == sep then
      var date := ParseFields(s[..10], 4, '-');
      var time := ParseFields(s[11..19], 2, ':');
      var hasFraction := |s| == 26;
      if date.Some? && time.Some? && (hasFraction ==> s[19] == '.' && AllDigits(s[20..])) then
        var micro := if hasFraction then ParseNat(s[20..]) else 0;
        var dt := DateTime(date.value.0, date.value.1, date.value.2,
                           time.value.0, time.value.1, time.value.2, micro);
        if ValidDateTime(dt) && (hasFraction <==> micro != 0) then Some(dt) else None
      else None
    else None
  }

  lemma DateFieldRoundTrip(dt: PyDateTime)
    ensures ParseFields(DateField(dt), 4, '-') == Some((dt.year as nat, dt.month as nat, dt.day as nat))
  {
    ParseFieldsOf(PadDigits(dt.year, 4), PadDigits(dt.month, 2), PadDigits(dt.day, 2), '-');
    PadDigitsRoundTrip(dt.year, 4);
    PadDigitsRoundTrip(dt.month, 2);
    PadDigitsRoundTrip(dt.day, 2);
  }

  lemma TimeFieldRoundTrip(dt: PyDateTime)
    ensures ParseFields(TimeField(dt), 2, ':') == Some((dt.hour as nat, dt.minute as nat, dt.second as nat))
  {
    ParseFieldsOf(PadDigits(dt.hour, 2), PadDigits(dt.minute, 2), PadDigits(dt.second, 2), ':');
    PadDigitsRoundTrip(dt.hour, 2);
    PadDigitsRoundTrip(dt.minute, 2);
    PadDigitsRoundTrip(dt.second, 2);
  }

  /** Reading back an isoformat string gives the same date-time. */
  lemma IsoFormatRoundTrip(dt: PyDateTime, sep: char)
    ensures ParseIsoFormat(IsoFormat(dt, sep), sep) == Some(dt)
  {
    var s := IsoFormat(dt, sep);
    IsoFormatPieces(dt, sep);
    DateFieldRoundTrip(dt);
    TimeFieldRoundTrip(dt);
    if dt.microsecond != 0 {
      PadDigitsRoundTrip(dt.microsecond, 6);
    }
  }

  /** Where the fields sit in an isoformat string. */
  lemma IsoFormatPieces(dt: PyDateTime, sep: char)
    ensures var s := IsoFormat(dt, sep);
      && s[..10] == DateField(dt) && s[10] == sep && s[11..19] == TimeField(dt)
      && (dt.microsecond != 0 ==> s[19] == '.' && s[20..] == PadDigits(dt.microsecond, 6))
  {
    var s := IsoFormat(dt, sep);
    var head := DateField(dt) + [sep] + TimeField(dt);
    assert s == head + FractionField(dt);
    assert s[..19] == head;
    if dt.microsecond != 0 {
      assert s[19..] == FractionField(dt);
    }
  }
}
