/**
  Hinnant's calendar arithmetic: civil dates of the proleptic Gregorian
  calendar to days since 1970-01-01 and back.
 */
module Calendar {
  /** Integer division as the program's language has it: toward zero. */
  function TruncDiv(a: int, b: int): int
    requires b > 0
  {
    if a >= 0 then a / b else -((-a) / b)
  }

  predicate IsLeap(year: int) {
    year % 4 == 0 && (year % 100 != 0 || year % 400 == 0)
  }

  /** Days in a month; none for a month outside 1 to 12. */
  function DaysInMonth(year: int, month: int): int {
    match month
    case 1 => 31
    case 3 => 31
    case 5 => 31
    case 7 => 31
    case 8 => 31
    case 10 => 31
    case 12 => 31
    case 4 => 30
    case 6 => 30
    case 9 => 30
    case 11 => 30
    case 2 => if IsLeap(year) then 29 else 28
    case _ => 0
  }

  datatype Date = Date(year: int, month: int, day: int)

  predicate IsDate(date: Date) {
    1 <= date.month <= 12 && 1 <= date.day <= DaysInMonth(date.year, date.month)
  }

  function DaysFromCivil(date: Date): int {
    var y := if date.month <= 2 then date.year - 1 else date.year;
    var era := TruncDiv(if y >= 0 then y else y - 399, 400);
    var yoe := y - era * 400;
    var mp := (date.month + 9) % 12;
    var doy := (153 * mp + 2) / 5 + date.day - 1;
    var doe := yoe * 365 + yoe / 4 - yoe / 100 + doy;
    era * 146_097 + doe - 719_468
  }

  function CivilFromDays(days: int): Date {
    var z := days + 719_468;
    var era := TruncDiv(if z >= 0 then z else z - 146_096, 146_097);
    var doe := z - era * 146_097;
    var yoe := (doe - doe / 1460 + doe / 36524 - doe / 146_096) / 365;
    var y := yoe + era * 400;
    var doy := doe - (365 * yoe + yoe / 4 - yoe / 100);
    var mp := (5 * doy + 2) / 153;
    var day := doy - (153 * mp + 2) / 5 + 1;
    var month := if mp < 10 then mp + 3 else mp - 9;
    Date(if month <= 2 then y + 1 else y, month, day)
  }

  // ---------------------------------------------------------------------
  // Years that start in March
  // ---------------------------------------------------------------------

  /** The first day of March-based year `y`, counted from that of year 0. */
  function YearStart(y: int): int {
    365 * y + y / 4 - y / 100 + y / 400
  }

  /** The first day of the `mp`-th month after February, within its year. */
  function MonthStart(mp: int): int {
    (153 * mp + 2) / 5
  }

  lemma NextQuotient4(y: int)
    ensures (y + 1) / 4 == y / 4 + if (y + 1) % 4 == 0 then 1 else 0
  {
  }

  lemma NextQuotient100(y: int)
    ensures (y + 1) / 100 == y / 100 + if (y + 1) % 100 == 0 then 1 else 0
    ensures (y + 1) % 100 == 0 ==> (y + 1) % 4 == 0
  {
  }

  lemma NextQuotient400(y: int)
    ensures (y + 1) / 400 == y / 400 + if (y + 1) % 400 == 0 then 1 else 0
    ensures (y + 1) % 400 == 0 ==> (y + 1) % 100 == 0
  {
  }

  /** A March-based year ends with February: it is long when that February is. */
  lemma YearLength(y: int)
    ensures YearStart(y + 1) == YearStart(y) + if IsLeap(y + 1) then 366 else 365
  {
    NextQuotient4(y);
    NextQuotient100(y);
    NextQuotient400(y);
    var a, b, c := (y + 1) % 4 == 0, (y + 1) % 100 == 0, (y + 1) % 400 == 0;
    assert IsLeap(y + 1) <==> a && (!b || c);
  }

  lemma YearsAscend(a: int, b: int)
    requires a < b
    ensures YearStart(a + 1) <= YearStart(b)
  {
  }

  lemma FloorOfTrunc(a: int, n: int)
    requires n > 0
    ensures TruncDiv(if a >= 0 then a else a - (n - 1), n) == a / n
  {
    if a < 0 {
      var q := a / n;
      assert a == q * n + a % n;
      QuotientIs(-a + n - 1, n, -q);
    }
  }

  lemma QuotientIs(a: int, n: int, q: int)
    requires n > 0 && q * n <= a < q * n + n
    ensures a / n == q
  {
    assert a == (a / n) * n + a % n;
    var d := a / n - q;
    assert d * n < n && -n < d * n;
    assert d >= 1 ==> d * n >= n;
    assert d <= -1 ==> d * n <= -n;
  }

  /** Counting by eras of 400 years is counting by years. */
  lemma EraYears(era: int, yoe: int)
    requires 0 <= yoe < 400
    ensures YearStart(400 * era + yoe) == 146_097 * era + 365 * yoe + yoe / 4 - yoe / 100
  {
    var y := 400 * era + yoe;
    assert y / 400 == era;
    assert y / 100 == 4 * era + yoe / 100;
    assert y / 4 == 100 * era + yoe / 4;
  }

  // ---------------------------------------------------------------------
  // Dates to days
  // ---------------------------------------------------------------------

  function MarchYear(date: Date): int {
    if date.month <= 2 then date.year - 1 else date.year
  }

  function MarchMonth(date: Date): int {
    (date.month + 9) % 12
  }

  lemma DaysByYear(date: Date)
    ensures DaysFromCivil(date) == YearStart(MarchYear(date)) + MonthStart(MarchMonth(date)) + date.day - 1 - 719_468
  {
    var y := MarchYear(date);
    FloorOfTrunc(y, 400);
    EraYears(y / 400, y - y / 400 * 400);
  }

  /** A month ends where the next begins, February with its year. */
  lemma MonthFits(date: Date)
    requires IsDate(date)
    ensures var mp := MarchMonth(date);
            && 0 <= mp <= 11 && 0 <= MonthStart(mp)
            && MonthStart(mp) + DaysInMonth(date.year, date.month)
               == (if mp < 11 then MonthStart(mp + 1) else if IsLeap(date.year) then 366 else 365)
            && (mp < 11 ==> MonthStart(mp + 1) <= 337) && (mp == 11 ==> date.month == 2)
  {
  }

  /** A date stays within its month and its year. */
  lemma DayFits(date: Date)
    requires IsDate(date)
    ensures var mp, doy := MarchMonth(date), MonthStart(MarchMonth(date)) + date.day - 1;
            && 0 <= mp <= 11 && 0 <= doy
            && (mp < 11 ==> doy < MonthStart(mp + 1))
            && YearStart(MarchYear(date)) + doy < YearStart(MarchYear(date) + 1)
  {
    MonthFits(date);
    YearLength(MarchYear(date));
  }

  predicate DateLess(a: Date, b: Date) {
    || a.year < b.year
    || (a.year == b.year && (a.month < b.month || (a.month == b.month && a.day < b.day)))
  }

  lemma MonthsAscend(a: int, b: int)
    requires 0 <= a < b <= 11
    ensures MonthStart(a + 1) <= MonthStart(b)
  {
  }

  lemma MarchOrder(a: Date, b: Date)
    requires IsDate(a) && IsDate(b) && DateLess(a, b)
    ensures || MarchYear(a) < MarchYear(b)
            || (MarchYear(a) == MarchYear(b) && MarchMonth(a) < MarchMonth(b))
            || (MarchYear(a) == MarchYear(b) && MarchMonth(a) == MarchMonth(b) && a.day < b.day)
  {
  }

  /** Later dates have later days. */
  lemma DatesAscend(a: Date, b: Date)
    requires IsDate(a) && IsDate(b) && DateLess(a, b)
    ensures DaysFromCivil(a) < DaysFromCivil(b)
  {
    DaysByYear(a);
    DaysByYear(b);
    DayFits(a);
    DayFits(b);
    MarchOrder(a, b);
    if MarchYear(a) < MarchYear(b) {
      YearsAscend(MarchYear(a), MarchYear(b));
    } else if MarchMonth(a) < MarchMonth(b) {
      MonthsAscend(MarchMonth(a), MarchMonth(b));
    }
  }

  // ---------------------------------------------------------------------
  // Days to dates
  // ---------------------------------------------------------------------

  /** A day of an era as century, four-year group, year and day of that year. */
  ghost predicate IsSplit(doe: int, c: int, q: int, k: int, doy: int) {
    && 0 <= c < 4 && 0 <= q < 25 && 0 <= k < 4 && 0 <= doy <= 365
    && (doy == 365 ==> k == 3 && (q < 24 || c == 3))
    && doe == 36524 * c + 1461 * q + 365 * k + doy
  }

  lemma SplitEraDay(doe: int) returns (c: int, q: int, k: int, doy: int)
    requires 0 <= doe < 146_097
    ensures IsSplit(doe, c, q, k, doy)
  {
    c := if doe == 146_096 then 3 else doe / 36524;
    var doc := doe - 36524 * c;
    q := doc / 1461;
    var doq := doc - 1461 * q;
    k := if doq == 1460 then 3 else doq / 365;
    doy := doq - 365 * k;
  }

  /** The year formula finds the year the day falls in. */
  lemma YearOfEra(doe: int, c: int, q: int, k: int, doy: int)
    requires IsSplit(doe, c, q, k, doy)
    ensures var yoe := 100 * c + 4 * q + k;
            && (doe - doe / 1460 + doe / 36524 - doe / 146_096) / 365 == yoe
            && 0 <= yoe < 400 && doe == 365 * yoe + yoe / 4 - yoe / 100 + doy
  {
    var yoe := 100 * c + 4 * q + k;
    var r := 24 * c + q + 365 * k + doy;
    assert doe == 1460 * (25 * c + q) + r;
    assert doe / 1460 == 25 * c + q + r / 1460;
    assert doe / 36524 - doe / 146_096 == c;
    assert yoe / 4 == 25 * c + q && yoe / 100 == c;
    assert doe - doe / 1460 + doe / 36524 - doe / 146_096 == 365 * yoe + doy - r / 1460;
  }

  /** The day 366 of a year is there only before a leap year's March. */
  lemma LongYearIsLeap(era: int, c: int, q: int)
    requires 0 <= c < 4 && 0 <= q < 25 && (q < 24 || c == 3)
    ensures IsLeap(400 * era + 100 * c + 4 * q + 4)
  {
    var y := 400 * era + 100 * c + 4 * q + 4;
    assert y == 4 * (100 * era + 25 * c + q + 1);
    if q == 24 {
      assert y == 400 * (era + 1);
    } else {
      assert y == 100 * (4 * era + c) + (4 * q + 4);
    }
  }

  /** The month formula finds the month the day falls in. */
  lemma MonthOfYear(doy: int)
    requires 0 <= doy <= 365
    ensures var mp := (5 * doy + 2) / 153;
            var day := doy - MonthStart(mp) + 1;
            var month := if mp < 10 then mp + 3 else mp - 9;
            && 0 <= mp <= 11 && mp == (month + 9) % 12
            && 1 <= day && (month != 2 ==> day <= DaysInMonth(0, month)) && (month == 2 ==> day <= 28 || doy == 365)
            && day <= 31 && (month == 2 ==> day <= 29)
  {
    var mp := (5 * doy + 2) / 153;
    if mp == 0 {} else if mp == 1 {} else if mp == 2 {} else if mp == 3 {} else if mp == 4 {} else if mp == 5 {
    } else if mp == 6 {} else if mp == 7 {} else if mp == 8 {} else if mp == 9 {} else if mp == 10 {}
  }

  /** The date of a day of a March-based year. */
  function DateOf(y: int, doy: int): Date {
    var mp := (5 * doy + 2) / 153;
    var month := if mp < 10 then mp + 3 else mp - 9;
    Date(if month <= 2 then y + 1 else y, month, doy - MonthStart(mp) + 1)
  }

  lemma EraOf(z: int, era: int, doe: int)
    requires z == 146_097 * era + doe && 0 <= doe < 146_097
    ensures TruncDiv(if z >= 0 then z else z - 146_096, 146_097) == era
  {
    FloorOfTrunc(z, 146_097);
    QuotientIs(z, 146_097, era);
  }

  /** The conversion, once the era, the year and the day of the year are known. */
  lemma CivilOf(days: int, era: int, doe: int, yoe: int, doy: int)
    requires days + 719_468 == 146_097 * era + doe && 0 <= doe < 146_097
    requires (doe - doe / 1460 + doe / 36524 - doe / 146_096) / 365 == yoe
    requires doe == 365 * yoe + yoe / 4 - yoe / 100 + doy
    ensures CivilFromDays(days) == DateOf(yoe + era * 400, doy)
  {
    EraOf(days + 719_468, era, doe);
  }

  /** Which year and day of it a day falls on. */
  lemma CivilByYear(days: int, era: int, doe: int) returns (y: int, doy: int)
    requires days + 719_468 == 146_097 * era + doe && 0 <= doe < 146_097
    ensures CivilFromDays(days) == DateOf(y, doy)
    ensures YearStart(y) + doy == days + 719_468
    ensures 0 <= doy <= 365 && (doy == 365 ==> IsLeap(y + 1))
  {
    var yoe, d := YearInEra(era, doe);
    CivilOf(days, era, doe, yoe, d);
    EraYears(era, yoe);
    y, doy := yoe + era * 400, d;
  }

  lemma YearInEra(era: int, doe: int) returns (yoe: int, doy: int)
    requires 0 <= doe < 146_097
    ensures (doe - doe / 1460 + doe / 36524 - doe / 146_096) / 365 == yoe
    ensures 0 <= yoe < 400 && doe == 365 * yoe + yoe / 4 - yoe / 100 + doy
    ensures 0 <= doy <= 365 && (doy == 365 ==> IsLeap(400 * era + yoe + 1))
  {
    var c, q, k, d := SplitEraDay(doe);
    YearOfEra(doe, c, q, k, d);
    if d == 365 { LongYearIsLeap(era, c, q); }
    yoe, doy := 100 * c + 4 * q + k, d;
  }

  lemma DateOfIsDate(y: int, doy: int)
    requires 0 <= doy <= 365 && (doy == 365 ==> IsLeap(y + 1))
    ensures IsDate(DateOf(y, doy))
    ensures DaysFromCivil(DateOf(y, doy)) == YearStart(y) + doy - 719_468
  {
    MonthOfYear(doy);
    DaysByYear(DateOf(y, doy));
  }

  /** Every day has one date, a real one, and the way back finds the day again. */
  lemma DaysRoundTrip(days: int)
    ensures IsDate(CivilFromDays(days))
    ensures DaysFromCivil(CivilFromDays(days)) == days
  {
    var z := days + 719_468;
    var y, doy := CivilByYear(days, z / 146_097, z % 146_097);
    DateOfIsDate(y, doy);
  }

  /** And every date comes back from its day. */
  lemma DateRoundTrip(date: Date)
    requires IsDate(date)
    ensures CivilFromDays(DaysFromCivil(date)) == date
  {
    var back := CivilFromDays(DaysFromCivil(date));
    DaysRoundTrip(DaysFromCivil(date));
    SameDaySameDate(back, date);
  }

  lemma LaterDayLaterDate(a: Date, b: Date)
    requires IsDate(a) && IsDate(b) && DaysFromCivil(a) < DaysFromCivil(b)
    ensures DateLess(a, b)
  {
    if DateLess(b, a) {
      DatesAscend(b, a);
    }
  }

  lemma SameDaySameDate(a: Date, b: Date)
    requires IsDate(a) && IsDate(b) && DaysFromCivil(a) == DaysFromCivil(b)
    ensures a == b
  {
    if DateLess(a, b) {
      DatesAscend(a, b);
    } else if DateLess(b, a) {
      DatesAscend(b, a);
    }
  }

  /** Later days have later dates. */
  lemma DaysAscend(a: int, b: int)
    requires a < b
    ensures DateLess(CivilFromDays(a), CivilFromDays(b))
  {
    DaysRoundTrip(a);
    DaysRoundTrip(b);
    LaterDayLaterDate(CivilFromDays(a), CivilFromDays(b));
  }
}
