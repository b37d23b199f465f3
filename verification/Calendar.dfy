/** Day numbers, Gregorian dates and ISO week dates. Months are counted from 0. Lua's `floor`
    division and `mod` by a positive number are Dafny's `/` and `%`. */
module Calendar {
  import opened BitOps

  function DayFromYear(y: int): int {
    365 * y + y / 4 - y / 100 + y / 400
  }

  predicate IsLeapYear(y: int) {
    y % 4 == 0 && (y % 100 != 0 || y % 400 == 0)
  }

  /** The first day, within a year that starts in March, of its month number `mi`. */
  function MonthStart(mi: int): int {
    (mi * 306 + 5) / 10
  }

  function MakeDayNum(y: int, m: int, d: int): int {
    var mm := (m % 12 + 10) % 12;
    DayFromYear(y + m / 12 - mm / 10) + MonthStart(mm) + d - 307
  }

  /** The estimate of the March-based year from a shifted day number. */
  function YearEstimate(g: int): int {
    (10000 * g + 14780) / 3652425
  }

  datatype Date = Date(year: int, month: int, day: int)

  function BreakDayNum(dn: int): Date {
    var g := dn + 306;
    var y0 := YearEstimate(g);
    var y := if g - DayFromYear(y0) < 0 then y0 - 1 else y0;
    var d := g - DayFromYear(y);
    var mi := (100 * d + 52) / 3060;
    Date((mi + 2) / 12 + y, (mi + 2) % 12, d - MonthStart(mi) + 1)
  }

  // ---------------------------------------------------------------- the Gregorian rules, independently

  function DaysInMonth(y: int, m: int): int {
    if m == 1 then (if IsLeapYear(y) then 29 else 28)
    else if m == 3 || m == 5 || m == 8 || m == 10 then 30
    else 31
  }

  predicate ValidDate(t: Date) {
    0 <= t.month < 12 && 1 <= t.day <= DaysInMonth(t.year, t.month)
  }

  /** The next day of the calendar. */
  function NextDay(t: Date): Date {
    if t.day < DaysInMonth(t.year, t.month) then Date(t.year, t.month, t.day + 1)
    else if t.month < 11 then Date(t.year, t.month + 1, 1)
    else Date(t.year + 1, 0, 1)
  }

  function DayNum(t: Date): int {
    MakeDayNum(t.year, t.month, t.day)
  }

  // ---------------------------------------------------------------- years

  /** Ten thousand days against the mean year length: the error is a function of the remainders. */
  lemma YearError(y: int)
    ensures 10000 * DayFromYear(y) - 3652425 * y == -2500 * (y % 4) + 100 * (y % 100) - 25 * (y % 400)
    ensures -14775 <= 10000 * DayFromYear(y) - 3652425 * y <= 7425
  {
    assert y == 4 * (y / 4) + y % 4;
    assert y == 100 * (y / 100) + y % 100;
    assert y == 400 * (y / 400) + y % 400;
    RemainderError(y);
  }

  lemma RemainderError(y: int)
    ensures -14775 <= -2500 * (y % 4) + 100 * (y % 100) - 25 * (y % 400) <= 7425
  {
    var c := y % 400;
    assert y == 400 * (y / 400) + c;
    var b := c % 100;
    assert 0 <= c / 100 <= 3 && c == 100 * (c / 100) + b;
    DivModUnique(y, 100, 4 * (y / 400) + c / 100, b);
    DivModUnique(y, 4, 100 * (y / 400) + c / 4, c % 4);
    DivModUnique(c, 4, 25 * (c / 100) + b / 4, b % 4);
    assert b == 4 * (b / 4) + b % 4;
  }

  lemma YearLength(y: int)
    ensures DayFromYear(y + 1) - DayFromYear(y) == if IsLeapYear(y + 1) then 366 else 365
  {
    DivStep(y, 4);
    DivStep(y, 100);
    DivStep(y, 400);
    LeapNesting(y + 1);
  }

  lemma LeapNesting(x: int)
    ensures x % 400 == 0 ==> x % 100 == 0
    ensures x % 100 == 0 ==> x % 4 == 0
  {
    if x % 400 == 0 {
      DivModUnique(x, 100, 4 * (x / 400), 0);
    }
    if x % 100 == 0 {
      DivModUnique(x, 4, 25 * (x / 100), 0);
    }
  }

  lemma DivStep(y: int, n: int)
    requires n > 0
    ensures (y + 1) / n == y / n + if (y + 1) % n == 0 then 1 else 0
  {
    var q, r := y / n, y % n;
    assert y == n * q + r;
    if r + 1 < n {
      DivModUnique(y + 1, n, q, r + 1);
    } else {
      assert n * (q + 1) == n * q + n;
      DivModUnique(y + 1, n, q + 1, 0);
    }
  }

  ghost predicate InMarchYear(g: int, y: int) {
    DayFromYear(y) <= g < DayFromYear(y + 1)
  }

  /** The constants 14780 and 3652425: the estimate is the true March-based year or one more. */
  lemma EstimateIsClose(g: int, y: int)
    requires InMarchYear(g, y)
    ensures y <= YearEstimate(g) <= y + 1
  {
    YearError(y);
    YearError(y + 1);
    assert 3652425 * y <= 10000 * g + 14780 < 3652425 * (y + 2);
  }

  /** Some March-based year contains the day: walking from the estimate, at most one step is needed. */
  lemma EstimateContains(g: int) returns (y: int)
    ensures InMarchYear(g, y)
    ensures y == YearEstimate(g) || y == YearEstimate(g) - 1
  {
    var e := YearEstimate(g);
    assert 3652425 * e <= 10000 * g + 14780 < 3652425 * (e + 1);
    YearError(e - 1);
    YearError(e);
    YearError(e + 1);
    YearLength(e);
    if DayFromYear(e) <= g {
      y := e;
    } else {
      y := e - 1;
    }
  }

  /** One correction suffices. */
  lemma CorrectedYear(g: int)
    ensures
      var y0 := YearEstimate(g);
      InMarchYear(g, if g - DayFromYear(y0) < 0 then y0 - 1 else y0)
  {
    var y := EstimateContains(g);
    YearLength(y);
  }

  lemma {:induction false} MarchYearsGrow(a: int, b: int)
    requires a <= b
    ensures DayFromYear(a) <= DayFromYear(b)
    decreases b - a
  {
    if a < b {
      MarchYearsGrow(a, b - 1);
      YearLength(b - 1);
    }
  }

  lemma MarchYearUnique(g: int, a: int, b: int)
    requires InMarchYear(g, a) && InMarchYear(g, b)
    ensures a == b
  {
    if a < b {
      MarchYearsGrow(a + 1, b);
    } else if b < a {
      MarchYearsGrow(b + 1, a);
    }
  }

  // ---------------------------------------------------------------- months

  /** The constants 306/10 and 3060: month lengths counted from March, and their inverse. */
  lemma MonthOfDay(d: int, mi: int)
    requires 0 <= mi < 12 && MonthStart(mi) <= d < MonthStart(mi + 1)
    ensures (100 * d + 52) / 3060 == mi
  {
    MonthStarts();
  }

  lemma MonthOfDayExists(d: int)
    requires 0 <= d < 366
    ensures
      var mi := (100 * d + 52) / 3060;
      0 <= mi < 12 && MonthStart(mi) <= d < MonthStart(mi + 1)
  {
    var mi := (100 * d + 52) / 3060;
    assert 3060 * mi <= 100 * d + 52 < 3060 * (mi + 1);
    assert 0 <= mi < 12;
    MonthStarts();
  }

  lemma MonthStarts()
    ensures MonthStart(0) == 0 && MonthStart(1) == 31 && MonthStart(2) == 61 && MonthStart(3) == 92
    ensures MonthStart(4) == 122 && MonthStart(5) == 153 && MonthStart(6) == 184 && MonthStart(7) == 214
    ensures MonthStart(8) == 245 && MonthStart(9) == 275 && MonthStart(10) == 306 && MonthStart(11) == 337
    ensures MonthStart(12) == 367
  {
  }

  /** The calendar's name for a day of month `mi` of the year that starts in March of `y`. */
  function FromMarch(y: int, mi: int, d: int): Date {
    Date((mi + 2) / 12 + y, (mi + 2) % 12, d)
  }

  lemma MarchMonth(mi: int)
    requires 0 <= mi < 12
    ensures
      var m := (mi + 2) % 12;
      0 <= m < 12 && (m % 12 + 10) % 12 == mi && (mi + 2) / 12 + m / 12 - mi / 10 == 0
  {
  }

  lemma MakeFromMarch(y: int, mi: int, d: int)
    requires 0 <= mi < 12
    ensures DayNum(FromMarch(y, mi, d)) == DayFromYear(y) + MonthStart(mi) + d - 307
  {
    MarchMonth(mi);
    var m := (mi + 2) % 12;
    assert (mi + 2) / 12 + y + m / 12 - mi / 10 == y;
  }

  lemma MarchMonthLength(y: int, mi: int)
    requires 0 <= mi < 12
    ensures
      var t := FromMarch(y, mi, 1);
      DaysInMonth(t.year, t.month) == (if mi == 11 then DayFromYear(y + 1) - DayFromYear(y) else MonthStart(mi + 1)) - MonthStart(mi)
  {
    MonthStarts();
    YearLength(y);
  }

  lemma ToMarch(t: Date) returns (y: int, mi: int)
    requires 0 <= t.month < 12
    ensures 0 <= mi < 12 && t == FromMarch(y, mi, t.day)
  {
    mi := (t.month + 10) % 12;
    y := t.year - (mi + 2) / 12;
  }

  // ---------------------------------------------------------------- the two directions

  /** Where the broken-down date of a day lies. */
  lemma BreakInMarchYear(dn: int) returns (y: int, mi: int)
    ensures 0 <= mi < 12 && InMarchYear(dn + 306, y)
    ensures BreakDayNum(dn) == FromMarch(y, mi, dn + 306 - DayFromYear(y) - MonthStart(mi) + 1)
    ensures MonthStart(mi) <= dn + 306 - DayFromYear(y) < MonthStart(mi + 1)
  {
    hide DayFromYear;
    var g := dn + 306;
    var y0 := YearEstimate(g);
    y := if g - DayFromYear(y0) < 0 then y0 - 1 else y0;
    CorrectedYear(g);
    YearLength(y);
    var d := g - DayFromYear(y);
    MonthOfDayExists(d);
    mi := (100 * d + 52) / 3060;
  }

  /** Breaking any day number gives a valid date, and making it again gives the number back. */
  lemma BreakThenMake(dn: int)
    ensures ValidDate(BreakDayNum(dn)) && DayNum(BreakDayNum(dn)) == dn
  {
    var y, mi := BreakInMarchYear(dn);
    MarchMonthLength(y, mi);
    MakeFromMarch(y, mi, dn + 306 - DayFromYear(y) - MonthStart(mi) + 1);
    MonthStarts();
  }

  /** Where a valid date lies in its March-based year. */
  lemma DateInMarchYear(t: Date) returns (y: int, mi: int)
    requires ValidDate(t)
    ensures 0 <= mi < 12 && t == FromMarch(y, mi, t.day)
    ensures DayNum(t) + 306 - DayFromYear(y) == MonthStart(mi) + t.day - 1
    ensures InMarchYear(DayNum(t) + 306, y)
    ensures MonthStart(mi) + t.day - 1 < MonthStart(mi + 1)
  {
    y, mi := ToMarch(t);
    MarchMonthLength(y, mi);
    MakeFromMarch(y, mi, t.day);
    MonthStarts();
    YearLength(y);
  }

  /** Making the number of any valid date and breaking it again gives the date back. */
  lemma MakeThenBreak(t: Date)
    requires ValidDate(t)
    ensures BreakDayNum(DayNum(t)) == t
  {
    hide DayFromYear, DayNum, BreakDayNum, MonthStart;
    var y, mi := DateInMarchYear(t);
    var y', mi' := BreakInMarchYear(DayNum(t));
    MarchYearUnique(DayNum(t) + 306, y, y');
    MonthOfDay(MonthStart(mi) + t.day - 1, mi);
    MonthOfDay(MonthStart(mi) + t.day - 1, mi');
  }

  lemma NextMonth(y: int, mi: int)
    requires 0 <= mi < 12
    ensures
      var t := FromMarch(y, mi, 1);
      var n := if mi == 11 then FromMarch(y + 1, 0, 1) else FromMarch(y, mi + 1, 1);
      NextDay(t.(day := DaysInMonth(t.year, t.month))) == n && ValidDate(n)
  {
  }

  /** Day numbers count the days of the Gregorian calendar: consecutive dates have consecutive numbers. */
  lemma CountsDays(t: Date)
    requires ValidDate(t)
    ensures ValidDate(NextDay(t)) && DayNum(NextDay(t)) == DayNum(t) + 1
  {
    hide DayFromYear, MakeDayNum, MonthStart;
    var y, mi := DateInMarchYear(t);
    if t.day < DaysInMonth(t.year, t.month) {
      MakeFromMarch(y, mi, t.day + 1);
    } else {
      MonthEnd(y, mi);
      NextMonth(y, mi);
    }
  }

  lemma MonthEnd(y: int, mi: int)
    requires 0 <= mi < 12
    ensures
      var t := FromMarch(y, mi, 1);
      var last := t.(day := DaysInMonth(t.year, t.month));
      DayNum(if mi == 11 then FromMarch(y + 1, 0, 1) else FromMarch(y, mi + 1, 1)) == DayNum(last) + 1
  {
    hide DayNum, DayFromYear;
    var t := FromMarch(y, mi, 1);
    MarchMonthLength(y, mi);
    MakeFromMarch(y, mi, DaysInMonth(t.year, t.month));
    if mi == 11 {
      MakeFromMarch(y + 1, 0, 1);
      MonthStarts();
    } else {
      MakeFromMarch(y, mi + 1, 1);
    }
  }

  /** Day 0 is January 1 of year 1, a Monday. */
  lemma DayZero()
    ensures DayNum(Date(1, 0, 1)) == 0 && Weekday(0) == 1
  {
    hide DayNum, DayFromYear, MonthStart;
    MakeFromMarch(0, 10, 1);
    MonthStarts();
    YearZero();
  }

  lemma YearZero()
    ensures DayFromYear(0) == 0
  {
  }

  /** Months outside 0..11 are carried into the year, days outside the month counted on. */
  lemma MonthCarry(y: int, m: int, d: int, k: int)
    ensures MakeDayNum(y, m + 12 * k, d) == MakeDayNum(y + k, m, d)
    ensures MakeDayNum(y, m, d + k) == MakeDayNum(y, m, d) + k
  {
    DivModUnique(m + 12 * k, 12, m / 12 + k, m % 12);
  }

  // ---------------------------------------------------------------- weeks

  /** 0 is Sunday, 1 is Monday. */
  function Weekday(dn: int): int {
    (dn + 1) % 7
  }

  /** Weekdays run from 0 to 6, day by day, and come round every seven days. */
  lemma WeekdayRuns(dn: int)
    ensures 0 <= Weekday(dn) <= 6 && Weekday(dn + 7) == Weekday(dn)
    ensures Weekday(dn + 1) == if Weekday(dn) == 6 then 0 else Weekday(dn) + 1
    ensures IsoWeekday(dn) == if Weekday(dn) == 0 then 7 else Weekday(dn)
  {
    var q, r := (dn + 1) / 7, (dn + 1) % 7;
    assert dn + 1 == 7 * q + r;
    DivModUnique(dn + 8, 7, q + 1, r);
  }

  function IsoWeekday(dn: int): int {
    (Weekday(dn) - 1) % 7 + 1
  }

  /** The day number on which week one of ISO year `y` starts. */
  function IsoWeekOne(y: int): int {
    var f := MakeDayNum(y, 0, 4);
    var d := if Weekday(f) == 0 then 7 else Weekday(f);
    f + (1 - d)
  }

  datatype IsoWeek = IsoWeek(week: int, year: int)

  function IsoWeekYear(dn: int): IsoWeek {
    var y := BreakDayNum(dn).year;
    if dn >= MakeDayNum(y, 11, 29) then
      var w1 := IsoWeekOne(y + 1);
      if dn < w1 then IsoWeek((dn - IsoWeekOne(y)) / 7 + 1, y)
      else IsoWeek((dn - w1) / 7 + 1, y + 1)
    else
      var w1 := IsoWeekOne(y);
      if dn < w1 then IsoWeek((dn - IsoWeekOne(y - 1)) / 7 + 1, y - 1)
      else IsoWeek((dn - w1) / 7 + 1, y)
  }

  function IsoYear(dn: int): int {
    var y := BreakDayNum(dn).year;
    y + (if dn >= MakeDayNum(y, 11, 29) && dn >= IsoWeekOne(y + 1) then 1
         else if dn < IsoWeekOne(y) then -1 else 0)
  }

  function MakeDayNumIso(y: int, w: int, d: int): int {
    IsoWeekOne(y) + 7 * w + d - 8
  }

  /** ISO year `y` contains the day. */
  ghost predicate InIsoYear(dn: int, y: int) {
    IsoWeekOne(y) <= dn < IsoWeekOne(y + 1)
  }

  /** Week one is the week, Monday to Sunday, that holds January 4. */
  lemma WeekOneIsMonday(y: int)
    ensures Weekday(IsoWeekOne(y)) == 1
    ensures IsoWeekOne(y) <= MakeDayNum(y, 0, 4) < IsoWeekOne(y) + 7
  {
    var f := MakeDayNum(y, 0, 4);
    var q, r := (f + 1) / 7, (f + 1) % 7;
    assert f + 1 == 7 * q + r;
    if r == 0 {
      DivModUnique(IsoWeekOne(y) + 1, 7, q - 1, 1);
    } else {
      DivModUnique(IsoWeekOne(y) + 1, 7, q, 1);
    }
  }

  /** A calendar year runs from January 1 to December 31. */
  lemma YearSpan(y: int)
    ensures MakeDayNum(y, 0, 1) == DayFromYear(y - 1)
    ensures MakeDayNum(y, 0, 4) == DayFromYear(y - 1) + 3
    ensures MakeDayNum(y, 11, 29) == DayFromYear(y) - 3
  {
    hide DayFromYear;
    MonthStarts();
  }

  /** An ISO year is 52 or 53 whole weeks. */
  lemma IsoYearLength(y: int)
    ensures IsoWeekOne(y + 1) - IsoWeekOne(y) == 364 || IsoWeekOne(y + 1) - IsoWeekOne(y) == 371
  {
    WeekOneIsMonday(y);
    WeekOneIsMonday(y + 1);
    YearSpan(y);
    YearSpan(y + 1);
    YearLength(y - 1);
    MondayGap(IsoWeekOne(y), IsoWeekOne(y + 1));
  }

  lemma MondayGap(a: int, b: int)
    requires Weekday(a) == 1 && Weekday(b) == 1 && 359 <= b - a <= 372
    ensures b - a == 364 || b - a == 371
  {
    var p, q := (a + 1) / 7, (b + 1) / 7;
    assert a + 1 == 7 * p + 1 && b + 1 == 7 * q + 1;
  }

  /** Week one starts within three days of January 1. */
  lemma WeekOneNear(y: int)
    ensures DayFromYear(y - 1) - 3 <= IsoWeekOne(y) <= DayFromYear(y - 1) + 3
  {
    WeekOneIsMonday(y);
    YearSpan(y);
  }

  lemma {:induction false} IsoYearsGrow(a: int, b: int)
    requires a <= b
    ensures IsoWeekOne(a) <= IsoWeekOne(b)
    decreases b - a
  {
    if a < b {
      IsoYearsGrow(a, b - 1);
      IsoYearLength(b - 1);
    }
  }

  lemma IsoYearUnique(dn: int, a: int, b: int)
    requires InIsoYear(dn, a) && InIsoYear(dn, b)
    ensures a == b
  {
    if a < b {
      IsoYearsGrow(a + 1, b);
    } else if b < a {
      IsoYearsGrow(b + 1, a);
    }
  }

  lemma CalendarYearSpan(dn: int)
    ensures var y := BreakDayNum(dn).year; DayFromYear(y - 1) <= dn < DayFromYear(y)
  {
    hide DayFromYear;
    var y, mi := BreakInMarchYear(dn);
    MonthStarts();
    YearLength(y - 1);
    YearLength(y);
  }

  /** The ISO year of a day is the one whose first Monday is at or before it while the next
      year's is after it; the two ways of finding it agree; the week is in 1..53; and year,
      week and ISO weekday give the day number back. */
  lemma IsoRoundTrip(dn: int)
    ensures InIsoYear(dn, IsoWeekYear(dn).year)
    ensures IsoYear(dn) == IsoWeekYear(dn).year
    ensures 1 <= IsoWeekYear(dn).week <= 53 && 1 <= IsoWeekday(dn) <= 7
    ensures MakeDayNumIso(IsoWeekYear(dn).year, IsoWeekYear(dn).week, IsoWeekday(dn)) == dn
  {
    hide IsoWeekOne, IsoWeekYear, IsoYear, Weekday;
    IsoYearFound(dn);
    var y := IsoWeekYear(dn).year;
    IsoYearLength(y);
    WeekOneIsMonday(y);
    WithinWeek(dn, IsoWeekOne(y));
  }

  /** The year the lookup of a day settles on, told from its bounds. */
  lemma IsoYearPicked(dn: int, y: int) returns (iso: int)
    requires DayFromYear(y - 1) <= dn < DayFromYear(y)
    ensures InIsoYear(dn, iso)
    ensures iso == if dn >= DayFromYear(y) - 3 && dn >= IsoWeekOne(y + 1) then y + 1
                   else if dn < IsoWeekOne(y) then y - 1 else y
    ensures dn >= DayFromYear(y) - 3 ==> dn >= IsoWeekOne(y)
  {
    WeekOneNear(y);
    WeekOneNear(y + 1);
    IsoYearLength(y - 1);
    IsoYearLength(y + 1);
    YearLength(y - 1);
    PickYear(dn, DayFromYear(y - 1), DayFromYear(y), IsoWeekOne(y - 1), IsoWeekOne(y), IsoWeekOne(y + 1), IsoWeekOne(y + 2));
    iso := if dn >= DayFromYear(y) - 3 && dn >= IsoWeekOne(y + 1) then y + 1
           else if dn < IsoWeekOne(y) then y - 1 else y;
  }

  lemma IsoYearFound(dn: int)
    ensures
      var r := IsoWeekYear(dn);
      InIsoYear(dn, r.year) && IsoYear(dn) == r.year && r.week == (dn - IsoWeekOne(r.year)) / 7 + 1
  {
    hide DayFromYear, IsoWeekOne, BreakDayNum;
    var y := BreakDayNum(dn).year;
    CalendarYearSpan(dn);
    YearSpan(y);
    var iso := IsoYearPicked(dn, y);
    assert IsoWeekYear(dn).year == iso;
  }

  /** The case analysis of the two lookups over the bounds alone: January 1 of this year and
      the next, and the three week-one Mondays around them. */
  lemma PickYear(dn: int, jan: int, next: int, w0: int, w1: int, w2: int, w3: int)
    requires jan <= dn < next && jan + 365 <= next
    requires jan - 3 <= w1 <= jan + 3 && next - 3 <= w2 <= next + 3
    requires w0 + 364 <= w1 && w2 + 364 <= w3
    ensures
      if dn >= next - 3 && dn >= w2 then w2 <= dn < w3
      else if dn < w1 then w0 <= dn < w1 else w1 <= dn < w2
    ensures dn >= next - 3 ==> dn >= w1
  {
  }

  lemma WithinWeek(dn: int, monday: int)
    requires Weekday(monday) == 1 && monday <= dn
    ensures IsoWeekday(dn) == (dn - monday) % 7 + 1
  {
    var a, q, r := (monday + 1) / 7, (dn - monday) / 7, (dn - monday) % 7;
    assert monday + 1 == 7 * a + 1;
    assert dn - monday == 7 * q + r;
    if r == 6 {
      DivModUnique(dn + 1, 7, a + q + 1, 0);
    } else {
      DivModUnique(dn + 1, 7, a + q, r + 1);
    }
  }

  /** Conversely every week date that exists comes back from its day number. */
  lemma IsoDateRoundTrip(y: int, w: int, d: int)
    requires 1 <= d <= 7 && 1 <= w && 7 * w <= IsoWeekOne(y + 1) - IsoWeekOne(y)
    ensures
      var dn := MakeDayNumIso(y, w, d);
      IsoWeekYear(dn) == IsoWeek(w, y) && IsoWeekday(dn) == d
  {
    hide IsoWeekOne, IsoWeekYear, Weekday;
    var dn := MakeDayNumIso(y, w, d);
    IsoYearFound(dn);
    IsoYearUnique(dn, y, IsoWeekYear(dn).year);
    WeekOneIsMonday(y);
    WithinWeek(dn, IsoWeekOne(y));
    DivModUnique(dn - IsoWeekOne(y), 7, w - 1, d - 1);
  }

  // ---------------------------------------------------------------- the date object

  const TICKSPERDAY := 86400000000
  const DAYNUM_MAX := 365242500
  const DAYNUM_MIN := -365242500

  predicate InLimits(dn: int) {
    DAYNUM_MIN <= dn <= DAYNUM_MAX
  }

  /** The whole days in `df` ticks, rounded down. */
  function WholeDays(df: real): int {
    (df / TICKSPERDAY as real).Floor
  }

  /** A day number and a number of ticks within the day, which need not be whole. */
  class DateObject {
    var daynum: int
    var dayfrc: real

    constructor (dn: int, df: real)
      ensures daynum == dn && dayfrc == df
    {
      daynum, dayfrc := dn, df;
    }

    /** The instant meant, in ticks. */
    ghost function Instant(): real
      reads this
    {
      (daynum * TICKSPERDAY) as real + dayfrc
    }

    /** Carries whole days out of the fraction without moving the instant. The limits are
        checked on the day number from before the carry. */
    method Normalize() returns (ok: bool)
      modifies this
      ensures Instant() == old(Instant()) && 0.0 <= dayfrc < 86400000000.0
      ensures daynum == old(daynum) + WholeDays(old(dayfrc))
      ensures ok <==> -365242500 <= old(daynum) <= 365242500
    {
      var dn, df := daynum, dayfrc;
      var days := WholeDays(df);
      daynum, dayfrc := dn + days, df - (days * TICKSPERDAY) as real;
      ok := InLimits(dn);
    }

    /** Adds `n` units of `pt` ticks, `pd` of them to the day. */
    method AddDayFrc(n: real, pt: int, pd: int) returns (ok: bool)
      requires pt > 0 && pd > 0 && pt * pd == TICKSPERDAY
      requires 0.0 <= dayfrc < TICKSPERDAY as real
      modifies this
      ensures Instant() == old(Instant()) + n * pt as real && 0.0 <= dayfrc < TICKSPERDAY as real
      ensures ok <==> InLimits(old(daynum) + (n / pd as real).Floor)
      ensures ok ==> DAYNUM_MIN <= daynum <= DAYNUM_MAX + 1
    {
      var x := (n / pd as real).Floor;
      PartOfDay(n, pt, pd);
      daynum := daynum + x;
      dayfrc := dayfrc + (n - (x * pd) as real) * pt as real;
      ok := Normalize();
    }
  }

  lemma PartOfDay(n: real, pt: int, pd: int)
    requires pt > 0 && pd > 0 && pt * pd == TICKSPERDAY
    ensures
      var x := (n / pd as real).Floor;
      && 0.0 <= (n - (x * pd) as real) * pt as real < TICKSPERDAY as real
      && (x * TICKSPERDAY) as real + (n - (x * pd) as real) * pt as real == n * pt as real
  {
    var x, p, t := (n / pd as real).Floor, pd as real, pt as real;
    var r := n - x as real * p;
    assert n / p * p == n;
    assert x as real <= n / p < x as real + 1.0;
    assert x as real * p <= n / p * p;
    assert n / p * p < (x as real + 1.0) * p;
    assert (x as real + 1.0) * p == x as real * p + p;
    assert 0.0 <= r * t && r * t < p * t;
    assert x as real * (p * t) == (x as real * p) * t;
    assert (x as real * p + r) * t == (x as real * p) * t + r * t;
  }

  /** The limits are checked on day `dn`, before the ticks `df` are carried into it. An accepted
      date ends up outside the limits exactly when the ticks lead past the last day or before
      the first, and a refused one would have ended up inside exactly when they lead back. */
  lemma LimitCheckMissesCarry(dn: int, df: real)
    ensures InLimits(dn) ==>
              (!InLimits(dn + WholeDays(df)) <==>
               df >= ((DAYNUM_MAX - dn + 1) * TICKSPERDAY) as real || df < ((DAYNUM_MIN - dn) * TICKSPERDAY) as real)
    ensures !InLimits(dn) ==>
              (InLimits(dn + WholeDays(df)) <==>
               ((DAYNUM_MIN - dn) * TICKSPERDAY) as real <= df < ((DAYNUM_MAX - dn + 1) * TICKSPERDAY) as real)
  {
    CarryAtLeast(df, DAYNUM_MIN - dn);
    CarryAtLeast(df, DAYNUM_MAX - dn + 1);
  }

  lemma CarryAtLeast(df: real, k: int)
    ensures WholeDays(df) >= k <==> df >= (k * TICKSPERDAY) as real
  {
  }

  /** The check goes wrong in each of the four ways: a tick before the first day and two days
      after the last but one are accepted; a tick before the day after the last, and a day after
      the day before the first, are refused. */
  lemma MissedCarries()
    ensures InLimits(-365242500) && !InLimits(-365242500 + WholeDays(-1.0))
    ensures InLimits(365242499) && !InLimits(365242499 + WholeDays(172800000000.0))
    ensures !InLimits(365242501) && InLimits(365242501 + WholeDays(-1.0))
    ensures !InLimits(-365242501) && InLimits(-365242501 + WholeDays(86400000000.0))
  {
    LimitCheckMissesCarry(DAYNUM_MIN, -1.0);
    LimitCheckMissesCarry(DAYNUM_MAX - 1, (2 * TICKSPERDAY) as real);
    LimitCheckMissesCarry(DAYNUM_MAX + 1, -1.0);
    LimitCheckMissesCarry(DAYNUM_MIN - 1, TICKSPERDAY as real);
  }
}
