/** The civil-date arithmetic of the cron evaluator, against a calendar that is
    walked one day at a time from Thursday 1970-01-01. */
module Calendar {

  /** What `civil` works out from a timestamp. The source computes the year and
      drops it; it is kept here because it is half of what makes the walk a walk. */
  datatype Civil = Civil(year: int, month: int, day: int, hour: int, minute: int, weekday: int)

  datatype Date = Date(year: int, month: int, day: int, weekday: int)

  /** The constants are Hinnant's: days since 0000-03-01, 400-year eras, years
      that start in March. `/` and `%` here are the Euclidean ones the source asks
      for by name; every other operand is non-negative. */
  function CivilOf(ts: int): Civil {
    var days := ts / 86_400;
    var secs := ts % 86_400;
    var d := CivilDate(days);
    Civil(d.year, d.month, d.day, secs / 3600, secs % 3600 / 60, d.weekday)
  }

  function CivilDate(days: int): Date {
    var doe := Doe(days);
    var yoe := YearOfEra(doe);
    var y := yoe + Era(days) * 400;
    var doy := doe - (365 * yoe + yoe / 4 - yoe / 100);
    InMarchYear(y, doy, (days + 4) % 7)
  }

  function Era(days: int): int { (days + 719_468) / 146_097 }

  function Doe(days: int): int { (days + 719_468) % 146_097 }

  function YearOfEra(doe: int): int {
    (doe - doe / 1460 + doe / 36_524 - doe / 146_096) / 365
  }

  /** The date `doy` days into the March-based year `y`. */
  function InMarchYear(y: int, doy: int, weekday: int): Date {
    var mp := (5 * doy + 2) / 153;
    var day := doy - (153 * mp + 2) / 5 + 1;
    var month := if mp < 10 then mp + 3 else mp - 9;
    var year := y + if month <= 2 then 1 else 0;
    Date(year, month, day, weekday)
  }

  // ------------------------------------------------- the calendar, day by day

  predicate Leap(year: int) {
    year % 4 == 0 && (year % 100 != 0 || year % 400 == 0)
  }

  function MonthLength(year: int, month: int): int {
    if month == 2 then (if Leap(year) then 29 else 28)
    else if month == 4 || month == 6 || month == 9 || month == 11 then 30
    else 31
  }

  predicate RealDate(d: Date) {
    1 <= d.month <= 12 && 1 <= d.day <= MonthLength(d.year, d.month) && 0 <= d.weekday < 7
  }

  function NextDate(d: Date): Date {
    var w := (d.weekday + 1) % 7;
    if d.day < MonthLength(d.year, d.month) then Date(d.year, d.month, d.day + 1, w)
    else if d.month < 12 then Date(d.year, d.month + 1, 1, w)
    else Date(d.year + 1, 1, 1, w)
  }

  function PreviousDate(d: Date): Date {
    var w := (d.weekday + 6) % 7;
    if d.day > 1 then Date(d.year, d.month, d.day - 1, w)
    else if d.month > 1 then Date(d.year, d.month - 1, MonthLength(d.year, d.month - 1), w)
    else Date(d.year - 1, 12, 31, w)
  }

  const THE_EPOCH := Date(1970, 1, 1, 4)

  /** The date reached from the epoch by walking `n` days, backwards if negative. */
  function WalkedTo(n: int): Date
    decreases if n < 0 then -n else n
  {
    if n == 0 then THE_EPOCH
    else if n > 0 then NextDate(WalkedTo(n - 1))
    else PreviousDate(WalkedTo(n + 1))
  }

  function DateOf(c: Civil): Date {
    Date(c.year, c.month, c.day, c.weekday)
  }

  // ------------------------------------------------------------ the year step

  /** Days of an era before its `yoe`-th March. */
  function YearStart(yoe: int): int {
    365 * yoe + yoe / 4 - yoe / 100
  }

  function YearEnd(yoe: int): int {
    if yoe == 399 then 146_097 else YearStart(yoe + 1)
  }

  /** Centuries, then four-year cycles, then years, then days. */
  predicate Digits(doe: int, c: int, q: int, a: int, r: int) {
    && 0 <= c < 4 && 0 <= q < 25 && 0 <= a < 4 && 0 <= r
    && (r < 365 || (a == 3 && r == 365 && (q < 24 || c == 3)))
    && doe == 36_524 * c + 1461 * q + 365 * a + r
  }

  /** The three corrections in the formula are what turns the digits into 100c + 4q + a. */
  lemma YearOfEraFromDigits(doe: int, c: int, q: int, a: int, r: int)
    requires Digits(doe, c, q, a, r)
    ensures 0 <= doe < 146_097
    ensures YearOfEra(doe) == 100 * c + 4 * q + a
  {
    var e := if 24 * c + q + 365 * a + r >= 1460 then 1 else 0;
    assert doe == 1460 * (25 * c + q + e) + (24 * c + q + 365 * a + r - 1460 * e);
    assert doe / 1460 == 25 * c + q + e;
    if doe == 146_096 {
      assert doe / 36_524 == 4 && doe / 146_096 == 1;
    } else {
      assert doe / 36_524 == c && doe / 146_096 == 0;
    }
    assert doe - doe / 1460 + doe / 36_524 - doe / 146_096 == 365 * (100 * c + 4 * q + a) + r - e;
    assert 0 <= r - e < 365;
  }

  predicate InYear(doe: int, k: int) {
    0 <= k < 400 && YearStart(k) <= doe < YearEnd(k)
  }

  /** The year of the era that day `doe` is in, found by looking. */
  function YearFound(doe: int, from: int := 0): (k: int)
    requires 0 <= from < 400 && YearStart(from) <= doe < 146_097
    ensures InYear(doe, k)
    decreases 400 - from
  {
    if doe < YearEnd(from) then from else YearFound(doe, from + 1)
  }

  /** The formula finds it without looking. */
  lemma YearOfEraIsTheYear(doe: int)
    requires 0 <= doe < 146_097
    ensures YearOfEra(doe) == YearFound(doe)
  {
    YearOfEraIsInIt(doe);
    YearsDoNotOverlap(doe, YearOfEra(doe), YearFound(doe));
  }

  lemma DigitsOf(doe: int) returns (c: int, q: int, a: int, r: int)
    requires 0 <= doe < 146_097
    ensures Digits(doe, c, q, a, r)
  {
    c := if doe / 36_524 == 4 then 3 else doe / 36_524;
    var inCentury := doe - 36_524 * c;
    q := inCentury / 1461;
    var inCycle := inCentury - 1461 * q;
    a := if inCycle / 365 == 4 then 3 else inCycle / 365;
    r := inCycle - 365 * a;
  }

  lemma YearOfDigits(doe: int, c: int, q: int, a: int, r: int)
    requires Digits(doe, c, q, a, r)
    ensures InYear(doe, 100 * c + 4 * q + a)
  {
    var k := 100 * c + 4 * q + a;
    assert k / 4 == 25 * c + q && k / 100 == c;
  }

  lemma YearOfEraIsInIt(doe: int)
    requires 0 <= doe < 146_097
    ensures InYear(doe, YearOfEra(doe))
  {
    var c, q, a, r := DigitsOf(doe);
    YearOfEraFromDigits(doe, c, q, a, r);
    YearOfDigits(doe, c, q, a, r);
  }

  lemma YearsDoNotOverlap(doe: int, a: int, b: int)
    requires InYear(doe, a) && InYear(doe, b)
    ensures a == b
  {
  }

  // ------------------------------------------------------------- the day step

  /** A March-based year ends with the February of the next civil year. */
  function MarchYearLength(y: int): int {
    if Leap(y + 1) then 366 else 365
  }

  lemma By4(y: int, q: int)
    ensures (y + 4 * q) % 4 == y % 4
  {
  }

  lemma By100(y: int, q: int)
    ensures (y + 100 * q) % 100 == y % 100
  {
  }

  lemma By400(y: int, q: int)
    ensures (y + 400 * q) % 400 == y % 400
  {
  }

  lemma LeapRepeatsEveryEra(y: int, era: int)
    ensures Leap(y + 400 * era) == Leap(y)
  {
    By4(y, 100 * era);
    By100(y, 4 * era);
    By400(y, era);
  }

  lemma YearLengthIsLeap(yoe: int, era: int)
    requires 0 <= yoe < 400
    ensures YearEnd(yoe) - YearStart(yoe) == MarchYearLength(yoe + 400 * era)
  {
    LeapRepeatsEveryEra(yoe + 1, era);
    assert yoe + 400 * era + 1 == yoe + 1 + 400 * era;
    YearLengthInEra(yoe);
  }

  lemma YearLengthInEra(yoe: int)
    requires 0 <= yoe < 400
    ensures YearEnd(yoe) - YearStart(yoe) == MarchYearLength(yoe)
  {
    var next := yoe + 1;
    assert yoe / 100 == next / 100 - if next % 100 == 0 then 1 else 0;
    assert yoe / 4 == next / 4 - if next % 4 == 0 then 1 else 0;
  }

  lemma MarchDateIsReal(y: int, doy: int, w: int)
    requires 0 <= doy < MarchYearLength(y) && 0 <= w < 7
    ensures RealDate(InMarchYear(y, doy, w))
  {
  }

  /** Where each month starts, counting from the first of March. */
  function MonthStart(mp: int): int {
    (153 * mp + 2) / 5
  }

  lemma MonthSpans(doy: int)
    requires 0 <= doy < 366
    ensures var mp := (5 * doy + 2) / 153;
            0 <= mp < 12 && MonthStart(mp) <= doy < MonthStart(mp + 1) && doy + 1 <= MonthStart(mp + 1)
  {
  }

  lemma MonthLengths(y: int, mp: int)
    requires 0 <= mp < 11
    ensures var month := if mp < 10 then mp + 3 else mp - 9;
            MonthStart(mp + 1) - MonthStart(mp) == MonthLength(y, month)
  {
  }

  lemma MonthIs(doy: int, mp: int)
    requires 0 <= mp < 12 && 0 <= doy < 366
    requires MonthStart(mp) <= doy < MonthStart(mp + 1)
    ensures (5 * doy + 2) / 153 == mp
  {
  }

  lemma NextDayInYear(y: int, doy: int, w: int)
    requires 0 <= doy < MarchYearLength(y) - 1 && 0 <= w < 7
    ensures NextDate(InMarchYear(y, doy, w)) == InMarchYear(y, doy + 1, (w + 1) % 7)
  {
    var mp := (5 * doy + 2) / 153;
    MonthSpans(doy);
    if doy + 1 < MonthStart(mp + 1) {
      MonthIs(doy + 1, mp);
      if mp < 11 { MonthLengths(y, mp); }
    } else {
      assert mp < 11;
      MonthLengths(y, mp);
      MonthIs(doy + 1, mp + 1);
    }
  }

  lemma NextDayAcrossYears(y: int, w: int)
    requires 0 <= w < 7
    ensures NextDate(InMarchYear(y, MarchYearLength(y) - 1, w)) == InMarchYear(y + 1, 0, (w + 1) % 7)
  {
  }

  /** The year and day of year, counted from March, of day `n`. */
  function MarchYear(n: int): int { YearFound(Doe(n)) + 400 * Era(n) }

  function DayOfMarchYear(n: int): int { Doe(n) - YearStart(YearFound(Doe(n))) }

  lemma CivilIsInMarchYear(n: int)
    ensures CivilDate(n) == InMarchYear(MarchYear(n), DayOfMarchYear(n), (n + 4) % 7)
  {
    YearOfEraIsTheYear(Doe(n));
  }

  lemma EraStep(n: int)
    ensures DayTicks(Era(n), Doe(n), Era(n + 1), Doe(n + 1))
  {
  }

  /** The next day of the era, or the first of the next. */
  predicate DayTicks(era: int, doe: int, era': int, doe': int) {
    0 <= doe < 146_097
    && if doe == 146_096 then era' == era + 1 && doe' == 0 else era' == era && doe' == doe + 1
  }

  /** The next day belongs to the same March-based year, or is the first of the next. */
  lemma YearStep(era: int, doe: int, k: int, era': int, doe': int, k': int)
    requires InYear(doe, k) && InYear(doe', k') && DayTicks(era, doe, era', doe')
    ensures Ticks(k + 400 * era, doe - YearStart(k), k' + 400 * era', doe' - YearStart(k'))
  {
    YearLengthIsLeap(k, era);
    if doe == 146_096 {
      YearsDoNotOverlap(doe, k, 399);
      YearsDoNotOverlap(0, k', 0);
    } else {
      YearsDoNotOverlap(doe', k', if doe' < YearEnd(k) then k else k + 1);
    }
  }

  predicate Ticks(y: int, doy: int, y': int, doy': int) {
    0 <= doy < MarchYearLength(y)
    && if doy + 1 < MarchYearLength(y) then y' == y && doy' == doy + 1 else y' == y + 1 && doy' == 0
  }

  lemma NextMarchDay(y: int, doy: int, w: int, y': int, doy': int)
    requires Ticks(y, doy, y', doy') && 0 <= w < 7
    ensures InMarchYear(y', doy', (w + 1) % 7) == NextDate(InMarchYear(y, doy, w))
    ensures RealDate(InMarchYear(y, doy, w))
  {
    MarchDateIsReal(y, doy, w);
    if doy + 1 < MarchYearLength(y) {
      NextDayInYear(y, doy, w);
    } else {
      NextDayAcrossYears(y, w);
    }
  }

  lemma PreviousUndoesNext(d: Date)
    requires RealDate(d)
    ensures PreviousDate(NextDate(d)) == d
  {
  }

  ghost predicate YearsTick(year: int -> int, doy: int -> int) {
    forall k :: Ticks(year(k), doy(k), year(k + 1), doy(k + 1))
  }

  lemma CivilYearTicks(n: int)
    ensures Ticks(MarchYear(n), DayOfMarchYear(n), MarchYear(n + 1), DayOfMarchYear(n + 1))
  {
    var era, doe, era', doe' := Era(n), Doe(n), Era(n + 1), Doe(n + 1);
    EraStep(n);
    FoundYearTicks(era, doe, era', doe');
  }

  lemma FoundYearTicks(era: int, doe: int, era': int, doe': int)
    requires DayTicks(era, doe, era', doe')
    ensures Ticks(YearFound(doe) + 400 * era, doe - YearStart(YearFound(doe)),
                  YearFound(doe') + 400 * era', doe' - YearStart(YearFound(doe')))
  {
    YearStep(era, doe, YearFound(doe), era', doe', YearFound(doe'));
  }

  lemma CivilYearsTick()
    ensures YearsTick(MarchYear, DayOfMarchYear)
  {
    forall k ensures Ticks(MarchYear(k), DayOfMarchYear(k), MarchYear(k + 1), DayOfMarchYear(k + 1)) {
      CivilYearTicks(k);
    }
  }

  lemma OneStep(year: int -> int, doy: int -> int, n: int)
    requires YearsTick(year, doy)
    ensures InMarchYear(year(n + 1), doy(n + 1), (n + 5) % 7) == NextDate(InMarchYear(year(n), doy(n), (n + 4) % 7))
    ensures RealDate(InMarchYear(year(n), doy(n), (n + 4) % 7))
  {
    WeekdayTicks(n);
    NextMarchDay(year(n), doy(n), (n + 4) % 7, year(n + 1), doy(n + 1));
  }

  lemma WeekdayTicks(n: int)
    ensures ((n + 4) % 7 + 1) % 7 == (n + 5) % 7 && 0 <= (n + 4) % 7 < 7
  {
  }

  /** The date of the next day is the next date. */
  lemma CivilStep(n: int)
    ensures CivilDate(n + 1) == NextDate(CivilDate(n)) && RealDate(CivilDate(n))
  {
    CivilYearsTick();
    OneStep(MarchYear, DayOfMarchYear, n);
    CivilIsInMarchYear(n);
    CivilIsInMarchYear(n + 1);
  }

  lemma OneStepBack(year: int -> int, doy: int -> int, n: int)
    requires YearsTick(year, doy)
    ensures InMarchYear(year(n), doy(n), (n + 4) % 7) == PreviousDate(InMarchYear(year(n + 1), doy(n + 1), (n + 5) % 7))
  {
    OneStep(year, doy, n);
    PreviousUndoesNext(InMarchYear(year(n), doy(n), (n + 4) % 7));
  }

  /** Years that tick the way the formula's do, from where the epoch is, walk the calendar. */
  lemma {:induction false} YearsThatTickWalk(year: int -> int, doy: int -> int, n: int)
    requires YearsTick(year, doy)
    requires year(0) == 1969 && doy(0) == 306
    ensures InMarchYear(year(n), doy(n), (n + 4) % 7) == WalkedTo(n)
    decreases if n < 0 then -n else n
  {
    if n > 0 {
      YearsThatTickWalk(year, doy, n - 1);
      OneStep(year, doy, n - 1);
    } else if n < 0 {
      YearsThatTickWalk(year, doy, n + 1);
      OneStepBack(year, doy, n);
    }
  }

  /** The whole of `civil`, for every timestamp including the ones before 1970: the date
      and weekday are the walk's, and the clock reads the time elapsed since midnight. */
  lemma CivilIsTheCalendar(ts: int)
    ensures var c := CivilOf(ts);
            && DateOf(c) == WalkedTo(ts / 86_400)
            && 0 <= c.hour < 24 && 0 <= c.minute < 60
            && 0 <= ts - (86_400 * (ts / 86_400) + 3600 * c.hour + 60 * c.minute) < 60
  {
    var n := ts / 86_400;
    CivilYearsTick();
    YearsThatTickWalk(MarchYear, DayOfMarchYear, n);
    CivilIsInMarchYear(n);
    ClockOfDay(ts % 86_400);
  }

  lemma ClockOfDay(secs: int)
    requires 0 <= secs < 86_400
    ensures 0 <= secs / 3600 < 24 && 0 <= secs % 3600 / 60 < 60
    ensures 0 <= secs - (3600 * (secs / 3600) + 60 * (secs % 3600 / 60)) < 60
  {
  }
}
