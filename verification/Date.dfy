/** The enrolment-date codec: era arithmetic against a calendar that counts days one by one. */
module Date {
  import opened Consts

  /** The fields as the domain model holds them: a 32-bit year, and a month and a day nobody has checked. */
  datatype EnrollDate = EnrollDate(year: int, month: int, day: int)

  datatype Encoded = Encoded(julian: int) | OutOfRange(date: EnrollDate)

  datatype Decoded = Set(date: EnrollDate) | Unset

  const I32_MIN := -0x8000_0000
  const I32_MAX := 0x7fff_ffff
  const G_MININT32 := I32_MIN
  const EPOCH_OFFSET := 719_163

  predicate FitsI32(a: int) { I32_MIN <= a <= I32_MAX }

  predicate FitsI64(a: int) { -0x8000_0000_0000_0000 <= a <= 0x7fff_ffff_ffff_ffff }

  predicate Holds(d: EnrollDate) {
    FitsI32(d.year) && 0 <= d.month <= 255 && 0 <= d.day <= 255
  }

  // --- The codec ------------------------------------------------------------------------------

  /** The intermediate values of the day count. */
  datatype Steps = Steps(y: int, lifted: int, era: int, yoe: int, m: int, doy: int, doe: int, days: int)

  function CivilSteps(year: int, month: int, day: int): (s: Steps) {
    var y := year - if month <= 2 then 1 else 0;
    var lifted := if y >= 0 then y else y - 399;
    var era := TruncDiv(lifted, 400);
    var yoe := y - era * 400;
    var m := if month > 2 then month - 3 else month + 9;
    var doy := TruncDiv(153 * m + 2, 5) + day - 1;
    var doe := yoe * 365 + TruncDiv(yoe, 4) - TruncDiv(yoe, 100) + doy;
    Steps(y, lifted, era, yoe, m, doy, doe, era * 146097 + doe - 719468)
  }

  function DaysFromCivil(year: int, month: int, day: int): (z: int) {
    CivilSteps(year, month, day).days
  }

  /** A cast to eight bits. */
  function U8(a: int): (r: int)
    ensures 0 <= r <= 255 && (0 <= a <= 255 ==> r == a)
  {
    a % 256
  }

  /** The fields before they are cast to their widths. */
  function WideCivil(z0: int): (d: EnrollDate) {
    var z := z0 + 719468;
    var era := TruncDiv(if z >= 0 then z else z - 146096, 146097);
    InEra(era, z - era * 146097)
  }

  /** The date of day `doe` of an era. */
  function InEra(era: int, doe: int): (d: EnrollDate) {
    var yoe := TruncDiv(doe - TruncDiv(doe, 1460) + TruncDiv(doe, 36524) - TruncDiv(doe, 146096), 365);
    InYear(yoe + era * 400, doe - (365 * yoe + TruncDiv(yoe, 4) - TruncDiv(yoe, 100)))
  }

  /** The date of day `doy` of the year that begins in March of `y`. */
  function InYear(y: int, doy: int): (d: EnrollDate) {
    var mp := TruncDiv(5 * doy + 2, 153);
    var day := doy - TruncDiv(153 * mp + 2, 5) + 1;
    var month := if mp < 10 then mp + 3 else mp - 9;
    EnrollDate(y + if U8(month) <= 2 then 1 else 0, month, day)
  }

  function CivilFromDays(z: int): (d: EnrollDate) {
    var w := WideCivil(z);
    EnrollDate(Wrap32(w.year), U8(w.month), U8(w.day))
  }

  function ToJulian(date: EnrollDate): (r: Encoded) {
    var julian := DaysFromCivil(date.year, date.month, date.day) + EPOCH_OFFSET;
    if FitsI32(julian) && julian != G_MININT32 then Encoded(julian) else OutOfRange(date)
  }

  function FromJulian(julian: int): (r: Decoded) {
    if julian == G_MININT32 then Unset else Set(CivilFromDays(julian - EPOCH_OFFSET))
  }

  // --- The calendar, counted ------------------------------------------------------------------

  predicate IsLeap(year: int) {
    year % 4 == 0 && (year % 100 != 0 || year % 400 == 0)
  }

  function MonthLength(year: int, month: int): (n: int)
    requires 1 <= month <= 12
    ensures 28 <= n <= 31
  {
    if month == 2 then (if IsLeap(year) then 29 else 28)
    else if month == 4 || month == 6 || month == 9 || month == 11 then 30 else 31
  }

  /** A date the proleptic Gregorian calendar has. */
  predicate IsDate(d: EnrollDate) {
    1 <= d.month <= 12 && 1 <= d.day <= MonthLength(d.year, d.month)
  }

  function YearLength(year: int): (n: int) {
    if IsLeap(year) then 366 else 365
  }

  /** Days from 1970-01-01 to the first of the year, a year at a time in either direction. */
  function YearStart(year: int): (z: int)
    decreases if year >= 1970 then year - 1970 else 1970 - year
  {
    if year == 1970 then 0
    else if year > 1970 then YearStart(year - 1) + YearLength(year - 1)
    else YearStart(year + 1) - YearLength(year)
  }

  /** Days of the year before the first of the month. */
  function MonthStart(year: int, month: int): (z: int)
    requires 1 <= month <= 12
  {
    if month == 1 then 0 else MonthStart(year, month - 1) + MonthLength(year, month - 1)
  }

  function PlainDays(d: EnrollDate): (z: int)
    requires 1 <= d.month <= 12
  {
    YearStart(d.year) + MonthStart(d.year, d.month) + d.day - 1
  }

  function NextDay(d: EnrollDate): (r: EnrollDate)
    requires IsDate(d)
  {
    if d.day < MonthLength(d.year, d.month) then d.(day := d.day + 1)
    else if d.month < 12 then EnrollDate(d.year, d.month + 1, 1)
    else EnrollDate(d.year + 1, 1, 1)
  }

  // --- The day count is the calendar's --------------------------------------------------------

  /** Leap days up to the end of year `y`, counted by the rule's three terms. */
  function LeapDays(y: int): (n: int) {
    y / 4 - y / 100 + y / 400
  }

  lemma LeapDaysStep(y: int)
    ensures LeapDays(y) == LeapDays(y - 1) + if IsLeap(y) then 1 else 0
  {
    QuotientStep(y, 4);
    QuotientStep(y, 100);
    QuotientStep(y, 400);
  }

  lemma QuotientStep(y: int, n: int)
    requires n == 4 || n == 100 || n == 400
    ensures y / n == (y - 1) / n + if y % n == 0 then 1 else 0
  {
  }

  lemma {:induction false} YearStartIs(year: int)
    ensures YearStart(year) == 365 * (year - 1) + LeapDays(year - 1) - 719162
    decreases if year >= 1970 then year - 1970 else 1970 - year
  {
    if year > 1970 {
      YearStartIs(year - 1);
      LeapDaysStep(year - 1);
    } else if year < 1970 {
      YearStartIs(year + 1);
      LeapDaysStep(year);
    }
  }

  /** Months from March on come before the leap day, so their offsets do not see it. */
  lemma MonthStartIs(year: int, month: int)
    requires 1 <= month <= 12
    ensures var leap := if IsLeap(year) then 1 else 0;
      var shifted := (153 * (if month > 2 then month - 3 else month + 9) + 2) / 5;
      MonthStart(year, month) == if month > 2 then shifted + 59 + leap else shifted - 306
  {
    MonthTable(year);
  }

  lemma MonthTable(year: int)
    ensures var leap := if IsLeap(year) then 1 else 0;
      && MonthStart(year, 1) == 0 && MonthStart(year, 2) == 31
      && MonthStart(year, 3) == 59 + leap && MonthStart(year, 4) == 90 + leap
      && MonthStart(year, 5) == 120 + leap && MonthStart(year, 6) == 151 + leap
      && MonthStart(year, 7) == 181 + leap && MonthStart(year, 8) == 212 + leap
      && MonthStart(year, 9) == 243 + leap && MonthStart(year, 10) == 273 + leap
      && MonthStart(year, 11) == 304 + leap && MonthStart(year, 12) == 334 + leap
  {
    hide IsLeap;
    assert MonthStart(year, 3) == MonthStart(year, 2) + MonthLength(year, 2);
    assert MonthStart(year, 5) == MonthStart(year, 4) + MonthLength(year, 4);
    assert MonthStart(year, 7) == MonthStart(year, 6) + MonthLength(year, 6);
    assert MonthStart(year, 9) == MonthStart(year, 8) + MonthLength(year, 8);
    assert MonthStart(year, 11) == MonthStart(year, 10) + MonthLength(year, 10);
  }

  lemma EraIsFloor(y: int)
    ensures TruncDiv(if y >= 0 then y else y - 399, 400) == y / 400
  {
  }

  /** The era, and the year within it, put back together. */
  lemma EraDays(y: int)
    ensures var yoe := y - (y / 400) * 400;
      && 0 <= yoe <= 399
      && (y / 400) * 146097 + yoe * 365 + yoe / 4 - yoe / 100 == 365 * y + LeapDays(y)
  {
    var era, yoe := y / 400, y - (y / 400) * 400;
    assert y == 400 * era + yoe;
    assert y / 4 == 100 * era + yoe / 4;
    assert y / 100 == 4 * era + yoe / 100;
  }

  /** The day count in closed form; years begin in March. */
  lemma DaysFromCivilIs(year: int, month: int, day: int)
    requires 1 <= month <= 12
    ensures var y := year - if month <= 2 then 1 else 0;
      DaysFromCivil(year, month, day) ==
        365 * y + LeapDays(y) + (153 * (if month > 2 then month - 3 else month + 9) + 2) / 5 + day - 1 - 719468
  {
    var y := year - if month <= 2 then 1 else 0;
    hide LeapDays;
    EraIsFloor(y);
    EraDays(y);
  }

  /** The era arithmetic counts the days of the calendar, in every year, negative ones included. */
  lemma DaysFromCivilIsPlain(d: EnrollDate)
    requires 1 <= d.month <= 12
    ensures DaysFromCivil(d.year, d.month, d.day) == PlainDays(d)
  {
    hide IsLeap, LeapDays, YearStart, MonthStart, DaysFromCivil;
    DaysFromCivilIs(d.year, d.month, d.day);
    YearStartIs(d.year);
    MonthStartIs(d.year, d.month);
    LeapDaysStep(d.year);
  }

  /** The first of the next month or year follows the last of this one. */
  lemma NextDayIsOneLater(d: EnrollDate)
    requires IsDate(d)
    ensures IsDate(NextDay(d)) && PlainDays(NextDay(d)) == PlainDays(d) + 1
    ensures var n := NextDay(d); DaysFromCivil(n.year, n.month, n.day) == DaysFromCivil(d.year, d.month, d.day) + 1
  {
    hide DaysFromCivil;
    if d.month == 12 && d.day == 31 {
      YearStartIs(d.year);
      YearStartIs(d.year + 1);
      LeapDaysStep(d.year);
      MonthTable(d.year);
      hide LeapDays, YearStart;
    }
    DaysFromCivilIsPlain(d);
    DaysFromCivilIsPlain(NextDay(d));
  }

  // --- And back -------------------------------------------------------------------------------

  /** Days of an era before its year `n`, years beginning in March. */
  function EraYearStart(n: int): (z: int) {
    365 * n + n / 4 - n / 100
  }

  /** Whether the year of an era that begins in March of `n` ends with a leap day. */
  predicate EndsLeap(n: int) {
    (n + 1) % 4 == 0 && ((n + 1) % 100 != 0 || n + 1 == 400)
  }

  /** A day of an era by century, four-year cycle, year and day; the last day of each is its leap day. */
  lemma EraByCycles(doe: int) returns (c: int, q: int, y: int, doy: int)
    requires 0 <= doe <= 146096
    ensures 0 <= c <= 3 && 0 <= q <= 24 && 0 <= y <= 3 && 0 <= doy <= 365
    ensures doe == 36524 * c + 1461 * q + 365 * y + doy
    ensures doy == 365 ==> y == 3 && (q == 24 ==> c == 3)
    ensures doe / 36524 - doe / 146096 == c
  {
    c := if doe == 146096 then 3 else doe / 36524;
    var r := doe - 36524 * c;
    q := r / 1461;
    var s := r - 1461 * q;
    y := if s == 1460 then 3 else s / 365;
    doy := s - 365 * y;
  }

  lemma YearByCycles(c: int, q: int, y: int)
    requires 0 <= c <= 3 && 0 <= q <= 24 && 0 <= y <= 3
    ensures EraYearStart(100 * c + 4 * q + y) == 36524 * c + 1461 * q + 365 * y
    ensures y == 3 && (q == 24 ==> c == 3) ==> EndsLeap(100 * c + 4 * q + y)
  {
    var n := 100 * c + 4 * q + y;
    assert n / 4 == 25 * c + q && n / 100 == c;
    assert y == 3 ==> (n + 1) % 4 == 0 && (q < 24 ==> (n + 1) % 100 == 4 * q + 4);
  }

  /** The year within an era that a day falls in: the divisions take out just the leap days so far. */
  lemma YearOfEra(doe: int) returns (yoe: int)
    requires 0 <= doe <= 146096
    ensures yoe == (doe - doe / 1460 + doe / 36524 - doe / 146096) / 365
    ensures 0 <= yoe <= 399 && 0 <= doe - EraYearStart(yoe) <= 365
    ensures doe - EraYearStart(yoe) == 365 ==> EndsLeap(yoe)
  {
    var c, q, y, doy := EraByCycles(doe);
    yoe := 100 * c + 4 * q + y;
    YearByCycles(c, q, y);
    CyclesOf1460(doe, c, q, y, doy);
    assert doe - doe / 1460 + c == 365 * yoe + doy || doe - doe / 1460 + c == 365 * yoe + doy - 1;
  }

  lemma CyclesOf1460(doe: int, c: int, q: int, y: int, doy: int)
    requires 0 <= c <= 3 && 0 <= q <= 24 && 0 <= y <= 3 && 0 <= doy <= 365 && (doy == 365 ==> y == 3)
    requires doe == 36524 * c + 1461 * q + 365 * y + doy
    ensures var k, over := 25 * c + q, 24 * c + q + 365 * y + doy;
      doe / 1460 == if over < 1460 then k else k + 1
  {
    var k, over := 25 * c + q, 24 * c + q + 365 * y + doy;
    assert doe == 1460 * k + over && 0 <= over < 2920;
  }

  /** The month and day of a day of the year, years beginning in March. */
  lemma InYearIs(y: int, doy: int) returns (mp: int)
    requires 0 <= doy <= 365
    ensures var d := InYear(y, doy);
      && 0 <= mp <= 11 && doy == (153 * mp + 2) / 5 + d.day - 1 && 1 <= d.day
      && d.month == (if mp < 10 then mp + 3 else mp - 9) && d.year == y + (if d.month <= 2 then 1 else 0)
      && (mp < 11 ==> d.day <= if mp == 1 || mp == 3 || mp == 6 || mp == 8 then 30 else 31)
      && (mp == 11 ==> d.day <= 29 && (d.day == 29 ==> doy == 365))
  {
    mp := (5 * doy + 2) / 153;
  }

  lemma EraOfDay(z: int)
    ensures var era := TruncDiv(if z >= 0 then z else z - 146096, 146097); 0 <= z - era * 146097 <= 146096
  {
  }

  lemma EraDivisions(doe: int, yoe: int)
    requires 0 <= doe && yoe == (doe - doe / 1460 + doe / 36524 - doe / 146096) / 365 && 0 <= yoe
    ensures yoe == TruncDiv(doe - TruncDiv(doe, 1460) + TruncDiv(doe, 36524) - TruncDiv(doe, 146096), 365)
    ensures EraYearStart(yoe) == 365 * yoe + TruncDiv(yoe, 4) - TruncDiv(yoe, 100)
  {
  }

  /** A day count as era, year of the era, and day of the year. */
  lemma WideCivilIs(z: int) returns (era: int, yoe: int, doy: int)
    ensures z + 719468 == era * 146097 + EraYearStart(yoe) + doy
    ensures 0 <= yoe <= 399 && 0 <= doy <= 365 && (doy == 365 ==> EndsLeap(yoe))
    ensures WideCivil(z) == InYear(yoe + era * 400, doy)
  {
    hide EndsLeap, TruncDiv, EraYearStart, InYear;
    var z1 := z + 719468;
    EraOfDay(z1);
    era := TruncDiv(if z1 >= 0 then z1 else z1 - 146096, 146097);
    var doe := z1 - era * 146097;
    yoe := YearOfEra(doe);
    EraDivisions(doe, yoe);
    doy := doe - EraYearStart(yoe);
  }

  lemma EraOfYear(era: int, yoe: int)
    requires 0 <= yoe <= 399
    ensures 365 * (yoe + era * 400) + LeapDays(yoe + era * 400) == era * 146097 + EraYearStart(yoe)
  {
    var y := yoe + era * 400;
    assert y / 400 == era;
    EraDays(y);
  }

  lemma LeapEndsEraYear(era: int, yoe: int)
    requires 0 <= yoe <= 399 && EndsLeap(yoe)
    ensures IsLeap(yoe + era * 400 + 1)
  {
    FullEras(yoe + 1, era);
  }

  lemma FullEras(a: int, era: int)
    ensures (a + era * 400) % 4 == a % 4 && (a + era * 400) % 100 == a % 100 && (a + era * 400) % 400 == a % 400
  {
    Remainder4(a + era * 400, a / 4 + 100 * era);
    Remainder100(a + era * 400, a / 100 + 4 * era);
    Remainder400(a + era * 400, a / 400 + era);
  }

  lemma Remainder4(x: int, q: int)
    requires 0 <= x - 4 * q < 4
    ensures x % 4 == x - 4 * q
  {
  }

  lemma Remainder100(x: int, q: int)
    requires 0 <= x - 100 * q < 100
    ensures x % 100 == x - 100 * q
  {
  }

  lemma Remainder400(x: int, q: int)
    requires 0 <= x - 400 * q < 400
    ensures x % 400 == x - 400 * q
  {
  }

  /** Every day count decodes to a date the calendar has, and that date counts back to it. */
  lemma WideCivilIsInverse(z: int)
    ensures var d := WideCivil(z); IsDate(d) && DaysFromCivil(d.year, d.month, d.day) == z
  {
    hide DaysFromCivil, EraYearStart, LeapDays, WideCivil, EndsLeap, IsLeap, InYear;
    var era, yoe, doy := WideCivilIs(z);
    var d := WideCivil(z);
    var mp := InYearIs(yoe + era * 400, doy);
    EraOfYear(era, yoe);
    if doy == 365 { LeapEndsEraYear(era, yoe); }
    DaysFromCivilIs(d.year, d.month, d.day);
  }

  // --- Order ----------------------------------------------------------------------------------

  predicate Before(a: EnrollDate, b: EnrollDate) {
    || a.year < b.year
    || (a.year == b.year && a.month < b.month)
    || (a.year == b.year && a.month == b.month && a.day < b.day)
  }

  lemma {:induction false} YearStartsRise(a: int, b: int)
    requires a < b
    ensures YearStart(a) + YearLength(a) <= YearStart(b)
    decreases b - a
  {
    YearStartIs(a);
    YearStartIs(a + 1);
    LeapDaysStep(a);
    if a + 1 < b {
      YearStartsRise(a + 1, b);
    }
  }

  lemma DateWithinYear(d: EnrollDate)
    requires IsDate(d)
    ensures YearStart(d.year) <= PlainDays(d) < YearStart(d.year) + YearLength(d.year)
  {
    MonthTable(d.year);
    hide YearStart, MonthStart;
  }

  lemma MonthsRise(year: int, a: int, b: int)
    requires 1 <= a < b <= 12
    ensures MonthStart(year, a) + MonthLength(year, a) <= MonthStart(year, b)
  {
    MonthTable(year);
    hide MonthStart;
  }

  /** A later date has the larger day count. */
  lemma CountRises(a: EnrollDate, b: EnrollDate)
    requires IsDate(a) && IsDate(b) && Before(a, b)
    ensures PlainDays(a) < PlainDays(b)
    ensures DaysFromCivil(a.year, a.month, a.day) < DaysFromCivil(b.year, b.month, b.day)
  {
    hide DaysFromCivil, YearStart, MonthStart, MonthLength, YearLength;
    DaysFromCivilIsPlain(a);
    DaysFromCivilIsPlain(b);
    if a.year < b.year {
      YearStartsRise(a.year, b.year);
      DateWithinYear(a);
      DateWithinYear(b);
    } else if a.month < b.month {
      MonthsRise(a.year, a.month, b.month);
    }
  }

  /** A date survives the day count and back. */
  lemma CountIsReversible(d: EnrollDate)
    requires IsDate(d)
    ensures WideCivil(DaysFromCivil(d.year, d.month, d.day)) == d
  {
    hide DaysFromCivil, WideCivil, IsDate;
    var e := WideCivil(DaysFromCivil(d.year, d.month, d.day));
    WideCivilIsInverse(DaysFromCivil(d.year, d.month, d.day));
    if Before(d, e) { CountRises(d, e); }
    if Before(e, d) { CountRises(e, d); }
  }

  // --- The wire's range -----------------------------------------------------------------------

  const FIRST := EnrollDate(-5879610, 6, 23)
  const LAST := EnrollDate(5879611, 7, 11)

  lemma EndsOfRange()
    ensures IsDate(FIRST) && DaysFromCivil(FIRST.year, FIRST.month, FIRST.day) + EPOCH_OFFSET == I32_MIN + 1
    ensures IsDate(LAST) && DaysFromCivil(LAST.year, LAST.month, LAST.day) + EPOCH_OFFSET == I32_MAX
  {
    assert IsDate(FIRST) && IsDate(LAST);
    hide IsDate;
    EraIsFloor(FIRST.year);
    EraIsFloor(LAST.year);
    assert CivilSteps(-5879610, 6, 23).era == -14700 && CivilSteps(5879611, 7, 11).era == 14699;
  }

  /** A date has an encoding exactly when it lies between the two ends, to the day. */
  lemma EncodableExactly(d: EnrollDate)
    requires IsDate(d)
    ensures ToJulian(d).Encoded? <==> !Before(d, FIRST) && !Before(LAST, d)
  {
    EndsOfRange();
    hide DaysFromCivil, IsDate;
    if Before(d, FIRST) { CountRises(d, FIRST); }
    if Before(FIRST, d) { CountRises(FIRST, d); }
    if Before(d, LAST) { CountRises(d, LAST); }
    if Before(LAST, d) { CountRises(LAST, d); }
  }

  lemma EncodingRises(a: EnrollDate, b: EnrollDate)
    requires IsDate(a) && IsDate(b) && ToJulian(a).Encoded? && ToJulian(b).Encoded?
    ensures ToJulian(a).julian < ToJulian(b).julian <==> Before(a, b)
  {
    hide DaysFromCivil, IsDate;
    if Before(a, b) { CountRises(a, b); }
    if Before(b, a) { CountRises(b, a); }
  }

  /** No cast loses anything on a day count the wire can hold. */
  lemma CastsAreExact(julian: int)
    requires FitsI32(julian)
    ensures CivilFromDays(julian - EPOCH_OFFSET) == WideCivil(julian - EPOCH_OFFSET)
    ensures FitsI32(WideCivil(julian - EPOCH_OFFSET).year)
  {
    hide DaysFromCivil, WideCivil, EraYearStart, EndsLeap, InYear;
    var z := julian - EPOCH_OFFSET;
    WideCivilIsInverse(z);
    var era, yoe, doy := WideCivilIs(z);
    var mp := InYearIs(yoe + era * 400, doy);
    EraStartBounds(yoe);
    assert -14_710 <= era <= 14_710;
  }

  lemma EraStartBounds(yoe: int)
    requires 0 <= yoe <= 399
    ensures 0 <= EraYearStart(yoe) <= 146_097
  {
  }

  /** Encoding then decoding gives the date back. */
  lemma EncodeDecode(d: EnrollDate)
    requires IsDate(d) && ToJulian(d).Encoded?
    ensures FromJulian(ToJulian(d).julian) == Set(d)
  {
    hide DaysFromCivil, WideCivil, CivilFromDays, IsDate;
    CountIsReversible(d);
    CastsAreExact(ToJulian(d).julian);
  }

  /** Decoding then encoding gives the number back, for every 32-bit number but the sentinel. */
  lemma DecodeEncode(julian: int)
    requires FitsI32(julian)
    ensures julian == G_MININT32 ==> FromJulian(julian) == Unset
    ensures julian != G_MININT32 ==>
      && FromJulian(julian).Set? && IsDate(FromJulian(julian).date) && FitsI32(FromJulian(julian).date.year)
      && ToJulian(FromJulian(julian).date) == Encoded(julian)
  {
    hide DaysFromCivil, WideCivil, CivilFromDays, IsDate;
    CastsAreExact(julian);
    WideCivilIsInverse(julian - EPOCH_OFFSET);
  }

  /** Whatever the fields hold, no intermediate value leaves 64 bits. */
  lemma NoStepOverflows(d: EnrollDate)
    requires Holds(d)
    ensures var s := CivilSteps(d.year, d.month, d.day);
      && FitsI64(s.y) && FitsI64(s.lifted) && FitsI64(s.era) && FitsI64(s.era * 400) && FitsI64(s.yoe)
      && FitsI64(153 * s.m + 2) && FitsI64(s.doy) && FitsI64(s.yoe * 365) && FitsI64(s.doe)
      && FitsI64(s.era * 146097) && FitsI64(s.era * 146097 + s.doe) && FitsI64(s.days) && FitsI64(s.days + EPOCH_OFFSET)
  {
    hide TruncDiv;
    var s := CivilSteps(d.year, d.month, d.day);
    EraIsFloor(s.y);
    TruncIsSmaller(153 * s.m + 2, 5);
    TruncIsSmaller(s.yoe, 4);
    TruncIsSmaller(s.yoe, 100);
  }

  lemma TruncIsSmaller(a: int, n: int)
    requires a >= 0 && (n == 4 || n == 5 || n == 100)
    ensures 0 <= TruncDiv(a, n) <= a
  {
  }
}
