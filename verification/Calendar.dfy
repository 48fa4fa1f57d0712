// Day counts to civil dates, without a calendar library (src/reconcile/conflict.rs).
module Calendar {

  // Rust's `as i32`
  function WrapI32(x: int): int {
    (x + 0x8000_0000) % 0x1_0000_0000 - 0x8000_0000
  }

  datatype Date = Date(year: int, month: int, day: int)

  function YearInEra(doe: int): int {
    (doe - doe / 1460 + doe / 36524 - doe / 146096) / 365
  }

  // `civil_from_days`; every division below has a non-negative numerator except the first,
  // which is `div_euclid`. Where the last `y + 1` overflows, a build without overflow checks wraps.
  function CivilFromDays(days: int): (t: Date)
    ensures 1 <= t.month <= 12 && 1 <= t.day <= 31
  {
    DayOfYearBounds(days);
    var z := days + 719468;
    var era := z / 146097;
    var doe := z - era * 146097;
    var yoe := YearInEra(doe);
    var y := WrapI32(yoe + era * 400);
    var doy := doe - (365 * yoe + yoe / 4 - yoe / 100);
    var mp := (5 * doy + 2) / 153;
    var d := doy - (153 * mp + 2) / 5 + 1;
    var m := if mp < 10 then mp + 3 else mp - 9;
    Date(if m <= 2 then WrapI32(y + 1) else y, m, d)
  }

  // The Gregorian calendar (section 3.2.1 of ISO 8601:2004).
  predicate Leap(y: int) {
    y % 4 == 0 && (y % 100 != 0 || y % 400 == 0)
  }

  function DaysInYear(y: int): int { if Leap(y) then 366 else 365 }

  function DaysInMonth(y: int, m: int): int {
    if m == 2 then (if Leap(y) then 29 else 28)
    else if m == 4 || m == 6 || m == 9 || m == 11 then 30
    else 31
  }

  predicate ValidDate(t: Date) {
    1 <= t.month <= 12 && 1 <= t.day <= DaysInMonth(t.year, t.month)
  }

  // Counting years one by one from 1970.
  function DaysBeforeYear(y: int): int
    decreases if y < 1970 then 1970 - y else y - 1970
  {
    if y == 1970 then 0
    else if y > 1970 then DaysBeforeYear(y - 1) + DaysInYear(y - 1)
    else DaysBeforeYear(y + 1) - DaysInYear(y)
  }

  function DaysBeforeMonth(y: int, m: int): int
    requires 1 <= m <= 12
  {
    if m == 1 then 0 else DaysBeforeMonth(y, m - 1) + DaysInMonth(y, m - 1)
  }

  function DayNumber(t: Date): int
    requires 1 <= t.month <= 12
  {
    DaysBeforeYear(t.year) + DaysBeforeMonth(t.year, t.month) + t.day - 1
  }

  function LeapsThrough(y: int): int { y / 4 - y / 100 + y / 400 }

  lemma QuotientSteps(y: int)
    ensures y / 4 - (y - 1) / 4 == if y % 4 == 0 then 1 else 0
    ensures y / 100 - (y - 1) / 100 == if y % 100 == 0 then 1 else 0
    ensures y / 400 - (y - 1) / 400 == if y % 400 == 0 then 1 else 0
  {
  }

  lemma CenturiesAreMultiplesOfFour(y: int)
    ensures y % 100 == 0 ==> y % 4 == 0
    ensures y % 400 == 0 ==> y % 100 == 0
  {
    if y % 100 == 0 { assert y == 4 * (25 * (y / 100)); }
    if y % 400 == 0 { assert y == 100 * (4 * (y / 400)); }
  }

  lemma LeapsStep(y: int)
    ensures LeapsThrough(y) - LeapsThrough(y - 1) == if Leap(y) then 1 else 0
  {
    QuotientSteps(y);
    CenturiesAreMultiplesOfFour(y);
  }

  lemma {:induction false} YearsInClosedForm(y: int)
    ensures DaysBeforeYear(y) == 365 * y + LeapsThrough(y - 1) - 719527
    decreases if y < 1970 then 1970 - y else y - 1970
  {
    if y > 1970 {
      YearsInClosedForm(y - 1);
      LeapsStep(y - 1);
    } else if y < 1970 {
      YearsInClosedForm(y + 1);
      LeapsStep(y);
    }
  }

  lemma MonthsInClosedForm(y: int, m: int)
    requires 1 <= m <= 12
    ensures DaysBeforeMonth(y, m) ==
      [0, 31, 59, 90, 120, 151, 181, 212, 243, 273, 304, 334][m - 1] + if m > 2 && Leap(y) then 1 else 0
  {
    if m > 1 {
      MonthsInClosedForm(y, m - 1);
    }
  }

  // Centuries, four-year cycles and years since the start of the era (1 March of year 0).
  lemma SplitEra(doe: int) returns (c: int, q: int, a: int, r: int)
    requires 0 <= doe < 146097
    ensures 0 <= c <= 3 && 0 <= q <= 24 && 0 <= a <= 3 && 0 <= r <= 365
    ensures doe == 36524 * c + 1461 * q + 365 * a + r
    ensures r == 365 ==> a == 3 && (q < 24 || c == 3)
  {
    c := if doe / 36524 > 3 then 3 else doe / 36524;
    var rest := doe - 36524 * c;
    q := rest / 1461;
    var days := rest - 1461 * q;
    a := if days / 365 > 3 then 3 else days / 365;
    r := days - 365 * a;
  }

  // The closed formula finds the year that contains the day.
  lemma YearOfEra(doe: int, c: int, q: int, a: int, r: int)
    requires 0 <= c <= 3 && 0 <= q <= 24 && 0 <= a <= 3 && 0 <= r <= 365
    requires doe == 36524 * c + 1461 * q + 365 * a + r
    requires r == 365 ==> a == 3 && (q < 24 || c == 3)
    ensures YearInEra(doe) == 100 * c + 4 * q + a
    ensures var y := 100 * c + 4 * q + a; doe - (365 * y + y / 4 - y / 100) == r
  {
    var y := 100 * c + 4 * q + a;
    assert y / 4 == 25 * c + q;
    assert y / 100 == c;
    var t := 24 * c + q + 365 * a + r;
    assert doe == 1460 * (25 * c + q) + t;
    assert doe / 1460 == 25 * c + q + (if t >= 1460 then 1 else 0);
    assert doe / 36524 == (if doe == 146096 then 4 else c);
    assert doe / 146096 == (if doe == 146096 then 1 else 0);
    assert doe - doe / 1460 + doe / 36524 - doe / 146096 == 365 * y + r - (if t >= 1460 then 1 else 0);
  }

  // The year that starts on 1 March, before the i32 cast.
  function MarchYear(days: int): int {
    var z := days + 719468;
    var era := z / 146097;
    var doe := z - era * 146097;
    YearInEra(doe) + era * 400
  }

  predicate FitsI32(x: int) { -0x8000_0000 <= x < 0x8000_0000 }

  // ... and the civil year of the day: January and February belong to the next one.
  function CivilYear(days: int): int {
    var z := days + 719468;
    var doe := z - z / 146097 * 146097;
    var yoe := YearInEra(doe);
    MarchYear(days) + if (5 * (doe - (365 * yoe + yoe / 4 - yoe / 100)) + 2) / 153 < 10 then 0 else 1
  }

  // Both the cast and the final `y + 1` stay within the i32.
  predicate YearFits(days: int) { FitsI32(MarchYear(days)) && FitsI32(CivilYear(days)) }

  // Month and day within a March-based year, from the linear month formula.
  lemma MonthOfMarchYear(doy: int)
    requires 0 <= doy <= 365
    ensures var mp := (5 * doy + 2) / 153;
      var d := doy - (153 * mp + 2) / 5 + 1;
      && 0 <= mp <= 11
      && doy == [0, 31, 61, 92, 122, 153, 184, 214, 245, 275, 306, 337][mp] + d - 1
      && 1 <= d <= [31, 30, 31, 30, 31, 31, 30, 31, 30, 31, 31, 29][mp]
  {
  }

  lemma MarchFirst(era: int, c: int, q: int, a: int, r: int)
    requires 0 <= c <= 3 && 0 <= q <= 24 && 0 <= a <= 3 && 0 <= r <= 365
    ensures var y := 100 * c + 4 * q + a + 400 * era;
      LeapsThrough(y) == 97 * era + 25 * c + q - c
    ensures Leap(100 * c + 4 * q + a + 400 * era + 1) <==> a == 3 && (q < 24 || c == 3)
  {
    var y := 100 * c + 4 * q + a + 400 * era;
    assert y / 4 == 100 * era + 25 * c + q;
    assert y / 100 == 4 * era + c;
    assert y / 400 == era;
    LeapsStep(y + 1);
    assert (y + 1) / 4 == 100 * era + 25 * c + q + (if a == 3 then 1 else 0);
    assert (y + 1) / 100 == 4 * era + c + (if a == 3 && q == 24 then 1 else 0);
    assert (y + 1) / 400 == era + (if a == 3 && q == 24 && c == 3 then 1 else 0);
  }

  // The date of day r in the year that starts on 1 March of y.
  function MarchDate(y: int, r: int): Date {
    var mp := (5 * r + 2) / 153;
    Date(if mp < 10 then y else y + 1, if mp < 10 then mp + 3 else mp - 9, r - (153 * mp + 2) / 5 + 1)
  }

  lemma MarchDateIsNumbered(y: int, r: int)
    requires 0 <= r <= 365 && (r == 365 ==> Leap(y + 1))
    ensures ValidDate(MarchDate(y, r))
    ensures DayNumber(MarchDate(y, r)) == 365 * y + LeapsThrough(y) + r - 719468
  {
    hide LeapsThrough, Leap, DaysBeforeYear, DaysBeforeMonth;
    MonthOfMarchYear(r);
    var t := MarchDate(y, r);
    YearsInClosedForm(t.year);
    MonthsInClosedForm(t.year, t.month);
    LeapsStep(y);
  }

  lemma WrapFits(x: int)
    requires FitsI32(x)
    ensures WrapI32(x) == x
  {
  }

  lemma CivilIsMarchDate(days: int) returns (y: int, r: int)
    requires YearFits(days)
    ensures y == MarchYear(days) && CivilFromDays(days) == MarchDate(y, r)
    ensures 0 <= r <= 365 && (r == 365 ==> Leap(y + 1))
    ensures days == 365 * y + LeapsThrough(y) + r - 719468
  {
    var z := days + 719468;
    var era := z / 146097;
    var doe := z - era * 146097;
    var c, q, a, r' := SplitEra(doe);
    YearOfEra(doe, c, q, a, r');
    MarchFirst(era, c, q, a, r');
    y, r := MarchYear(days), r';
    WrapFits(y);
    WrapFits(CivilYear(days));
    hide YearInEra, Leap, LeapsThrough, WrapI32;
  }

  lemma DayOfYearBounds(days: int)
    ensures var doe := days + 719468 - (days + 719468) / 146097 * 146097;
      var yoe := YearInEra(doe);
      0 <= doe - (365 * yoe + yoe / 4 - yoe / 100) <= 365
  {
    var doe := days + 719468 - (days + 719468) / 146097 * 146097;
    var c, q, a, r := SplitEra(doe);
    YearOfEra(doe, c, q, a, r);
  }

  // Every day count whose year fits an i32 maps to the one Gregorian date it numbers.
  lemma CivilInverse(days: int)
    requires YearFits(days)
    ensures ValidDate(CivilFromDays(days))
    ensures DayNumber(CivilFromDays(days)) == days
  {
    hide *;
    var y, r := CivilIsMarchDate(days);
    MarchDateIsNumbered(y, r);
  }
}
