/** Dates as year-month-day numbers and as days since 1970-01-01. */
module Calendar {
  /** A date as a decimal number YYYYMMDD; zero means absent. Nothing forces it to be a real date. */
  type Date = nat

  function Year(v: Date): nat {
    v / 10000
  }

  function Month(v: Date): nat {
    v / 100 % 100
  }

  function Day(v: Date): nat {
    v % 100
  }

  function FromYmd(y: int, m: int, d: int): int {
    y * 10000 + m * 100 + d
  }

  /** Days before month `mp` of a year counted from March, `mp` from 0. */
  function MonthDays(mp: int): int {
    (153 * mp + 2) / 5
  }

  function FromMarch(m: nat): int {
    if m > 2 then m - 3 else m + 9
  }

  /** Days from the start of a 400-year era to the start of its year `yoe`. */
  function YearDays(yoe: int): int {
    yoe * 365 + yoe / 4 - yoe / 100
  }

  /** Days since 1970-01-01 of the `d`-th of month `m`: any numbers are accepted. */
  function DayIndexOf(year: nat, m: nat, d: nat): int {
    var y := if m <= 2 then year - 1 else year;
    var era := y / 400;
    era * 146097 + YearDays(y - era * 400) + MonthDays(FromMarch(m)) + d - 1 - 719468
  }

  function DayIndex(v: Date): int {
    DayIndexOf(Year(v), Month(v), Day(v))
  }

  function YearOfEra(doe: int): int {
    (doe - doe / 1460 + doe / 36524 - doe / 146096) / 365
  }

  function FromDayIndex(index: int): int {
    var z := index + 719468;
    var era := z / 146097;
    var doe := z - era * 146097;
    var yoe := YearOfEra(doe);
    var doy := doe - YearDays(yoe);
    var mp := (5 * doy + 2) / 153;
    var d := doy - MonthDays(mp) + 1;
    var m := if mp < 10 then mp + 3 else mp - 9;
    FromYmd(yoe + era * 400 + (if m <= 2 then 1 else 0), m, d)
  }

  // ---------------------------------------------------------------- real dates

  predicate Leap(y: int) {
    y % 4 == 0 && (y % 100 != 0 || y % 400 == 0)
  }

  function DaysIn(y: int, m: nat): nat {
    if m == 2 then (if Leap(y) then 29 else 28)
    else if m == 4 || m == 6 || m == 9 || m == 11 then 30
    else 31
  }

  predicate RealDate(v: Date) {
    1 <= Month(v) <= 12 && 1 <= Day(v) <= DaysIn(Year(v), Month(v))
  }

  lemma DateParts(v: Date)
    ensures v == FromYmd(Year(v), Month(v), Day(v)) && Month(v) < 100 && Day(v) < 100
  {
  }

  lemma DivideBy(x: int, b: int, q: int, r: int)
    requires 0 <= r < b && x == b * q + r
    ensures x / b == q && x % b == r
  {
    var d := q - x / b;
    assert b * d == b * q - b * (x / b);
    assert b * d == x % b - r;
    if d >= 1 || d <= -1 {
      assert false;
    }
  }

  /** The day of a year counted from March; the last day, 365, exists only before a leap year's March. */
  lemma DayOfYear(y: int, m: nat, d: nat)
    requires 1 <= m <= 12 && 1 <= d <= DaysIn(y, m)
    ensures var doy := MonthDays(FromMarch(m)) + d - 1;
            && 0 <= doy <= 365 && (doy == 365 ==> m == 2 && Leap(y))
            && (5 * doy + 2) / 153 == FromMarch(m)
  {
    hide Leap;
  }

  /** A position within an era, as centuries, olympiads, years and days, gives back its year. */
  lemma EraYear(c: int, q: int, r: int, doy: int)
    requires 0 <= c < 4 && 0 <= q < 25 && 0 <= r < 4 && 0 <= doy <= 365
    requires doy == 365 ==> r == 3 && (q < 24 || c == 3)
    ensures var yoe := 100 * c + 4 * q + r;
            && YearDays(yoe) == 36524 * c + 1461 * q + 365 * r
            && 0 <= YearDays(yoe) + doy < 146097
            && YearOfEra(YearDays(yoe) + doy) == yoe
  {
    hide YearDays, YearOfEra;
    EraDays(c, q, r);
    EraYearOf(c, q, r, doy);
  }

  lemma EraDays(c: int, q: int, r: int)
    requires 0 <= c < 4 && 0 <= q < 25 && 0 <= r < 4
    ensures YearDays(100 * c + 4 * q + r) == 36524 * c + 1461 * q + 365 * r
  {
    var yoe := 100 * c + 4 * q + r;
    DivideBy(yoe, 4, 25 * c + q, r);
    DivideBy(yoe, 100, c, 4 * q + r);
  }

  lemma EraYearOf(c: int, q: int, r: int, doy: int)
    requires 0 <= c < 4 && 0 <= q < 25 && 0 <= r < 4 && 0 <= doy <= 365
    requires doy == 365 ==> r == 3 && (q < 24 || c == 3)
    ensures YearOfEra(36524 * c + 1461 * q + 365 * r + doy) == 100 * c + 4 * q + r
  {
    var yoe := 100 * c + 4 * q + r;
    var doe := 36524 * c + 1461 * q + 365 * r + doy;
    var e := 24 * c + q + 365 * r + doy;
    var last := if e >= 1460 then 1 else 0;
    DivideBy(doe, 1460, 25 * c + q + last, e - 1460 * last);
    Centuries(c, q, r, doy);
    DivideBy(365 * yoe + (doy - last), 365, yoe, doy - last);
  }

  lemma Centuries(c: int, q: int, r: int, doy: int)
    requires 0 <= c < 4 && 0 <= q < 25 && 0 <= r < 4 && 0 <= doy <= 365
    requires doy == 365 ==> r == 3 && (q < 24 || c == 3)
    ensures var doe := 36524 * c + 1461 * q + 365 * r + doy;
            doe / 36524 - doe / 146096 == c
  {
    var doe := 36524 * c + 1461 * q + 365 * r + doy;
    if doe != 146096 {
      DivideBy(doe, 36524, c, doe - 36524 * c);
      DivideBy(doe, 146096, 0, doe);
    }
  }

  /** The year counted from March, and the day within it. */
  function MarchYear(v: Date): int {
    if Month(v) <= 2 then Year(v) - 1 else Year(v)
  }

  function MarchDay(v: Date): int {
    MonthDays(FromMarch(Month(v))) + Day(v) - 1
  }

  /** Days from the era's reckoning to the first of March of `y`. */
  function YearStart(y: int): int {
    y / 400 * 146097 + YearDays(y - y / 400 * 400)
  }

  lemma IndexParts(v: Date)
    ensures DayIndex(v) == YearStart(MarchYear(v)) + MarchDay(v) - 719468
  {
  }

  /** The leap day falls where an era leaves room for it. */
  lemma LeapPlace(y: int, yoe: int, c: int, q: int, r: int)
    requires Leap(y + 1) && 0 <= yoe < 400 && yoe == y - y / 400 * 400
    requires yoe == 100 * c + 4 * q + r && 0 <= c < 4 && 0 <= q < 25 && 0 <= r < 4
    ensures r == 3 && (q < 24 || c == 3)
  {
    hide Leap;
    if yoe < 399 {
      NextInEra(y, yoe, c, q, r);
    }
  }

  /** Every real date is recovered from its day index. */
  lemma DateRecovered(v: Date)
    requires RealDate(v)
    ensures FromDayIndex(DayIndex(v)) == v
  {
    hide Leap, YearDays, YearOfEra, DayIndex, MonthDays, RealDate;
    var y := MarchYear(v);
    var era := y / 400;
    var yoe := y - era * 400;
    var c, q, r := yoe / 100, yoe % 100 / 4, yoe % 4;
    var doy := MarchDay(v);
    DayFacts(v);
    EraSplit(yoe, c, q, r);
    if doy == 365 {
      LeapPlace(y, yoe, c, q, r);
    }
    EraYear(c, q, r, doy);
    IndexParts(v);
    var doe := YearDays(yoe) + doy;
    DivideBy(era * 146097 + doe, 146097, era, doe);
    Recompose(v);
  }

  lemma DayFacts(v: Date)
    requires RealDate(v)
    ensures 0 <= MarchDay(v) <= 365 && (MarchDay(v) == 365 ==> Leap(MarchYear(v) + 1))
    ensures (5 * MarchDay(v) + 2) / 153 == FromMarch(Month(v)) && 1 <= Month(v) <= 12
  {
    DayOfYear(Year(v), Month(v), Day(v));
  }

  lemma Recompose(v: Date)
    requires 1 <= Month(v) <= 12
    ensures var mp := FromMarch(Month(v));
            var m := if mp < 10 then mp + 3 else mp - 9;
            FromYmd(MarchYear(v) + (if m <= 2 then 1 else 0), m, Day(v)) == v
  {
    DateParts(v);
  }

  lemma EraSplit(yoe: int, c: int, q: int, r: int)
    requires 0 <= yoe < 400 && c == yoe / 100 && q == yoe % 100 / 4 && r == yoe % 4
    ensures 0 <= c < 4 && 0 <= q < 25 && 0 <= r < 4 && yoe == 100 * c + 4 * q + r
  {
  }

  // ---------------------------------------------------------------- later dates have larger indexes

  /** A year counted from March is as long as the calendar year it ends in. */
  lemma YearStep(y: int)
    ensures YearStart(y + 1) == YearStart(y) + if Leap(y + 1) then 366 else 365
  {
    var era := y / 400;
    var yoe := y - era * 400;
    var c, q, r := yoe / 100, yoe % 100 / 4, yoe % 4;
    EraSplit(yoe, c, q, r);
    DivideBy(yoe, 4, 25 * c + q, r);
    DivideBy(yoe, 100, c, 4 * q + r);
    if yoe == 399 {
      DivideBy(y + 1, 400, era + 1, 0);
      assert Leap(y + 1);
    } else {
      DivideBy(y + 1, 400, era, yoe + 1);
      NextInEra(y, yoe, c, q, r);
    }
  }

  lemma NextInEra(y: int, yoe: int, c: int, q: int, r: int)
    requires 0 <= yoe < 399 && yoe == y - y / 400 * 400
    requires yoe == 100 * c + 4 * q + r && 0 <= c < 4 && 0 <= q < 25 && 0 <= r < 4
    ensures (yoe + 1) / 4 == 25 * c + q + if r == 3 then 1 else 0
    ensures (yoe + 1) / 100 == c + if r == 3 && q == 24 then 1 else 0
    ensures Leap(y + 1) <==> r == 3 && q != 24
  {
    var x := yoe + 1;
    if r == 3 {
      DivideBy(x, 4, 25 * c + q + 1, 0);
      if q == 24 {
        DivideBy(x, 100, c + 1, 0);
      } else {
        DivideBy(x, 100, c, 4 * q + 4);
      }
    } else {
      DivideBy(x, 4, 25 * c + q, r + 1);
      DivideBy(x, 100, c, 4 * q + r + 1);
    }
    var era := y / 400;
    DivideBy(y + 1, 400, era, x);
    DivideBy(y + 1, 4, 100 * era + x / 4, x % 4);
    DivideBy(y + 1, 100, 4 * era + x / 100, x % 100);
  }

  lemma {:induction false} YearsClimb(y: int, w: int)
    requires y <= w
    ensures YearStart(y) <= YearStart(w)
    decreases w - y
  {
    hide YearStart, Leap;
    if y < w {
      YearStep(y);
      YearsClimb(y + 1, w);
    }
  }

  lemma MonthOrder(v: Date, w: Date)
    requires RealDate(v) && RealDate(w) && MarchYear(v) == MarchYear(w) && v < w
    ensures MarchDay(v) < MarchDay(w)
  {
    hide Leap;
    DateParts(v);
    DateParts(w);
    MonthRoom(Year(v), Month(v));
    if FromMarch(Month(v)) < FromMarch(Month(w)) {
      MonthsClimb(FromMarch(Month(v)) + 1, FromMarch(Month(w)));
    }
  }

  lemma MonthRoom(y: int, m: nat)
    requires 1 <= m <= 12
    ensures MonthDays(FromMarch(m)) + DaysIn(y, m) <= MonthDays(FromMarch(m) + 1) || m == 2
    ensures 0 <= FromMarch(m) < 12 && (m == 2 ==> FromMarch(m) == 11)
  {
    hide Leap;
  }

  lemma MonthsClimb(a: int, b: int)
    requires 0 <= a <= b
    ensures MonthDays(a) <= MonthDays(b)
  {
  }

  /** Strictly monotone on real dates: a later date has a larger day index. */
  lemma LaterDate(v: Date, w: Date)
    requires RealDate(v) && RealDate(w) && v < w
    ensures DayIndex(v) < DayIndex(w)
  {
    hide Leap, YearStart, MonthDays, DayIndex;
    DateParts(v);
    DateParts(w);
    IndexParts(v);
    IndexParts(w);
    YearOrder(v, w);
    DayOfYear(Year(v), Month(v), Day(v));
    DayOfYear(Year(w), Month(w), Day(w));
    if MarchYear(v) < MarchYear(w) {
      YearStep(MarchYear(v));
      YearsClimb(MarchYear(v) + 1, MarchYear(w));
    } else {
      MonthOrder(v, w);
    }
  }

  lemma YearOrder(v: Date, w: Date)
    requires RealDate(v) && RealDate(w) && v < w
    ensures MarchYear(v) <= MarchYear(w)
  {
    hide Leap;
    DateParts(v);
    DateParts(w);
  }

  /** Not so for numbers that are no dates: each of these is larger than the one before, yet the last, a real
      date, comes before the two in the middle and five days after the first. */
  lemma UnrealDatesDisorder()
    ensures 20251231 < 20251299 < 20259999 < 20260105
    ensures DayIndex(20251231) == 20453 && DayIndex(20251299) == 20521
    ensures DayIndex(20259999) == 23184 && DayIndex(20260105) == 20458
  {
    hide DayIndex, DayIndexOf;
    IndexOf(20251231, 2025, 12, 31);
    Reckon(2025, 12, 31, 5, 25, 275);
    IndexOf(20251299, 2025, 12, 99);
    Reckon(2025, 12, 99, 5, 25, 275);
    IndexOf(20259999, 2025, 99, 99);
    Reckon(2025, 99, 99, 5, 25, 2938);
    IndexOf(20260105, 2026, 1, 5);
    Reckon(2026, 1, 5, 5, 25, 306);
  }

  lemma Reckon(year: nat, m: nat, d: nat, era: int, yoe: int, days: int)
    requires (if m <= 2 then year - 1 else year) == 400 * era + yoe && 0 <= yoe < 100
    requires days == MonthDays(FromMarch(m))
    ensures DayIndexOf(year, m, d) == era * 146097 + yoe * 365 + yoe / 4 + days + d - 719469
  {
    DivideBy(400 * era + yoe, 400, era, yoe);
  }

  lemma IndexOf(v: Date, y: nat, m: nat, d: nat)
    requires v == FromYmd(y, m, d) && m < 100 && d < 100
    ensures DayIndex(v) == DayIndexOf(y, m, d)
  {
    DivideBy(v, 10000, y, m * 100 + d);
    DivideBy(v, 100, y * 100 + m, d);
    DivideBy(y * 100 + m, 100, y, m);
  }
}
