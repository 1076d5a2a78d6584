/** Days since the epoch as calendar dates (`crates/usai-cli/src/logfmt.rs`; section 5.6 of RFC 3339). */
module Civil {

  datatype Date = Date(year: int, month: int, day: int)

  // ---- The calendar -----------------------------------------------------------

  predicate Leap(y: int)
  {
    y % 4 == 0 && (y % 100 != 0 || y % 400 == 0)
  }

  function DaysIn(y: int, m: int): int
  {
    if m == 2 then if Leap(y) then 29 else 28
    else if m == 4 || m == 6 || m == 9 || m == 11 then 30
    else 31
  }

  predicate Valid(d: Date)
  {
    1 <= d.month <= 12 && 1 <= d.day <= DaysIn(d.year, d.month)
  }

  /** The day after. */
  function Next(d: Date): Date
  {
    if d.day < DaysIn(d.year, d.month) then d.(day := d.day + 1)
    else if d.month < 12 then Date(d.year, d.month + 1, 1)
    else Date(d.year + 1, 1, 1)
  }

  predicate Earlier(a: Date, b: Date)
  {
    a.year < b.year || (a.year == b.year && (a.month < b.month || (a.month == b.month && a.day < b.day)))
  }

  // ---- The conversion -----------------------------------------------------------

  const ERA := 146_097  // days in 400 years

  /** The year of the era, counted from March, of a day of the era. */
  function YearOfEra(doe: int): int
  {
    (doe - doe / 1460 + doe / 36524 - doe / 146_096) / 365
  }

  /** `civil_from_days`. Dafny's division is `div_euclid`. */
  function FromDays(z: int): Date
  {
    var shifted := z + 719_468;
    var era, doe := shifted / ERA, shifted % ERA;
    var yoe := YearOfEra(doe);
    FromMarch(yoe + era * 400, doe - YearStart(yoe))
  }

  /** Days of the era before a year of it. */
  function YearStart(yoe: int): int
  {
    365 * yoe + yoe / 4 - yoe / 100
  }

  /** The date of a day of a year that starts in March. */
  function FromMarch(y: int, doy: int): Date
  {
    var mp := (5 * doy + 2) / 153;
    var m := if mp < 10 then mp + 3 else mp - 9;
    Date(if m <= 2 then y + 1 else y, m, doy - MonthStart(mp) + 1)
  }

  /** Days of a year that starts in March before a month of it. */
  function MonthStart(mp: int): int
  {
    (153 * mp + 2) / 5
  }

  /** The day a date is, the other way round. */
  function ToDays(d: Date): int
  {
    var y := if d.month <= 2 then d.year - 1 else d.year;
    var mp := if d.month > 2 then d.month - 3 else d.month + 9;
    var era, yoe := y / 400, y % 400;
    era * ERA + YearStart(yoe) + MonthStart(mp) + d.day - 1 - 719_468
  }

  // ---- Years of an era ------------------------------------------------------------

  /** Whether the year that starts in March of a year of the era has 366 days. */
  predicate LongYear(yoe: int)
  {
    Leap(yoe + 1)
  }

  lemma Product(x: int, d: int)
    requires d > 0
    ensures (x >= 1 ==> x * d >= d) && (x <= -1 ==> x * d <= -d)
  {
  }

  lemma Quotient(n: int, d: int, k: int)
    requires d > 0 && k * d <= n < k * d + d
    ensures n / d == k
  {
    var q := n / d;
    assert n == q * d + n % d && (q - k) * d == q * d - k * d;
    Product(q - k, d);
  }

  /** A year of the era as centuries, fours and ones. */
  function YearIn(c: int, q: int, r: int): int
  {
    100 * c + 4 * q + r
  }

  predicate YearParts(c: int, q: int, r: int)
  {
    0 <= c < 4 && 0 <= q < 25 && 0 <= r < 4
  }

  lemma YearStartIn(c: int, q: int, r: int)
    requires YearParts(c, q, r)
    ensures YearStart(YearIn(c, q, r)) == 36524 * c + 1461 * q + 365 * r
  {
    Quotient(YearIn(c, q, r), 4, 25 * c + q);
    Quotient(YearIn(c, q, r), 100, c);
  }

  /** A year is long where the formula must give its 366th day. */
  lemma LongIn(c: int, q: int, r: int)
    requires YearParts(c, q, r)
    ensures LongYear(YearIn(c, q, r)) <==> r == 3 && (q < 24 || c == 3)
  {
  }

  predicate DayParts(c: int, q: int, r: int, doy: int)
  {
    YearParts(c, q, r) && 0 <= doy <= 365 && (doy == 365 ==> r == 3 && (q < 24 || c == 3))
  }

  /** The formula gives every day of a year its year. */
  lemma YearOf(c: int, q: int, r: int, doy: int)
    requires DayParts(c, q, r, doy)
    ensures YearOfEra(36524 * c + 1461 * q + 365 * r + doy) == YearIn(c, q, r)
  {
    var doe := 36524 * c + 1461 * q + 365 * r + doy;
    var extra := if 24 * c + q + 365 * r + doy >= 1460 then 1 else 0;
    assert doe / 1460 == 25 * c + q + extra by { Quotient(doe, 1460, 25 * c + q + extra); }
    assert doe / 36524 - doe / 146_096 == c by {
      if doe != 146_096 {
        Quotient(doe, 36524, c);
        Quotient(doe, 146_096, 0);
      }
    }
    Quotient(365 * YearIn(c, q, r) + doy - extra, 365, YearIn(c, q, r));
  }

  /** Every day of an era is a day of one of its years. */
  lemma PartsOf(doe: int) returns (c: int, q: int, r: int, doy: int)
    requires 0 <= doe < ERA
    ensures DayParts(c, q, r, doy) && doe == 36524 * c + 1461 * q + 365 * r + doy
  {
    c := if doe / 36524 < 3 then doe / 36524 else 3;
    var century := doe - 36524 * c;
    q := century / 1461;
    var four := century - 1461 * q;
    r := if four / 365 < 3 then four / 365 else 3;
    doy := four - 365 * r;
  }

  /** Every day of an era is in the year the formula says. */
  lemma DayInYear(doe: int)
    requires 0 <= doe < ERA
    ensures var yoe := YearOfEra(doe);
            && 0 <= yoe < 400
            && 0 <= doe - YearStart(yoe) <= 365
            && (doe - YearStart(yoe) == 365 ==> LongYear(yoe))
  {
    var c, q, r, doy := PartsOf(doe);
    assert YearOfEra(doe) == YearIn(c, q, r) by { YearOf(c, q, r, doy); }
    assert YearStart(YearIn(c, q, r)) == 36524 * c + 1461 * q + 365 * r by { YearStartIn(c, q, r); }
    assert doy == 365 ==> LongYear(YearIn(c, q, r)) by { LongIn(c, q, r); }
  }

  /** And a day of a year of the era is given that year. */
  lemma YearOfDay(yoe: int, doy: int)
    requires 0 <= yoe < 400 && 0 <= doy <= 365 && (doy == 365 ==> LongYear(yoe))
    ensures 0 <= YearStart(yoe) + doy < ERA && YearOfEra(YearStart(yoe) + doy) == yoe
  {
    var c, q, r := yoe / 100, yoe % 100 / 4, yoe % 4;
    assert yoe == YearIn(c, q, r) && YearParts(c, q, r);
    assert YearStart(yoe) == 36524 * c + 1461 * q + 365 * r by { YearStartIn(c, q, r); }
    assert DayParts(c, q, r, doy) by { LongIn(c, q, r); }
    assert YearOfEra(36524 * c + 1461 * q + 365 * r + doy) == yoe by { YearOf(c, q, r, doy); }
  }

  // ---- Months of a year that starts in March -----------------------------------------

  lemma MonthOf(doy: int)
    requires 0 <= doy <= 365
    ensures var mp := (5 * doy + 2) / 153;
            0 <= mp <= 11 && MonthStart(mp) <= doy && (mp < 11 ==> doy < MonthStart(mp + 1))
  {
  }

  lemma MonthOfDay(mp: int, doy: int)
    requires 0 <= mp <= 11 && MonthStart(mp) <= doy <= 365 && (mp < 11 ==> doy < MonthStart(mp + 1))
    ensures (5 * doy + 2) / 153 == mp
  {
  }

  function MonthNumber(mp: int): int
  {
    if mp < 10 then mp + 3 else mp - 9
  }

  lemma MonthLength(mp: int, year: int)
    requires 0 <= mp < 11
    ensures MonthStart(mp + 1) - MonthStart(mp) == DaysIn(year, MonthNumber(mp)) && MonthStart(11) == 337
  {
  }

  lemma LeapInEra(era: int, yoe: int)
    ensures Leap(yoe + era * 400 + 1) == Leap(yoe + 1)
  {
    Shift(yoe + 1, era * 100, 4);
    Shift(yoe + 1, era * 4, 100);
    Shift(yoe + 1, era, 400);
  }

  lemma Shift(n: int, k: int, d: int)
    requires d > 0
    ensures (n + k * d) % d == n % d
  {
    var q := n / d;
    assert n + k * d == (q + k) * d + n % d;
    Quotient(n + k * d, d, q + k);
  }

  // ---- A bijection -------------------------------------------------------------------

  /** A day's parts, as the conversion finds them. */
  predicate Located(z: int, era: int, yoe: int, doy: int)
  {
    && z + 719_468 == era * ERA + YearStart(yoe) + doy
    && 0 <= yoe < 400 && 0 <= doy <= 365 && (doy == 365 ==> LongYear(yoe))
  }

  lemma Locate(z: int) returns (era: int, yoe: int, doy: int)
    ensures Located(z, era, yoe, doy) && FromDays(z) == FromMarch(yoe + era * 400, doy)
  {
    var shifted := z + 719_468;
    var doe := shifted % ERA;
    era, yoe := shifted / ERA, YearOfEra(doe);
    doy := doe - YearStart(yoe);
    assert FromDays(z) == FromMarch(yoe + era * 400, doy);
    assert 0 <= yoe < 400 && 0 <= doy <= 365 && (doy == 365 ==> LongYear(yoe)) by { DayInYear(doe); }
    assert shifted == era * ERA + doe;
  }

  lemma FromLocated(z: int, era: int, yoe: int, doy: int)
    requires Located(z, era, yoe, doy)
    ensures FromDays(z) == FromMarch(yoe + era * 400, doy)
  {
    YearOfDay(yoe, doy);
    Quotient(z + 719_468, ERA, era);
  }

  lemma EraOf(era: int, yoe: int)
    requires 0 <= yoe < 400
    ensures (yoe + era * 400) / 400 == era && (yoe + era * 400) % 400 == yoe
  {
    Quotient(yoe + era * 400, 400, era);
  }

  /** Every day is a valid date, and the date gives the day back. */
  lemma DayRoundTrip(z: int)
    ensures Valid(FromDays(z)) && ToDays(FromDays(z)) == z
  {
    var era, yoe, doy := Locate(z);
    MonthOf(doy);
    EraOf(era, yoe);
    LeapInEra(era, yoe);
    var mp := (5 * doy + 2) / 153;
    if mp < 11 {
      MonthLength(mp, FromDays(z).year);
    } else {
      MonthLength(0, 0);
    }
  }

  /** The month and year of a date, counted from March. */
  function MarchMonth(d: Date): int
  {
    if d.month > 2 then d.month - 3 else d.month + 9
  }

  function MarchYear(d: Date): int
  {
    if d.month <= 2 then d.year - 1 else d.year
  }

  lemma LocateDate(d: Date)
    requires Valid(d)
    ensures var y, mp := MarchYear(d), MarchMonth(d);
            var doy := MonthStart(mp) + d.day - 1;
            Located(ToDays(d), y / 400, y % 400, doy) && (5 * doy + 2) / 153 == mp
  {
    var y, mp := MarchYear(d), MarchMonth(d);
    LeapInEra(y / 400, y % 400);
    if mp < 11 {
      MonthLength(mp, d.year);
      MonthStartBound(mp + 1);
    } else {
      MonthLength(0, 0);
    }
    MonthOfDay(mp, MonthStart(mp) + d.day - 1);
  }

  lemma MonthStartBound(mp: int)
    requires 0 <= mp <= 11
    ensures 0 <= MonthStart(mp) <= 337
  {
  }

  /** Every valid date is the date of its day. */
  lemma DateRoundTrip(d: Date)
    requires Valid(d)
    ensures FromDays(ToDays(d)) == d
  {
    var y, mp := MarchYear(d), MarchMonth(d);
    LocateDate(d);
    FromLocated(ToDays(d), y / 400, y % 400, MonthStart(mp) + d.day - 1);
  }

  // ---- Order -------------------------------------------------------------------------

  lemma NextValid(d: Date)
    requires Valid(d)
    ensures Valid(Next(d)) && Earlier(d, Next(d))
  {
  }

  /** The parts of the year after. */
  function NextParts(c: int, q: int, r: int): (int, int, int)
  {
    if r < 3 then (c, q, r + 1) else if q < 24 then (c, q + 1, 0) else (c + 1, 0, 0)
  }

  lemma NextYearStart(c: int, q: int, r: int)
    requires YearParts(c, q, r) && YearIn(c, q, r) < 399
    ensures var (c', q', r') := NextParts(c, q, r);
            && YearParts(c', q', r') && YearIn(c', q', r') == YearIn(c, q, r) + 1
            && 36524 * c' + 1461 * q' + 365 * r' - (36524 * c + 1461 * q + 365 * r)
               == if r == 3 && (q < 24 || c == 3) then 366 else 365
  {
  }

  lemma YearLength(yoe: int)
    requires 0 <= yoe < 399
    ensures YearStart(yoe + 1) - YearStart(yoe) == if LongYear(yoe) then 366 else 365
  {
    var c, q, r := yoe / 100, yoe % 100 / 4, yoe % 4;
    assert yoe == YearIn(c, q, r) && YearParts(c, q, r);
    NextYearStart(c, q, r);
    var (c', q', r') := NextParts(c, q, r);
    assert YearStart(yoe) == 36524 * c + 1461 * q + 365 * r by { YearStartIn(c, q, r); }
    assert YearStart(yoe + 1) == 36524 * c' + 1461 * q' + 365 * r' by { YearStartIn(c', q', r'); }
    assert LongYear(yoe) == (r == 3 && (q < 24 || c == 3)) by { LongIn(c, q, r); }
  }

  lemma EraEnds()
    ensures YearStart(0) == 0 && YearStart(399) + 366 == ERA && LongYear(399)
  {
  }

  /** A March year follows another. */
  lemma NextMarchYear(y: int)
    ensures (y + 1) / 400 * ERA + YearStart((y + 1) % 400)
         == y / 400 * ERA + YearStart(y % 400) + if Leap(y + 1) then 366 else 365
  {
    var era, yoe := y / 400, y % 400;
    assert Leap(y + 1) == LongYear(yoe) by { LeapInEra(era, yoe); }
    if yoe < 399 {
      assert (y + 1) / 400 == era && (y + 1) % 400 == yoe + 1 by { EraOf(era, yoe + 1); }
      YearLength(yoe);
    } else {
      assert (y + 1) / 400 == era + 1 && (y + 1) % 400 == 0 by { EraOf(era + 1, 0); }
      EraEnds();
    }
  }

  lemma NextDay(d: Date)
    requires Valid(d)
    ensures ToDays(Next(d)) == ToDays(d) + 1
  {
    var mp := MarchMonth(d);
    if d.day == DaysIn(d.year, d.month) {
      if mp < 11 {
        MonthLength(mp, d.year);
      } else {
        MonthLength(0, 0);
        NextMarchYear(MarchYear(d));
      }
    }
  }

  /** The day after a day is the date after its date. */
  lemma Successor(z: int)
    ensures FromDays(z + 1) == Next(FromDays(z))
  {
    DayRoundTrip(z);
    NextDay(FromDays(z));
    NextValid(FromDays(z));
    DateRoundTrip(Next(FromDays(z)));
  }

  lemma NextIsLater(z: int)
    ensures Earlier(FromDays(z), FromDays(z + 1))
  {
    DayRoundTrip(z);
    NextValid(FromDays(z));
    Successor(z);
  }

  lemma EarlierTransitive(a: Date, b: Date, c: Date)
    requires Earlier(a, b) && Earlier(b, c)
    ensures Earlier(a, c)
  {
  }

  /** Steps that go forward get later and later. */
  lemma {:induction false} Forward(dates: int -> Date, a: int, b: int)
    requires a < b && forall z :: Earlier(dates(z), dates(z + 1))
    ensures Earlier(dates(a), dates(b))
    decreases b - a
  {
    assert Earlier(dates(b - 1), dates(b - 1 + 1));
    if a < b - 1 {
      Forward(dates, a, b - 1);
      EarlierTransitive(dates(a), dates(b - 1), dates(b));
    }
  }

  lemma LaterDate(a: int, b: int)
    requires a < b
    ensures Earlier(FromDays(a), FromDays(b))
  {
    forall z ensures Earlier(FromDays(z), FromDays(z + 1)) {
      NextIsLater(z);
    }
    Forward(FromDays, a, b);
  }

  /** Dates are in the order of their days. */
  lemma InOrder(a: int, b: int)
    ensures a < b <==> Earlier(FromDays(a), FromDays(b))
  {
    if a < b {
      LaterDate(a, b);
    } else if b < a {
      LaterDate(b, a);
    }
  }

  lemma Epoch()
    ensures FromDays(0) == Date(1970, 1, 1)
  {
  }
}
