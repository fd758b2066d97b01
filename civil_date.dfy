/** Proleptic Gregorian calendar arithmetic for PHP's `date()` in UTC:
    days since 1970-01-01 to a civil date and back. Years are counted in
    400-year eras that start on March 1st, so that the leap day is the last
    day of a shifted year. */
module CivilDate {

  datatype Date = Date(year: int, month: int, day: int)

  predicate IsLeapYear(y: int) {
    y % 4 == 0 && (y % 100 != 0 || y % 400 == 0)
  }

  function DaysInMonth(y: int, m: int): int {
    if m == 2 then (if IsLeapYear(y) then 29 else 28)
    else if m == 4 || m == 6 || m == 9 || m == 11 then 30
    else 31
  }

  predicate ValidDate(d: Date) {
    1 <= d.month <= 12 && 1 <= d.day <= DaysInMonth(d.year, d.month)
  }

  /** The calendar's successor: the independent definition the day count is checked against. */
  function NextDay(d: Date): Date {
    if d.day < DaysInMonth(d.year, d.month) then Date(d.year, d.month, d.day + 1)
    else if d.month < 12 then Date(d.year, d.month + 1, 1)
    else Date(d.year + 1, 1, 1)
  }

  /** `n` calendar days after `d`. */
  function AddDays(d: Date, n: nat): Date
    decreases n
  {
    if n == 0 then d else AddDays(NextDay(d), n - 1)
  }

  /** Days from 0000-03-01 to 1970-01-01. */
  const EpochShift := 719468

  /** Month index counted from March (0) to February (11). */
  function ShiftedMonth(m: int): int {
    if m > 2 then m - 3 else m + 9
  }

  /** The year that a date's shifted month belongs to: January and February count with the year before. */
  function ShiftedYear(d: Date): int {
    if d.month <= 2 then d.year - 1 else d.year
  }

  function CivilMonth(mp: int): int {
    if mp < 10 then mp + 3 else mp - 9
  }

  /** Days from March 1st to the first day of shifted month `mp`. */
  function MonthStart(mp: int): int {
    (153 * mp + 2) / 5
  }

  /** Days from the start of an era to the start of its shifted year `yoe`. */
  function YearStart(yoe: int): int {
    365 * yoe + yoe / 4 - yoe / 100
  }

  /** Days since 1970-01-01 of a civil date. */
  function DaysFromCivil(d: Date): int {
    var y := ShiftedYear(d);
    var era := y / 400;
    var yoe := y - era * 400;
    var doy := MonthStart(ShiftedMonth(d.month)) + d.day - 1;
    era * 146097 + YearStart(yoe) + doy - EpochShift
  }

  /** `(q, r)` with `n == 36524 * q + r`, where the fourth century of an era keeps its extra day. */
  function SplitCentury(n: int): (int, int) {
    var q := if n / 36524 < 3 then n / 36524 else 3;
    (q, n - 36524 * q)
  }

  /** `(q, r)` with `n == 1461 * q + r`: four-year groups. */
  function SplitQuad(n: int): (int, int) {
    (n / 1461, n % 1461)
  }

  /** `(q, r)` with `n == 365 * q + r`, where the fourth year of a group keeps the leap day. */
  function SplitYear(n: int): (int, int) {
    var q := if n / 365 < 3 then n / 365 else 3;
    (q, n - 365 * q)
  }

  /** Splits a day of an era into the shifted year of the era and the day of that year. */
  function SplitEraDay(doe: int): (int, int) {
    var (a, r2) := SplitCentury(doe);
    var (b, r3) := SplitQuad(r2);
    var (c, doy) := SplitYear(r3);
    (100 * a + 4 * b + c, doy)
  }

  /** The date on day `doy` of shifted year `yoe` of era `era`. */
  function DateInEra(era: int, yoe: int, doy: int): Date {
    var mp := (5 * doy + 2) / 153;
    var m := CivilMonth(mp);
    Date(era * 400 + yoe + (if m <= 2 then 1 else 0), m, doy - MonthStart(mp) + 1)
  }

  /** The civil date that lies `z` days after 1970-01-01 (negative `z`: before it). */
  function CivilFromDays(z: int): Date {
    var s := z + EpochShift;
    EraDate(s / 146097, s % 146097)
  }

  /** The date on day `doe` of era `era`. */
  function EraDate(era: int, doe: int): Date {
    var split := SplitEraDay(doe);
    DateInEra(era, split.0, split.1)
  }

  /** Whether shifted year `yoe` of an era ends with a leap day. */
  predicate ShiftedLeap(yoe: int) {
    IsLeapYear(yoe + 1)
  }

  /** A shifted year of an era as century `a`, four-year group `b` and year `c`. */
  lemma DecomposeYear(yoe: int) returns (a: int, b: int, c: int)
    requires 0 <= yoe <= 399
    ensures 0 <= a <= 3 && 0 <= b <= 24 && 0 <= c <= 3 && yoe == 100 * a + 4 * b + c
  {
    a, b, c := yoe / 100, (yoe % 100) / 4, yoe % 4;
  }

  lemma YearStartDecomposed(yoe: int, a: int, b: int, c: int)
    requires 0 <= a <= 3 && 0 <= b <= 24 && 0 <= c <= 3 && yoe == 100 * a + 4 * b + c
    ensures YearStart(yoe) == 36524 * a + 1461 * b + 365 * c
  {
    assert yoe == 4 * (25 * a + b) + c;
    assert yoe / 4 == 25 * a + b;
    assert yoe == 100 * a + (4 * b + c);
    assert yoe / 100 == a;
  }

  /** Which shifted years end with a leap day, in terms of century, group and year. */
  lemma LeapDecomposed(yoe: int, a: int, b: int, c: int)
    requires 0 <= a <= 3 && 0 <= b <= 24 && 0 <= c <= 3 && yoe == 100 * a + 4 * b + c
    ensures ShiftedLeap(yoe) == (c == 3 && (b < 24 || a == 3))
  {
    var y := yoe + 1;
    if c == 3 {
      assert y == 4 * (25 * a + b + 1);
      if b == 24 {
        assert y == 100 * (a + 1);
        assert y % 400 == 0 <==> a == 3;
      } else {
        assert y == 100 * a + (4 * b + 4) && 4 * b + 4 < 100;
      }
    } else {
      assert y == 4 * (25 * a + b) + (c + 1);
    }
  }

  lemma SplitCenturyCorrect(n: int)
    requires 0 <= n < 146097
    ensures var (q, r) := SplitCentury(n);
      0 <= q <= 3 && 0 <= r <= 36524 && n == 36524 * q + r && (q < 3 ==> r < 36524)
  {
  }

  lemma SplitCenturyUnique(n: int, q: int, r: int)
    requires 0 <= q <= 3 && 0 <= r <= 36524 && (q < 3 ==> r < 36524) && n == 36524 * q + r
    ensures SplitCentury(n) == (q, r)
  {
    assert q < 3 ==> n / 36524 == q;
    assert q == 3 ==> n / 36524 >= 3;
  }

  lemma SplitQuadCorrect(n: int)
    requires 0 <= n
    ensures var (q, r) := SplitQuad(n); 0 <= r < 1461 && n == 1461 * q + r
  {
  }

  lemma SplitQuadUnique(n: int, q: int, r: int)
    requires 0 <= r < 1461 && n == 1461 * q + r
    ensures SplitQuad(n) == (q, r)
  {
  }

  lemma SplitYearCorrect(n: int)
    requires 0 <= n < 1461
    ensures var (q, r) := SplitYear(n);
      0 <= q <= 3 && 0 <= r <= 365 && n == 365 * q + r && (r == 365 ==> q == 3)
  {
  }

  lemma SplitYearUnique(n: int, q: int, r: int)
    requires 0 <= q <= 3 && 0 <= r <= 365 && (r == 365 ==> q == 3) && n == 365 * q + r
    ensures SplitYear(n) == (q, r)
  {
    assert q < 3 ==> n / 365 == q;
    assert q == 3 ==> n / 365 >= 3;
  }

  lemma {:induction false} SplitEraDayBounds(doe: int)
    requires 0 <= doe < 146097
    ensures var (yoe, doy) := SplitEraDay(doe);
      && 0 <= yoe <= 399 && 0 <= doy <= 365
      && doe == YearStart(yoe) + doy
      && (doy == 365 ==> ShiftedLeap(yoe))
  {
    SplitCenturyCorrect(doe);
    var (a, r2) := SplitCentury(doe);
    SplitQuadCorrect(r2);
    var (b, r3) := SplitQuad(r2);
    assert b <= 24 && (b == 24 ==> r3 <= 1460) && (a < 3 && b == 24 ==> r3 < 1460);
    SplitYearCorrect(r3);
    var (c, doy) := SplitYear(r3);
    var yoe := 100 * a + 4 * b + c;
    YearStartDecomposed(yoe, a, b, c);
    LeapDecomposed(yoe, a, b, c);
    assert SplitEraDay(doe) == (yoe, doy);
  }

  lemma {:induction false} SplitEraDayUnique(doe: int, yoe: int, doy: int)
    requires 0 <= yoe <= 399 && 0 <= doy <= 365
    requires doy == 365 ==> ShiftedLeap(yoe)
    requires doe == YearStart(yoe) + doy
    ensures 0 <= doe < 146097
    ensures SplitEraDay(doe) == (yoe, doy)
  {
    var a, b, c := DecomposeYear(yoe);
    YearStartDecomposed(yoe, a, b, c);
    LeapDecomposed(yoe, a, b, c);
    var r3 := 365 * c + doy;
    SplitYearUnique(r3, c, doy);
    var r2 := 1461 * b + r3;
    SplitQuadUnique(r2, b, r3);
    SplitCenturyUnique(doe, a, r2);
  }

  /** Facts about one shifted month: its length, and where its days lie in the shifted year. */
  lemma MonthOfShiftedDay(doy: int, leap: bool)
    requires 0 <= doy <= 365 && (doy == 365 ==> leap)
    ensures var mp := (5 * doy + 2) / 153;
      && 0 <= mp <= 11
      && MonthStart(mp) <= doy
      && doy - MonthStart(mp) < (if mp == 11 then (if leap then 29 else 28) else MonthStart(mp + 1) - MonthStart(mp))
  {
  }

  lemma MonthOfShiftedDayUnique(mp: int, day: int)
    requires 0 <= mp <= 11
    requires 1 <= day <= (if mp == 11 then 29 else MonthStart(mp + 1) - MonthStart(mp))
    ensures (5 * (MonthStart(mp) + day - 1) + 2) / 153 == mp
  {
  }

  lemma ShiftedMonthLength(y: int, mp: int)
    requires 0 <= mp <= 11
    ensures 1 <= CivilMonth(mp) <= 12 && ShiftedMonth(CivilMonth(mp)) == mp
    ensures mp < 11 ==> DaysInMonth(y, CivilMonth(mp)) == MonthStart(mp + 1) - MonthStart(mp)
    ensures mp == 11 ==> CivilMonth(mp) == 2
  {
  }

  lemma MonthRoundTrip(m: int)
    requires 1 <= m <= 12
    ensures 0 <= ShiftedMonth(m) <= 11 && CivilMonth(ShiftedMonth(m)) == m
  {
  }

  lemma DivideByYears(s: int, q: int, r: int)
    requires s == q * 400 + r && 0 <= r < 400
    ensures s / 400 == q && s % 400 == r
  {
  }

  lemma DivideByEras(s: int, q: int, r: int)
    requires s == q * 146097 + r && 0 <= r < 146097
    ensures s / 146097 == q && s % 146097 == r
  {
  }

  lemma EraShift4(era: int, x: int)
    ensures (era * 400 + x) % 4 == x % 4
  {
    assert era * 400 + x == 4 * (era * 100 + x / 4) + x % 4;
  }

  lemma EraShift100(era: int, x: int)
    ensures (era * 400 + x) % 100 == x % 100
  {
    assert era * 400 + x == 100 * (era * 4 + x / 100) + x % 100;
  }

  lemma EraShift400(era: int, x: int)
    ensures (era * 400 + x) % 400 == x % 400
  {
    assert era * 400 + x == 400 * (era + x / 400) + x % 400;
  }

  /** Leap years repeat every 400 years. */
  lemma LeapAcrossEras(era: int, yoe: int)
    ensures IsLeapYear(era * 400 + yoe + 1) == ShiftedLeap(yoe)
  {
    EraShift4(era, yoe + 1);
    EraShift100(era, yoe + 1);
    EraShift400(era, yoe + 1);
  }

  /** The day count of a date whose shifted year is year `yoe` of era `era`. */
  lemma DaysFromCivilInEra(d: Date, era: int, yoe: int)
    requires 0 <= yoe < 400
    requires ShiftedYear(d) == era * 400 + yoe
    ensures DaysFromCivil(d) == era * 146097 + YearStart(yoe) + MonthStart(ShiftedMonth(d.month)) + d.day - 1 - EpochShift
  {
    DivideByYears(ShiftedYear(d), era, yoe);
  }

  lemma {:induction false} DateInEraCorrect(era: int, yoe: int, doy: int)
    requires 0 <= yoe <= 399 && 0 <= doy <= 365 && (doy == 365 ==> ShiftedLeap(yoe))
    ensures ValidDate(DateInEra(era, yoe, doy))
    ensures DaysFromCivil(DateInEra(era, yoe, doy)) == era * 146097 + YearStart(yoe) + doy - EpochShift
  {
    MonthOfShiftedDay(doy, ShiftedLeap(yoe));
    var mp := (5 * doy + 2) / 153;
    var d := DateInEra(era, yoe, doy);
    ShiftedMonthLength(d.year, mp);
    LeapAcrossEras(era, yoe);
    assert d.month == CivilMonth(mp);
    DaysFromCivilInEra(d, era, yoe);
  }

  /** Every day count names a valid date, and counting that date's days gives it back. */
  lemma {:induction false} CivilFromDaysCorrect(z: int)
    ensures ValidDate(CivilFromDays(z))
    ensures DaysFromCivil(CivilFromDays(z)) == z
  {
    var s := z + EpochShift;
    var era := s / 146097;
    var doe := s % 146097;
    SplitEraDayBounds(doe);
    var split := SplitEraDay(doe);
    DateInEraCorrect(era, split.0, split.1);
    CivilFromEraSplit(z, era, doe);
  }

  /** `CivilFromDays` read through the era and day of era of its argument. */
  lemma CivilFromEraSplit(z: int, era: int, doe: int)
    requires 0 <= doe < 146097 && z + EpochShift == era * 146097 + doe
    ensures CivilFromDays(z) == EraDate(era, doe)
  {
    var s := z + EpochShift;
    DivideByEras(s, era, doe);
    assert CivilFromDays(z) == EraDate(s / 146097, s % 146097);
  }

  lemma {:induction false} CivilFromEraDay(z: int, era: int, yoe: int, doy: int)
    requires 0 <= yoe <= 399 && 0 <= doy <= 365 && (doy == 365 ==> ShiftedLeap(yoe))
    requires z == era * 146097 + YearStart(yoe) + doy - EpochShift
    ensures CivilFromDays(z) == DateInEra(era, yoe, doy)
  {
    var doe := YearStart(yoe) + doy;
    SplitEraDayUnique(doe, yoe, doy);
    CivilFromEraSplit(z, era, doe);
  }

  lemma {:induction false} DateInEraOfDate(d: Date, era: int, yoe: int, doy: int)
    requires ValidDate(d)
    requires 0 <= yoe < 400 && ShiftedYear(d) == era * 400 + yoe
    requires doy == MonthStart(ShiftedMonth(d.month)) + d.day - 1
    ensures 0 <= yoe <= 399 && 0 <= doy <= 365 && (doy == 365 ==> ShiftedLeap(yoe))
    ensures DateInEra(era, yoe, doy) == d
    ensures DaysFromCivil(d) == era * 146097 + YearStart(yoe) + doy - EpochShift
  {
    var mp := ShiftedMonth(d.month);
    MonthRoundTrip(d.month);
    ShiftedMonthLength(d.year, mp);
    LeapAcrossEras(era, yoe);
    assert mp == 11 ==> d.year == era * 400 + yoe + 1;
    assert doy == 365 ==> mp == 11 && d.day == 29;
    MonthOfShiftedDayUnique(mp, d.day);
    DaysFromCivilInEra(d, era, yoe);
  }

  /** Every valid date is the date of its own day count. */
  lemma {:induction false} DaysFromCivilCorrect(d: Date)
    requires ValidDate(d)
    ensures CivilFromDays(DaysFromCivil(d)) == d
  {
    var era := ShiftedYear(d) / 400;
    var yoe := ShiftedYear(d) - era * 400;
    var doy := MonthStart(ShiftedMonth(d.month)) + d.day - 1;
    DateInEraOfDate(d, era, yoe, doy);
    CivilFromEraDay(DaysFromCivil(d), era, yoe, doy);
  }

  lemma YearStartStep(yoe: int)
    requires 0 <= yoe < 399
    ensures YearStart(yoe + 1) == YearStart(yoe) + (if ShiftedLeap(yoe) then 366 else 365)
  {
    var a, b, c := DecomposeYear(yoe);
    LeapDecomposed(yoe, a, b, c);
    YearStartDecomposed(yoe, a, b, c);
    if c < 3 {
      YearStartDecomposed(yoe + 1, a, b, c + 1);
    } else if b < 24 {
      YearStartDecomposed(yoe + 1, a, b + 1, 0);
    } else {
      YearStartDecomposed(yoe + 1, a + 1, 0, 0);
    }
  }

  /** The leap day or February 28th of era year `yoe`, followed by March 1st. */
  lemma EndOfFebruary(d: Date)
    requires ValidDate(d) && d.month == 2 && d.day == DaysInMonth(d.year, 2)
    ensures DaysFromCivil(Date(d.year, 3, 1)) == DaysFromCivil(d) + 1
  {
    var y := d.year - 1;
    var era := y / 400;
    var yoe := y - era * 400;
    var march := Date(d.year, 3, 1);
    LeapAcrossEras(era, yoe);
    assert ShiftedYear(d) == era * 400 + yoe;
    DaysFromCivilInEra(d, era, yoe);
    assert MonthStart(ShiftedMonth(2)) == 337;
    assert ShiftedMonth(3) == 0 && MonthStart(0) == 0;
    if yoe == 399 {
      assert ShiftedYear(march) == (era + 1) * 400 + 0;
      DaysFromCivilInEra(march, era + 1, 0);
    } else {
      assert ShiftedYear(march) == era * 400 + yoe + 1;
      DaysFromCivilInEra(march, era, yoe + 1);
      YearStartStep(yoe);
    }
  }

  /** Two dates of the same shifted year are as many days apart as their days of that year. */
  lemma SameShiftedYear(d: Date, e: Date)
    requires ShiftedYear(d) == ShiftedYear(e)
    ensures DaysFromCivil(e) - DaysFromCivil(d)
         == (MonthStart(ShiftedMonth(e.month)) + e.day) - (MonthStart(ShiftedMonth(d.month)) + d.day)
  {
    var y := ShiftedYear(d);
    var era := y / 400;
    DaysFromCivilInEra(d, era, y - era * 400);
    DaysFromCivilInEra(e, era, y - era * 400);
  }

  /** Counting days is consistent with the calendar successor. */
  lemma DaysFromCivilNext(d: Date)
    requires ValidDate(d)
    ensures ValidDate(NextDay(d))
    ensures DaysFromCivil(NextDay(d)) == DaysFromCivil(d) + 1
  {
    var n := NextDay(d);
    if d.day < DaysInMonth(d.year, d.month) {
      SameShiftedYear(d, n);
    } else if d.month == 2 {
      EndOfFebruary(d);
    } else {
      MonthRoundTrip(d.month);
      ShiftedMonthLength(d.year, ShiftedMonth(d.month));
      if d.month < 12 {
        MonthRoundTrip(d.month + 1);
        assert ShiftedMonth(d.month + 1) == ShiftedMonth(d.month) + 1;
      }
      SameShiftedYear(d, n);
    }
  }

  /** The day after the date of `z` is the date of `z + 1`. */
  lemma CivilFromDaysSucc(z: int)
    ensures CivilFromDays(z + 1) == NextDay(CivilFromDays(z))
  {
    var d := CivilFromDays(z);
    CivilFromDaysCorrect(z);
    DaysFromCivilNext(d);
    DateOfCount(NextDay(d), z + 1);
  }

  /** A valid date is the date of its day count. */
  lemma DateOfCount(d: Date, z: int)
    requires ValidDate(d) && DaysFromCivil(d) == z
    ensures CivilFromDays(z) == d
  {
    DaysFromCivilCorrect(d);
  }

  lemma CivilEpoch()
    ensures CivilFromDays(0) == Date(1970, 1, 1)
  {
    assert YearStart(369) == 134774;
    CivilFromEraDay(0, 4, 369, 306);
  }

  /** The date, in UTC, of a Unix timestamp (seconds); `/` is floor division here. */
  function DateOfTimestamp(t: int): Date {
    CivilFromDays(t / 86400)
  }

  /** A day numbering that steps with the calendar moves `n` calendar days in `n` steps. */
  lemma {:induction false} NumberingAfterDays(f: int -> Date, z: int, n: nat, w: int)
    requires forall k :: f(k + 1) == NextDay(f(k))
    requires w == z + n
    ensures f(w) == AddDays(f(z), n)
    decreases n
  {
    if n > 0 {
      NumberingAfterDays(f, z + 1, n - 1, w);
    }
  }

  /** `n` days after the date of day `z` is the date of day `z + n`. */
  lemma CivilAfterDays(z: int, n: nat, w: int)
    requires w == z + n
    ensures CivilFromDays(w) == AddDays(CivilFromDays(z), n)
  {
    forall k ensures CivilFromDays(k + 1) == NextDay(CivilFromDays(k)) {
      CivilFromDaysSucc(k);
    }
    NumberingAfterDays(CivilFromDays, z, n, w);
  }

  lemma TimestampDayShift(t: int, n: int)
    ensures (t + n * 86400) / 86400 == t / 86400 + n
  {
  }

  /** Adding `n` whole days of seconds to a timestamp moves its date `n` calendar days on. */
  lemma DateAfterDays(t: int, n: nat)
    ensures DateOfTimestamp(t + n * 86400) == AddDays(DateOfTimestamp(t), n)
  {
    TimestampDayShift(t, n);
    CivilAfterDays(t / 86400, n, (t + n * 86400) / 86400);
  }
}
