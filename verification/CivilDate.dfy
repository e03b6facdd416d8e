/** Days since 1970-01-01 to a Gregorian date. For every day number, negative ones included, the closed
    formula gives a valid date; day 0 is the epoch and each day is followed by its calendar successor.
    So the formula agrees with counting days one by one in either direction. */
module CivilDate {
  import opened Division

  datatype Date = Date(year: int, month: int, day: int)

  // ----- the calendar -----

  predicate IsLeap(y: int) {
    y % 4 == 0 && (y % 100 != 0 || y % 400 == 0)
  }

  function DaysInMonth(y: int, m: int): int {
    if m == 2 then (if IsLeap(y) then 29 else 28)
    else if m == 4 || m == 6 || m == 9 || m == 11 then 30
    else 31
  }

  predicate IsValid(d: Date) {
    1 <= d.month <= 12 && 1 <= d.day <= DaysInMonth(d.year, d.month)
  }

  function NextDay(d: Date): Date {
    if d.day < DaysInMonth(d.year, d.month) then Date(d.year, d.month, d.day + 1)
    else if d.month < 12 then Date(d.year, d.month + 1, 1)
    else Date(d.year + 1, 1, 1)
  }

  function PreviousDay(d: Date): Date {
    if d.day > 1 then Date(d.year, d.month, d.day - 1)
    else if d.month > 1 then Date(d.year, d.month - 1, DaysInMonth(d.year, d.month - 1))
    else Date(d.year - 1, 12, 31)
  }

  lemma PreviousUndoesNext(d: Date)
    requires IsValid(d)
    ensures PreviousDay(NextDay(d)) == d && IsValid(NextDay(d))
  {
  }

  const EPOCH: Date := Date(1970, 1, 1)

  /** The reference: count from the epoch. */
  ghost function NthDay(n: int): Date
    decreases if n < 0 then -n else n
  {
    if n == 0 then EPOCH
    else if n > 0 then NextDay(NthDay(n - 1))
    else PreviousDay(NthDay(n + 1))
  }

  // ----- the formula -----

  /** Integer division that rounds toward zero. */
  function Quotient(a: int, b: int): int
    requires b > 0
  {
    if a >= 0 then a / b else -(-a / b)
  }

  function EraOf(days: int): int {
    Quotient(if days >= 0 then days else days - 146_096, 146_097)
  }

  function YearOfEra(doe: int): int {
    Quotient(doe - Quotient(doe, 1_460) + Quotient(doe, 36_524) - Quotient(doe, 146_096), 365)
  }

  function DayOfYear(doe: int, yoe: int): int {
    doe - (365 * yoe + Quotient(yoe, 4) - Quotient(yoe, 100))
  }

  /** The date of a day of a year that starts in March. */
  function FromMarch(year: int, doy: int): Date {
    var monthPrime := Quotient(5 * doy + 2, 153);
    var day := doy - Quotient(153 * monthPrime + 2, 5) + 1;
    var month := monthPrime + if monthPrime < 10 then 3 else -9;
    Date(year + if month <= 2 then 1 else 0, month, day)
  }

  function CivilFromDays(n: int): Date {
    var days := n + 719_468;
    var era := EraOf(days);
    var doe := days - era * 146_097;
    var yoe := YearOfEra(doe);
    FromMarch(yoe + era * 400, DayOfYear(doe, yoe))
  }

  // ----- years that start in March -----

  /** The first day of such a year, counted from 0000-03-01. */
  function YearStart(y: int): int {
    365 * y + y / 4 - y / 100 + y / 400
  }

  /** Its length depends on the February at its end. */
  function YearLength(y: int): int {
    if IsLeap(y + 1) then 366 else 365
  }

  /** A quotient steps up exactly at the multiples. */
  lemma {:induction false} QuotientSteps(y: int, k: int)
    requires k > 1
    ensures (y + 1) / k == y / k + if (y + 1) % k == 0 then 1 else 0
  {
    var d, m := y / k, y % k;
    assert y == k * d + m;
    if m == k - 1 {
      DivisionIs(y + 1, k, d + 1);
      assert (y + 1) % k == (y + 1) - k * (d + 1);
    } else {
      DivisionIs(y + 1, k, d);
      assert (y + 1) % k == (y + 1) - k * d;
    }
  }

  lemma LeapDivisors(x: int)
    ensures x % 100 == 0 ==> x % 4 == 0
    ensures x % 400 == 0 ==> x % 100 == 0
  {
  }

  lemma {:induction false} YearsFollow(y: int)
    ensures YearStart(y + 1) == YearStart(y) + YearLength(y)
  {
    QuotientSteps(y, 4);
    QuotientSteps(y, 100);
    QuotientSteps(y, 400);
    LeapDivisors(y + 1);
  }

  lemma {:induction false} YearStartsIncrease(y: int, z: int)
    requires y < z
    ensures YearStart(y + 1) <= YearStart(z)
    decreases z - y
  {
    if y + 1 < z {
      YearsFollow(y + 1);
      YearStartsIncrease(y + 1, z);
    }
  }

  ghost predicate Splits(days: int, y: int, doy: int) {
    days == YearStart(y) + doy && 0 <= doy < YearLength(y)
  }

  /** A day lies in one such year only. */
  lemma {:induction false} SplitIsUnique(days: int, y: int, doy: int, z: int, doz: int)
    requires Splits(days, y, doy) && Splits(days, z, doz)
    ensures y == z && doy == doz
  {
    YearsFollow(y);
    YearsFollow(z);
    if y < z { YearStartsIncrease(y, z); }
    if z < y { YearStartsIncrease(z, y); }
  }

  // ----- the formula splits the days -----

  /** The year and the day of the year the formula finds. */
  function MarchYear(days: int): int {
    YearOfEra(days - EraOf(days) * 146_097) + EraOf(days) * 400
  }

  function MarchDay(days: int): int {
    var doe := days - EraOf(days) * 146_097;
    DayOfYear(doe, YearOfEra(doe))
  }

  lemma EraSplits(days: int)
    ensures 0 <= days - EraOf(days) * 146_097 < 146_097
  {
  }

  /** Centuries of 36524 days (the fourth has one more), then blocks of 1461, then years of 365. */
  lemma {:induction false} YearOfEraIs(c: int, q: int, t: int, s: int)
    requires 0 <= c <= 3 && 0 <= q <= 24 && 0 <= s <= 1460 && (q == 24 && s == 1460 ==> c == 3)
    requires t == if s == 1460 then 3 else s / 365
    ensures YearOfEra(36_524 * c + 1461 * q + s) == 100 * c + 4 * q + t
  {
    var doe := 36_524 * c + 1461 * q + s;
    CorrectionsAre(c, q, s);
    DivisionIs(doe - doe / 1460 + doe / 36_524 - doe / 146_096, 365, 100 * c + 4 * q + t);
  }

  /** The three corrections for the leap days passed. */
  lemma {:induction false} CorrectionsAre(c: int, q: int, s: int)
    requires 0 <= c <= 3 && 0 <= q <= 24 && 0 <= s <= 1460 && (q == 24 && s == 1460 ==> c == 3)
    ensures var doe := 36_524 * c + 1461 * q + s;
            var last := c == 3 && q == 24 && s == 1460;
            && doe / 1460 == 25 * c + q + (if 24 * c + q + s >= 1460 then 1 else 0)
            && doe / 36_524 == (if last then 4 else c) && doe / 146_096 == if last then 1 else 0
  {
    var doe := 36_524 * c + 1461 * q + s;
    var last := c == 3 && q == 24 && s == 1460;
    assert doe == 1460 * (25 * c + q) + (24 * c + q + s);
    DivisionIs(doe, 1460, 25 * c + q + if 24 * c + q + s >= 1460 then 1 else 0);
    DivisionIs(doe, 36_524, if last then 4 else c);
    DivisionIs(doe, 146_096, if last then 1 else 0);
  }

  lemma {:induction false} FormulaSplits(days: int)
    ensures Splits(days, MarchYear(days), MarchDay(days))
  {
    EraSplits(days);
    var doe := days - EraOf(days) * 146_097;
    var c, q, s := EraParts(doe);
    PartsSplit(EraOf(days), c, q, s);
  }

  /** A day of an era as century, block of four years, and day of the block. */
  lemma {:induction false} EraParts(doe: int) returns (c: int, q: int, s: int)
    requires 0 <= doe < 146_097
    ensures 0 <= c <= 3 && 0 <= q <= 24 && 0 <= s <= 1460 && (q == 24 && s == 1460 ==> c == 3)
    ensures doe == 36_524 * c + 1461 * q + s
  {
    c := if doe == 146_096 then 3 else doe / 36_524;
    var r := doe - 36_524 * c;
    q := r / 1461;
    s := r - 1461 * q;
  }

  lemma {:induction false} PartsSplit(era: int, c: int, q: int, s: int)
    requires 0 <= c <= 3 && 0 <= q <= 24 && 0 <= s <= 1460 && (q == 24 && s == 1460 ==> c == 3)
    ensures SplitAt(era, 36_524 * c + 1461 * q + s, YearOfEra(36_524 * c + 1461 * q + s))
  {
    var t := if s == 1460 then 3 else s / 365;
    YearOfEraIs(c, q, t, s);
    InParts(era, c, q, t, s);
  }

  ghost predicate SplitAt(era: int, doe: int, yoe: int) {
    Splits(era * 146_097 + doe, yoe + era * 400, DayOfYear(doe, yoe))
  }

  lemma {:induction false} InParts(era: int, c: int, q: int, t: int, s: int)
    requires 0 <= c <= 3 && 0 <= q <= 24 && 0 <= s <= 1460 && (q == 24 && s == 1460 ==> c == 3)
    requires t == if s == 1460 then 3 else s / 365
    ensures SplitAt(era, 36_524 * c + 1461 * q + s, 100 * c + 4 * q + t)
  {
    DayOfYearIs(c, q, t, s);
    LandsInYear(era, c, q, t, s);
  }

  lemma {:induction false} DayOfYearIs(c: int, q: int, t: int, s: int)
    requires 0 <= c <= 3 && 0 <= q <= 24 && 0 <= t <= 3
    ensures DayOfYear(36_524 * c + 1461 * q + s, 100 * c + 4 * q + t) == s - 365 * t
  {
    var yoe := 100 * c + 4 * q + t;
    DivisionIs(yoe, 4, 25 * c + q);
    DivisionIs(yoe, 100, c);
  }

  lemma {:induction false} LandsInYear(era: int, c: int, q: int, t: int, s: int)
    requires 0 <= c <= 3 && 0 <= q <= 24 && 0 <= s <= 1460 && (q == 24 && s == 1460 ==> c == 3)
    requires t == if s == 1460 then 3 else s / 365
    ensures Splits(era * 146_097 + (36_524 * c + 1461 * q + s), (100 * c + 4 * q + t) + era * 400, s - 365 * t)
  {
    YearStartInEra(era, c, q, t);
    YearLengthInEra(era, c, q, t);
  }

  lemma {:induction false} YearStartInEra(era: int, c: int, q: int, t: int)
    requires 0 <= c <= 3 && 0 <= q <= 24 && 0 <= t <= 3
    ensures YearStart(400 * era + 100 * c + 4 * q + t) == 146_097 * era + 36_524 * c + 1461 * q + 365 * t
  {
    var y := 400 * era + 100 * c + 4 * q + t;
    DivisionIs(y, 4, 100 * era + 25 * c + q);
    DivisionIs(y, 100, 4 * era + c);
    DivisionIs(y, 400, era);
  }

  /** The fourth year of a block has the leap day, except at the end of the first three centuries. */
  lemma {:induction false} YearLengthInEra(era: int, c: int, q: int, t: int)
    requires 0 <= c <= 3 && 0 <= q <= 24 && 0 <= t <= 3
    ensures YearLength(400 * era + 100 * c + 4 * q + t) == if t == 3 && (q < 24 || c == 3) then 366 else 365
  {
    var y := 400 * era + 100 * c + 4 * q + t;
    YearsFollow(y);
    YearStartInEra(era, c, q, t);
    if t < 3 { YearStartInEra(era, c, q, t + 1); }
    else if q < 24 { YearStartInEra(era, c, q + 1, 0); }
    else if c < 3 { YearStartInEra(era, c + 1, 0, 0); }
    else { YearStartInEra(era + 1, 0, 0, 0); }
  }

  // ----- months -----

  /** Within a March year the days run through valid dates in order, and the last one is the end of
      February. */
  lemma {:induction false} MarchDates(y: int, doy: int)
    requires 0 <= doy < YearLength(y)
    ensures IsValid(FromMarch(y, doy))
    ensures NextDay(FromMarch(y, doy)) ==
            if doy + 1 < YearLength(y) then FromMarch(y, doy + 1) else FromMarch(y + 1, 0)
  {
    var m := (5 * doy + 2) / 153;
    MonthOf(doy, m);
    FromMarchIs(y, doy, m);
    InMonthIsValid(y, m, doy - MonthStart(m));
    if doy + 1 == MonthStart(m + 1) && m < 11 {
      FromMarchIs(y, doy + 1, m + 1);
    } else if doy + 1 < YearLength(y) {
      FromMarchIs(y, doy + 1, m);
    } else {
      FromMarchIs(y + 1, 0, 0);
    }
  }

  /** Day `k` of the month `m` counted from March, both from 0. */
  function InMonth(y: int, m: int, k: int): Date {
    Date(y + if m >= 10 then 1 else 0, if m < 10 then m + 3 else m - 9, k + 1)
  }

  lemma {:induction false} FromMarchIs(y: int, doy: int, m: int)
    requires 0 <= m <= 11 && MonthStart(m) <= doy < MonthStart(m + 1)
    ensures FromMarch(y, doy) == InMonth(y, m, doy - MonthStart(m))
  {
    MonthOf(doy, (5 * doy + 2) / 153);
    MonthsIncrease(m, (5 * doy + 2) / 153, doy);
  }

  /** A day lies in one month only. */
  lemma MonthsIncrease(m: int, n: int, doy: int)
    requires 0 <= m <= 11 && 0 <= n <= 11
    requires MonthStart(m) <= doy < MonthStart(m + 1) && MonthStart(n) <= doy < MonthStart(n + 1)
    ensures m == n
  {
  }

  /** A month's last day is followed by the first of the next, in the next March year after February. */
  lemma {:induction false} InMonthIsValid(y: int, m: int, k: int)
    requires 0 <= m <= 11 && 0 <= k && MonthStart(m) + k < MonthStart(m + 1)
    requires MonthStart(m) + k < YearLength(y)
    ensures IsValid(InMonth(y, m, k))
    ensures NextDay(InMonth(y, m, k)) ==
            if MonthStart(m) + k + 1 < YearLength(y) && MonthStart(m) + k + 1 < MonthStart(m + 1) then InMonth(y, m, k + 1)
            else if m < 11 then InMonth(y, m + 1, 0)
            else InMonth(y + 1, 0, 0)
  {
  }

  function MonthStart(m: int): int {
    if m == 0 then 0 else if m == 1 then 31 else if m == 2 then 61 else if m == 3 then 92
    else if m == 4 then 122 else if m == 5 then 153 else if m == 6 then 184 else if m == 7 then 214
    else if m == 8 then 245 else if m == 9 then 275 else if m == 10 then 306 else if m == 11 then 337
    else 366
  }

  lemma MonthOf(doy: int, m: int)
    requires 0 <= doy <= 365 && m == (5 * doy + 2) / 153
    ensures 0 <= m <= 11 && MonthStart(m) <= doy < MonthStart(m + 1)
    ensures (153 * m + 2) / 5 == MonthStart(m)
  {
  }

  // ----- the theorem -----

  lemma {:induction false} CivilSplits(n: int) returns (y: int, doy: int)
    ensures CivilFromDays(n) == FromMarch(y, doy) && Splits(n + 719_468, y, doy)
  {
    y, doy := MarchYear(n + 719_468), MarchDay(n + 719_468);
    FormulaSplits(n + 719_468);
    CivilIsMarch(n);
  }

  lemma CivilIsMarch(n: int)
    ensures CivilFromDays(n) == FromMarch(MarchYear(n + 719_468), MarchDay(n + 719_468))
  {
  }

  lemma {:induction false} SplitsFollow(days: int, y: int, doy: int, y': int, doy': int)
    requires Splits(days, y, doy) && Splits(days + 1, y', doy')
    ensures IsValid(FromMarch(y, doy)) && FromMarch(y', doy') == NextDay(FromMarch(y, doy))
  {
    MarchDates(y, doy);
    YearsFollow(y);
    if doy + 1 < YearLength(y) {
      SplitIsUnique(days + 1, y, doy + 1, y', doy');
    } else {
      SplitIsUnique(days + 1, y + 1, 0, y', doy');
    }
  }

  /** Every day number gives a valid date, and the next day number the next date. */
  lemma {:induction false} CivilSuccessor(n: int)
    ensures IsValid(CivilFromDays(n))
    ensures CivilFromDays(n + 1) == NextDay(CivilFromDays(n))
  {
    var y, doy := CivilSplits(n);
    var y', doy' := CivilSplits(n + 1);
    SplitsFollow(n + 719_468, y, doy, y', doy');
  }

  /** Day 0 is day 306 of the March year 1969, the 369th of its era. */
  lemma {:induction false} EpochIsDayZero()
    ensures CivilFromDays(0) == EPOCH
  {
    YearOfEraIs(3, 17, 1, 671);
    DayOfYearIs(3, 17, 1, 671);
    FromMarchIs(1969, 306, 10);
    FromParts(0, 4, 135_080, 369, 306);
  }

  lemma {:induction false} EraIs(days: int, era: int)
    requires 0 <= days - era * 146_097 < 146_097
    ensures EraOf(days) == era
  {
    EraSplits(days);
    SameMultiple(days, EraOf(days), era);
  }

  lemma SameMultiple(days: int, a: int, b: int)
    requires 0 <= days - a * 146_097 < 146_097 && 0 <= days - b * 146_097 < 146_097
    ensures a == b
  {
  }

  lemma {:induction false} FromParts(n: int, era: int, doe: int, yoe: int, doy: int)
    requires n + 719_468 == era * 146_097 + doe && 0 <= doe < 146_097
    requires YearOfEra(doe) == yoe && DayOfYear(doe, yoe) == doy
    ensures CivilFromDays(n) == FromMarch(yoe + era * 400, doy)
  {
    EraIs(n + 719_468, era);
    CivilIsMarch(n);
    assert MarchYear(n + 719_468) == yoe + era * 400 && MarchDay(n + 719_468) == doy;
  }

  /** A numbering of valid dates that starts at the epoch and steps by one day is the count of days. */
  lemma {:induction false} CountingIsUnique(f: int -> Date, n: int)
    requires f(0) == EPOCH
    requires forall k :: IsValid(f(k))
    requires forall k, l :: l == k + 1 ==> f(l) == NextDay(f(k))
    ensures f(n) == NthDay(n)
    decreases if n < 0 then -n else n
  {
    if n > 0 {
      CountingIsUnique(f, n - 1);
    } else if n < 0 {
      CountingIsUnique(f, n + 1);
      assert f(n + 1) == NextDay(f(n));
      PreviousUndoesNext(f(n));
    }
  }

  /** The formula is the calendar: for every day number it is the date reached by counting. */
  lemma {:induction false} CivilIsNthDay(n: int)
    ensures CivilFromDays(n) == NthDay(n) && IsValid(CivilFromDays(n))
  {
    EpochIsDayZero();
    forall k ensures IsValid(CivilFromDays(k)) { CivilSuccessor(k); }
    forall k, l | l == k + 1 ensures CivilFromDays(l) == NextDay(CivilFromDays(k)) { CivilSuccessor(k); }
    CountingIsUnique(CivilFromDays, n);
  }

  // ----- a Unix time of day -----

  datatype Stamp = Stamp(date: Date, hour: int, minute: int, second: int)

  function AtTime(d: Date, ofDay: nat): Stamp {
    Stamp(d, ofDay / 3_600, (ofDay % 3_600) / 60, ofDay % 60)
  }

  /** The fields of the formatted build time, by a calendar. */
  function StampOf(dateOf: int -> Date, seconds: nat): Stamp {
    AtTime(dateOf(seconds / 86_400), seconds % 86_400)
  }

  /** The stamp is valid, and the next second's stamp is the next on clock and calendar. */
  ghost predicate ClockRuns(dateOf: int -> Date, seconds: nat) {
    var t := StampOf(dateOf, seconds);
    && 0 <= t.hour < 24 && 0 <= t.minute < 60 && 0 <= t.second < 60 && IsValid(t.date)
    && StampOf(dateOf, seconds + 1) == NextSecond(t)
  }

  function NextSecond(t: Stamp): Stamp {
    if t.second < 59 then t.(second := t.second + 1)
    else if t.minute < 59 then t.(minute := t.minute + 1, second := 0)
    else if t.hour < 23 then t.(hour := t.hour + 1, minute := 0, second := 0)
    else Stamp(NextDay(t.date), 0, 0, 0)
  }

  lemma {:induction false} ClockSteps(s: nat)
    ensures var r, r' := s % 86_400, (s + 1) % 86_400;
            var d, d' := s / 86_400, (s + 1) / 86_400;
            if r == 86_399 then r' == 0 && d' == d + 1 else r' == r + 1 && d' == d
  {
  }

  lemma {:induction false} AtTimeSteps(d: Date, r: nat)
    requires r < 86_400
    ensures var t := AtTime(d, r);
            && 0 <= t.hour < 24 && 0 <= t.minute < 60 && 0 <= t.second < 60 && t.date == d
            && NextSecond(t) == if r < 86_399 then AtTime(d, r + 1) else AtTime(NextDay(d), 0)
  {
    TimeOfDaySteps(r);
  }

  /** Time of day in range, and each second is followed by the next on the clock and the calendar. */
  lemma {:induction false} StampSuccessor(seconds: nat)
    ensures ClockRuns(CivilFromDays, seconds)
  {
    CivilSteps(CivilFromDays, seconds / 86_400);
    StampSteps(CivilFromDays, seconds);
  }

  /** The clock starts with the epoch. */
  lemma {:induction false} StampsStart()
    ensures StampOf(CivilFromDays, 0) == Stamp(Date(1970, 1, 1), 0, 0, 0)
  {
    EpochIsDayZero();
  }

  lemma {:induction false} CivilSteps(dateOf: int -> Date, n: int)
    requires dateOf == CivilFromDays
    ensures DayFollows(dateOf, n)
  {
    CivilSuccessor(n);
  }

  ghost predicate DayFollows(dateOf: int -> Date, n: int) {
    IsValid(dateOf(n)) && dateOf(n + 1) == NextDay(dateOf(n))
  }

  /** For any calendar whose next day number is the next date. */
  lemma {:induction false} StampSteps(dateOf: int -> Date, seconds: nat)
    requires DayFollows(dateOf, seconds / 86_400)
    ensures ClockRuns(dateOf, seconds)
  {
    ClockSteps(seconds);
    AtTimeSteps(dateOf(seconds / 86_400), seconds % 86_400);
  }

  lemma {:induction false} TimeOfDaySteps(r: nat)
    requires r < 86_400
    ensures 0 <= r / 3_600 < 24 && 0 <= (r % 3_600) / 60 < 60 && 0 <= r % 60 < 60
    ensures var h, m, s := r / 3_600, (r % 3_600) / 60, r % 60;
            var h', m', s' := (r + 1) / 3_600, ((r + 1) % 3_600) / 60, (r + 1) % 60;
            && (s < 59 ==> h' == h && m' == m && s' == s + 1)
            && (s == 59 && m < 59 ==> h' == h && m' == m + 1 && s' == 0)
            && (s == 59 && m == 59 ==> h' == h + 1 && m' == 0 && s' == 0)
            && (r == 86_399 <==> h == 23 && m == 59 && s == 59)
  {
    var h, m, s := r / 3_600, (r % 3_600) / 60, r % 60;
    assert r == 3_600 * h + 60 * m + s;
  }
}
