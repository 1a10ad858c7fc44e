/** The calendar arithmetic of `ops/record.rs`: a count of seconds to a date and a time, by
    nested integer divisions, against the Gregorian rules (section 3.2.1 of ISO 8601:2004). */
module Civil {
  import opened Common

  datatype Date = Date(y: nat, m: nat, d: nat)

  datatype Time = Time(h: nat, m: nat, s: nat)

  // ---- the code's arithmetic -------------------------------------------------------------

  function YearOfEra(doe: nat): nat
    requires doe < 146_097
  {
    (doe - doe / 1_460 + doe / 36_524 - doe / 146_096) / 365
  }

  /** The first day of a year of the era, counted from 1 March. */
  function YearStart(yoe: nat): nat {
    365 * yoe + yoe / 4 - yoe / 100
  }

  function MonthStart(mp: nat): nat { (153 * mp + 2) / 5 }

  function CivilDate(days: nat): Date {
    var z := days + 719_468;
    var era := z / 146_097;
    var doe := z - era * 146_097;
    DateIn(era, doe)
  }

  function DateIn(era: nat, doe: nat): Date
    requires doe < 146_097
  {
    var yoe := YearOfEra(doe);
    EraDay(doe);
    var doy := doe - YearStart(yoe);
    var mp := (5 * doy + 2) / 153;
    MonthDay(doy);
    var d := doy - MonthStart(mp) + 1;
    var m := if mp < 10 then mp + 3 else mp - 9;
    Date(yoe + era * 400 + (if m <= 2 then 1 else 0), m, d)
  }

  function Civil(secs: nat): (Date, Time) {
    var rem := secs % 86_400;
    (CivilDate(secs / 86_400), Time(rem / 3_600, rem % 3_600 / 60, rem % 60))
  }

  // ---- the Gregorian rules ---------------------------------------------------------------------

  predicate Leap(y: nat) { y % 4 == 0 && (y % 100 != 0 || y % 400 == 0) }

  function YearLength(y: nat): nat { if Leap(y) then 366 else 365 }

  function MonthLength(y: nat, m: nat): nat {
    if m == 2 then (if Leap(y) then 29 else 28)
    else if m == 4 || m == 6 || m == 9 || m == 11 then 30
    else 31
  }

  predicate ValidDate(t: Date) {
    1 <= t.m <= 12 && 1 <= t.d <= MonthLength(t.y, t.m)
  }

  /** Days from 1 January 1970 to 1 January of a year. */
  function DaysToYear(y: nat): nat {
    if y <= 1970 then 0 else DaysToYear(y - 1) + YearLength(y - 1)
  }

  function DaysToMonth(y: nat, m: nat): nat {
    if m <= 1 then 0 else DaysToMonth(y, m - 1) + MonthLength(y, m - 1)
  }

  function DayNumber(t: Date): int {
    DaysToYear(t.y) + DaysToMonth(t.y, t.m) + t.d - 1
  }

  // ---- the year of the era -----------------------------------------------------------------------

  lemma DivIs(x: nat, d: nat, q: nat)
    requires d > 0 && q * d <= x < (q + 1) * d
    ensures x / d == q
  {
    var e := x / d;
    assert x == e * d + x % d;
    if e < q { MulMono(e + 1, q, d); }
    if q < e { MulMono(q + 1, e, d); }
  }

  lemma MulMono(a: nat, b: nat, d: nat)
    requires a <= b
    ensures a * d <= b * d
  {
    assert b * d == a * d + (b - a) * d;
  }

  /** Centuries, groups of four years, years and days of a day of the era. */
  datatype Split = Split(a: nat, b: nat, c: nat, r: nat)

  function SplitOf(doe: nat): (s: Split)
    requires doe < 146_097
    ensures s.a <= 3 && s.b <= 24 && s.c <= 3 && doe == 36_524 * s.a + 1_461 * s.b + 365 * s.c + s.r
    ensures s.r <= 364 || (s.r == 365 && s.c == 3 && (s.b < 24 || s.a == 3))
  {
    var a := Min(doe / 36_524, 3);
    var doc := doe - 36_524 * a;
    var b := doc / 1_461;
    var rest := doc - 1_461 * b;
    var c := Min(rest / 365, 3);
    Split(a, b, c, rest - 365 * c)
  }

  lemma YearStartIs(a: nat, b: nat, c: nat)
    requires b <= 24 && c <= 3
    ensures YearStart(100 * a + 4 * b + c) == 36_524 * a + 1_461 * b + 365 * c
  {
    var y := 100 * a + 4 * b + c;
    DivIs(y, 4, 25 * a + b);
    DivIs(y, 100, a);
  }

  /** The divisions by 1460, 36524 and 146096 leave exactly 365 days a year. */
  lemma YearOfEraIs(doe: nat)
    requires doe < 146_097
    ensures var s := SplitOf(doe); YearOfEra(doe) == 100 * s.a + 4 * s.b + s.c
  {
    var s := SplitOf(doe);
    var carry := if 24 * s.a + s.b + 365 * s.c + s.r >= 1_460 then 1 else 0;
    var fours := 25 * s.a + s.b + carry;
    DivIs(doe, 1_460, fours);
    assert doe / 36_524 - doe / 146_096 == s.a by { CenturiesOf(doe, s); }
    var left := 36_500 * s.a + 1_460 * s.b + 365 * s.c + s.r - carry;
    assert doe - doe / 1_460 + doe / 36_524 - doe / 146_096 == left;
    DivIs(left, 365, 100 * s.a + 4 * s.b + s.c);
  }

  lemma CenturiesOf(doe: nat, s: Split)
    requires doe < 146_097 && s == SplitOf(doe)
    ensures doe / 36_524 - doe / 146_096 == s.a
  {
    if doe == 146_096 {
      DivIs(doe, 36_524, 4);
    } else {
      DivIs(doe, 146_096, 0);
    }
  }

  /** The day of the year is what the split leaves. */
  lemma EraDay(doe: nat)
    requires doe < 146_097
    ensures var s := SplitOf(doe);
            && YearOfEra(doe) == 100 * s.a + 4 * s.b + s.c
            && YearStart(YearOfEra(doe)) + s.r == doe && s.r <= 365
  {
    var s := SplitOf(doe);
    YearOfEraIs(doe);
    YearStartIs(s.a, s.b, s.c);
  }

  // ---- the month --------------------------------------------------------------------------------------

  lemma MonthDay(doy: nat)
    requires doy <= 365
    ensures var mp := (5 * doy + 2) / 153;
            mp <= 11 && MonthStart(mp) <= doy && doy < MonthStart(mp + 1)
  {
  }

  // ---- the two counts agree ---------------------------------------------------------------------------

  /** Days from 1 January of the year 1 to 1 January of a year. */
  function DaysBefore(y: nat): int
    requires y >= 1
  {
    365 * (y - 1) + (y - 1) / 4 - (y - 1) / 100 + (y - 1) / 400
  }

  lemma DivStep(n: nat, d: nat)
    requires d > 0
    ensures (n + 1) / d == n / d + if (n + 1) % d == 0 then 1 else 0
  {
    var q, r := n / d, n % d;
    assert n == q * d + r;
    if r == d - 1 {
      assert n + 1 == (q + 1) * d;
      DivIs(n + 1, d, q + 1);
    } else {
      DivIs(n + 1, d, q);
      assert (n + 1) % d == r + 1;
    }
  }

  lemma LeapStep(y: nat)
    requires y >= 1
    ensures DaysBefore(y + 1) == DaysBefore(y) + YearLength(y)
  {
    DivStep(y - 1, 4);
    DivStep(y - 1, 100);
    DivStep(y - 1, 400);
    LeapCount(y);
  }

  lemma LeapCount(y: nat)
    ensures y % 400 == 0 ==> y % 100 == 0
    ensures y % 100 == 0 ==> y % 4 == 0
  {
    if y % 400 == 0 { assert y == 100 * (4 * (y / 400)); }
    if y % 100 == 0 { assert y == 4 * (25 * (y / 100)); }
  }

  lemma {:induction false} YearsCounted(y: nat)
    requires y >= 1970
    ensures DaysToYear(y) == DaysBefore(y) - 719_162
  {
    if y > 1970 {
      YearsCounted(y - 1);
      LeapStep(y - 1);
    }
  }

  /** The code counts years from 1 March: 400 of them are an era. */
  lemma EraYears(era: nat, yoe: nat)
    requires yoe < 400
    ensures DaysBefore(yoe + 400 * era + 1) == 146_097 * era + YearStart(yoe)
  {
    var y := yoe + 400 * era;
    DivIs(y, 4, yoe / 4 + 100 * era);
    DivIs(y, 100, yoe / 100 + 4 * era);
    DivIs(y, 400, era);
  }

  /** From 1 March to the first of a month, as the code has it and as the calendar has it. */
  lemma MonthsCounted(y: nat, mp: nat)
    requires mp <= 11
    ensures mp < 10 ==> MonthStart(mp) + DaysToMonth(y, 3) == DaysToMonth(y, mp + 3)
    ensures mp >= 10 ==> MonthStart(mp) == 306 + DaysToMonth(y, mp - 9)
    ensures mp < 10 ==> MonthStart(mp + 1) - MonthStart(mp) == MonthLength(y, mp + 3)
    ensures mp == 10 ==> MonthStart(mp + 1) - MonthStart(mp) == MonthLength(y, 1)
    ensures DaysToMonth(y, 3) == 59 + if Leap(y) then 1 else 0
  {
    assert DaysToMonth(y, 2) == 31 && DaysToMonth(y, 1) == 0;
    assert DaysToMonth(y, 4) == DaysToMonth(y, 3) + 31 && DaysToMonth(y, 5) == DaysToMonth(y, 4) + 30;
    assert DaysToMonth(y, 6) == DaysToMonth(y, 5) + 31 && DaysToMonth(y, 7) == DaysToMonth(y, 6) + 30;
    assert DaysToMonth(y, 8) == DaysToMonth(y, 7) + 31 && DaysToMonth(y, 9) == DaysToMonth(y, 8) + 31;
    assert DaysToMonth(y, 10) == DaysToMonth(y, 9) + 30 && DaysToMonth(y, 11) == DaysToMonth(y, 10) + 31;
    assert DaysToMonth(y, 12) == DaysToMonth(y, 11) + 30;
  }

  /** The last day of a year of the era exists in leap years only. */
  lemma LeapDay(era: nat, doe: nat)
    requires doe < 146_097
    ensures SplitOf(doe).r == 365 <==> SplitOf(doe).r > 364
    ensures SplitOf(doe).r == 365 ==> Leap(YearOfEra(doe) + 400 * era + 1)
  {
    hide SplitOf, YearOfEra, YearStart, Leap;
    var s := SplitOf(doe);
    EraDay(doe);
    if s.r == 365 { FourthIsLeap(era, s.a, s.b); }
  }

  lemma FourthIsLeap(era: nat, a: nat, b: nat)
    requires b < 24 || (b == 24 && a == 3)
    ensures Leap(100 * a + 4 * b + 4 + 400 * era)
  {
    var y := 100 * a + 4 * b + 4 + 400 * era;
    ModIs(y, 4, 25 * a + b + 1 + 100 * era, 0);
    if b == 24 {
      ModIs(y, 400, era + 1, 0);
    } else {
      ModIs(y, 100, a + 4 * era, 4 * b + 4);
    }
  }

  lemma ModIs(x: nat, d: nat, q: nat, r: nat)
    requires r < d && x == q * d + r
    ensures x % d == r
  {
    MulMono(q, q + 1, d);
    assert (q + 1) * d == q * d + d;
    DivIs(x, d, q);
  }

  // ---- the date is the day's -------------------------------------------------------------------------------

  /** Where a day lies: year (from 1 March), day of that year, and the date the code gives for it. */
  lemma Place(days: nat) returns (y: nat, r: nat)
    ensures r <= 365 && days + 719_468 == DaysBefore(y + 1) + r && (r == 365 ==> Leap(y + 1))
    ensures var mp := (5 * r + 2) / 153;
            && mp <= 11 && MonthStart(mp) <= r < MonthStart(mp + 1)
            && CivilDate(days) == (if mp < 10 then Date(y, mp + 3, r - MonthStart(mp) + 1)
                                   else Date(y + 1, mp - 9, r - MonthStart(mp) + 1))
  {
    hide YearOfEra, YearStart, SplitOf, MonthStart, Leap, DaysBefore, DateIn;
    var z := days + 719_468;
    var era := z / 146_097;
    var doe := z - era * 146_097;
    y, r := YearOfEra(doe) + 400 * era, SplitOf(doe).r;
    EraDay(doe);
    LeapDay(era, doe);
    EraYears(era, YearOfEra(doe));
    MonthDay(r);
    DateInEra(era, doe);
  }

  lemma DateInEra(era: nat, doe: nat)
    requires doe < 146_097
    ensures var y, r := YearOfEra(doe) + 400 * era, SplitOf(doe).r;
            var mp := (5 * r + 2) / 153;
            && mp <= 11 && MonthStart(mp) <= r
            && DateIn(era, doe) == (if mp < 10 then Date(y, mp + 3, r - MonthStart(mp) + 1)
                                    else Date(y + 1, mp - 9, r - MonthStart(mp) + 1))
  {
    hide YearOfEra, YearStart, SplitOf, MonthStart;
    EraDay(doe);
    MonthDay(SplitOf(doe).r);
  }

  lemma AfterEpoch(days: nat, y: nat, r: nat)
    requires r <= 365 && days + 719_468 == DaysBefore(y + 1) + r
    ensures y >= 1969 && (y == 1969 ==> r >= 306)
  {
  }

  /** The date is valid, and its day number under the Gregorian rules is the day. */
  lemma CivilIsGregorian(days: nat)
    ensures var t := CivilDate(days);
            ValidDate(t) && t.y >= 1970 && DayNumber(t) == days
  {
    hide MonthStart, DaysToMonth, DaysToYear, CivilDate, DaysBefore, Leap;
    var y, r := Place(days);
    AfterEpoch(days, y, r);
    var mp := (5 * r + 2) / 153;
    if mp < 10 {
      LateStart(mp, r);
      MonthsCounted(y, mp);
      YearsCounted(y);
      LeapStep(y);
    } else {
      MonthsCounted(y + 1, mp);
      YearsCounted(y + 1);
      FebruaryEnds(mp, r);
    }
  }

  lemma LateStart(mp: nat, r: nat)
    requires mp < 10 && r < MonthStart(mp + 1)
    ensures r < 306
  {
  }

  lemma FebruaryEnds(mp: nat, r: nat)
    requires mp == 10 || mp == 11
    ensures mp == 11 ==> MonthStart(mp) == 337
    ensures mp == 10 ==> MonthStart(mp) == 306 && MonthStart(mp + 1) == 337
  {
  }

  // ---- the other way, and consecutive days ---------------------------------------------------------------------

  lemma {:induction false} MonthsFit(y: nat, m: nat, n: nat)
    requires 1 <= m <= n <= 12
    ensures DaysToMonth(y, m) + MonthLength(y, m) <= if n < 12 then DaysToMonth(y, n + 1) else YearLength(y)
    decreases n - m
  {
    if m < n {
      MonthsFit(y, m + 1, n);
    } else if n == 12 {
      MonthsCounted(y, 9);
    }
  }

  lemma {:induction false} YearsFit(y: nat, u: nat)
    requires 1970 <= y < u
    ensures DaysToYear(y) + YearLength(y) <= DaysToYear(u)
  {
    if y < u - 1 { YearsFit(y, u - 1); }
  }

  /** A later date has a larger day number. */
  lemma Ordered(t: Date, u: Date)
    requires ValidDate(t) && ValidDate(u) && t.y >= 1970
    requires t.y < u.y || (t.y == u.y && (t.m < u.m || (t.m == u.m && t.d < u.d)))
    ensures DayNumber(t) < DayNumber(u)
  {
    hide DaysToMonth, DaysToYear, MonthLength, YearLength;
    if t.y < u.y {
      MonthsFit(t.y, t.m, 12);
      YearsFit(t.y, u.y);
    } else if t.m < u.m {
      MonthsFit(t.y, t.m, u.m - 1);
    }
  }

  /** Every date since 1970 is the date of its day number. */
  lemma DateOfItsNumber(t: Date)
    requires ValidDate(t) && t.y >= 1970
    ensures DayNumber(t) >= 0 && CivilDate(DayNumber(t)) == t
  {
    hide CivilDate;
    var u := CivilDate(DayNumber(t));
    CivilIsGregorian(DayNumber(t));
    if t != u {
      if u.y < t.y || (t.y == u.y && (u.m < t.m || (t.m == u.m && u.d < t.d))) {
        Ordered(u, t);
      } else {
        Ordered(t, u);
      }
    }
  }

  /** The next date by the rules of the calendar. */
  function NextDate(t: Date): Date {
    if t.d < MonthLength(t.y, t.m) then t.(d := t.d + 1)
    else if t.m < 12 then Date(t.y, t.m + 1, 1)
    else Date(t.y + 1, 1, 1)
  }

  lemma NextNumber(t: Date)
    requires ValidDate(t) && t.y >= 1970
    ensures ValidDate(NextDate(t)) && DayNumber(NextDate(t)) == DayNumber(t) + 1
  {
    if t.d == MonthLength(t.y, t.m) && t.m == 12 {
      MonthsCounted(t.y, 9);
    }
  }

  /** Consecutive days have consecutive dates. */
  lemma NextDayNextDate(days: nat)
    ensures CivilDate(days + 1) == NextDate(CivilDate(days))
  {
    hide CivilDate;
    CivilIsGregorian(days);
    var t := CivilDate(days);
    NextNumber(t);
    DateOfItsNumber(NextDate(t));
  }

  /** Seconds to date and time, for every count of seconds. */
  lemma CivilExact(secs: nat)
    ensures var (date, time) := Civil(secs);
            && ValidDate(date) && time.h < 24 && time.m < 60 && time.s < 60
            && 86_400 * DayNumber(date) + 3_600 * time.h + 60 * time.m + time.s == secs
  {
    hide CivilDate;
    CivilIsGregorian(secs / 86_400);
    var rem := secs % 86_400;
    assert rem == 3_600 * (rem / 3_600) + rem % 3_600;
    assert rem % 3_600 == 60 * (rem % 3_600 / 60) + rem % 60;
  }
}
