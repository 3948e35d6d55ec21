/** The weekly digest key: calendar arithmetic on the Gregorian calendar, against ISO 8601 weeks. */
module WeekKey {
  import opened Prelude

  // ---------- The calendar ----------

  /** How many multiples of `k` there are from 1 to `n`. */
  function Multiples(n: int, k: int): int
    requires k > 0
  {
    n / k
  }

  /** Day number of 1 January; day 0 is Monday 1 January of the year 1. */
  function Start(y: int): int {
    365 * (y - 1) + Multiples(y - 1, 4) - Multiples(y - 1, 100) + Multiples(y - 1, 400)
  }

  predicate Divides(k: int, n: int)
    requires k > 0
  {
    n % k == 0
  }

  predicate Leap(y: int) {
    Divides(4, y) && (!Divides(100, y) || Divides(400, y))
  }

  lemma YearLength(y: int)
    ensures Start(y + 1) == Start(y) + if Leap(y) then 366 else 365
  {
    FourthYear(y);
    HundredthYear(y);
    FourHundredthYear(y);
  }

  lemma FourthYear(y: int)
    ensures Multiples(y, 4) == Multiples(y - 1, 4) + if Divides(4, y) then 1 else 0
  {
  }

  lemma HundredthYear(y: int)
    ensures Multiples(y, 100) == Multiples(y - 1, 100) + if Divides(100, y) then 1 else 0
    ensures Divides(100, y) ==> Divides(4, y)
  {
  }

  lemma FourHundredthYear(y: int)
    ensures Multiples(y, 400) == Multiples(y - 1, 400) + if Divides(400, y) then 1 else 0
    ensures Divides(400, y) ==> Divides(100, y)
  {
  }

  function MonthLength(y: int, m: int): int {
    if m == 2 then if Leap(y) then 29 else 28
    else if m == 4 || m == 6 || m == 9 || m == 11 then 30
    else 31
  }

  function DaysBeforeMonth(y: int, m: nat): int {
    if m <= 1 then 0 else DaysBeforeMonth(y, m - 1) + MonthLength(y, m - 1)
  }

  /** A date as the local clock shows it. */
  datatype Date = Date(year: int, month: nat, day: int)

  predicate ValidDate(d: Date) {
    1 <= d.month <= 12 && 1 <= d.day <= MonthLength(d.year, d.month)
  }

  /** The day number of a date. */
  function DayNumber(d: Date): int {
    Start(d.year) + DaysBeforeMonth(d.year, d.month) + d.day - 1
  }

  /** `Date.UTC` reads the years 0 to 99 as 1900 to 1999. */
  function AsRead(d: Date): Date {
    if 0 <= d.year <= 99 then d.(year := 1900 + d.year) else d
  }

  function UtcDay(d: Date): int {
    DayNumber(AsRead(d))
  }

  lemma MonthTable(y: int)
    ensures DaysBeforeMonth(y, 13) == if Leap(y) then 366 else 365
  {
    assert DaysBeforeMonth(y, 2) == 31;
    assert DaysBeforeMonth(y, 3) == 31 + MonthLength(y, 2);
    assert DaysBeforeMonth(y, 5) == DaysBeforeMonth(y, 3) + 61;
    assert DaysBeforeMonth(y, 7) == DaysBeforeMonth(y, 5) + 61;
    assert DaysBeforeMonth(y, 9) == DaysBeforeMonth(y, 7) + 62;
    assert DaysBeforeMonth(y, 11) == DaysBeforeMonth(y, 9) + 61;
    assert DaysBeforeMonth(y, 13) == DaysBeforeMonth(y, 11) + 61;
  }

  lemma {:induction false} MonthsAddUp(y: int, m: nat, n: nat)
    requires 1 <= m <= n
    ensures DaysBeforeMonth(y, m) <= DaysBeforeMonth(y, n)
  {
    if m < n {
      MonthsAddUp(y, m, n - 1);
    }
  }

  /** A valid date lies in its own year. */
  lemma DateInYear(d: Date)
    requires ValidDate(d)
    ensures Start(d.year) <= DayNumber(d) < Start(d.year + 1)
  {
    MonthsAddUp(d.year, 1, d.month);
    MonthsAddUp(d.year, d.month + 1, 13);
    MonthTable(d.year);
    YearLength(d.year);
  }

  function YearFrom(n: int, y: int): (r: int)
    requires Start(y) <= n
    ensures Start(r) <= n < Start(r + 1)
    decreases n - Start(y)
  {
    YearLength(y);
    if n < Start(y + 1) then y else YearFrom(n, y + 1)
  }

  function YearBefore(n: int, y: int): (r: int)
    requires n < Start(y)
    ensures Start(r) <= n < Start(r + 1)
    decreases Start(y) - n
  {
    YearLength(y - 1);
    if Start(y - 1) <= n then y - 1 else YearBefore(n, y - 1)
  }

  /** `getUTCFullYear` of a day number; the year before the year 1 is the year 0. */
  function YearOf(n: int): (r: int)
    ensures Start(r) <= n < Start(r + 1)
  {
    if Start(1) <= n then YearFrom(n, 1) else YearBefore(n, 1)
  }

  /** `getUTCDay`: Sunday is 0. */
  function UtcWeekday(n: int): int {
    (n + 1) % 7
  }

  // ---------- The key ----------

  function Thursday(n: int): int {
    n - (UtcWeekday(n) + 6) % 7 + 3
  }

  /** What the key rounds, for a Thursday and the fourth of January of its year. */
  function Quotient(thursday: int, jan4: int): real {
    (thursday - jan4 - 3 + (UtcWeekday(jan4) + 6) % 7) as real / 7.0
  }

  /** The fourth of January of a year, as the code makes it. */
  function January4(y: int): int {
    UtcDay(Date(y, 1, 4))
  }

  function WeekQuotient(thursday: int): real {
    Quotient(thursday, January4(YearOf(thursday)))
  }

  function WeekNumber(thursday: int): int {
    1 + (WeekQuotient(thursday) + 0.5).Floor
  }

  function Digit(d: nat): char
    requires d < 10
  {
    ['0', '1', '2', '3', '4', '5', '6', '7', '8', '9'][d]
  }

  function Decimal(n: nat): (s: string)
    ensures |s| >= 1 && s[0] != '-' && (|s| == 1 <==> n < 10)
  {
    if n < 10 then [Digit(n)] else Decimal(n / 10) + [Digit(n % 10)]
  }

  function Numeral(n: int): string {
    if n < 0 then "-" + Decimal(-n) else Decimal(n)
  }

  /** `padStart(2, '0')` of a number. */
  function TwoDigits(n: int): string {
    if 0 <= n < 10 then "0" + Decimal(n) else Numeral(n)
  }

  function PeriodKey(d: Date): string
    requires ValidDate(d)
  {
    var thursday := Thursday(UtcDay(d));
    Numeral(YearOf(thursday)) + "-W" + TwoDigits(WeekNumber(thursday))
  }

  predicate TwoDigitYear(y: int) {
    0 <= y <= 99
  }

  /** The date's year and the year of its week are both read as they are. */
  predicate ReadRight(d: Date) {
    ValidDate(d) && !TwoDigitYear(d.year) && !TwoDigitYear(YearOf(Thursday(DayNumber(d))))
  }

  lemma {:induction false} YearsAddUp(y: int, z: int)
    requires y <= z
    ensures Start(y) + (z - y) <= Start(z)
    decreases z - y
  {
    if y < z {
      YearLength(y);
      YearsAddUp(y + 1, z);
    }
  }

  // ---------- Against ISO 8601 ----------

  /** Monday to Sunday: two days share a week when the same Monday is on or before both. */
  predicate SameWeek(a: int, b: int) {
    a - a % 7 == b - b % 7
  }

  predicate IsThursday(n: int) {
    n % 7 == 3
  }

  /** How many Thursdays there are from day `lo` to day `hi`, both included. */
  function ThursdaysIn(lo: int, hi: int): nat
    decreases hi - lo
  {
    if hi < lo then 0 else ThursdaysIn(lo, hi - 1) + if IsThursday(hi) then 1 else 0
  }

  /** The Thursday of the week of 4 January, the first Thursday of the year. */
  function FirstThursday(y: int): int {
    Thursday(Start(y) + 3)
  }

  lemma FirstThursdayIsFirst(y: int)
    ensures IsThursday(FirstThursday(y)) && Start(y) <= FirstThursday(y) <= Start(y) + 6
  {
    ThursdayOfWeek(Start(y) + 3);
  }

  lemma ThursdayOfWeek(n: int)
    ensures IsThursday(Thursday(n)) && n - 3 <= Thursday(n) <= n + 3 && Thursday(n) == n - n % 7 + 3
  {
  }

  lemma {:induction false} CountThursdays(lo: int, first: int, hi: int)
    requires IsThursday(first) && lo <= first <= lo + 6
    ensures ThursdaysIn(lo, hi) == if hi < first then 0 else (hi - first) / 7 + 1
    decreases hi - lo
  {
    if hi >= lo {
      CountThursdays(lo, first, hi - 1);
    }
  }

  /** The rounded quotient is a whole number of weeks already, whatever year the fourth of January is taken from. */
  lemma QuotientIsExact(thursday: int)
    requires IsThursday(thursday)
    ensures thursday - Thursday(January4(YearOf(thursday))) == 7 * (WeekNumber(thursday) - 1)
    ensures WeekQuotient(thursday) == (WeekNumber(thursday) - 1) as real
  {
    WholeWeeks(thursday, January4(YearOf(thursday)));
  }

  lemma January4Read(y: int)
    ensures January4(y) == Start(if TwoDigitYear(y) then 1900 + y else y) + 3
  {
    assert DaysBeforeMonth(y, 1) == 0 && DaysBeforeMonth(1900 + y, 1) == 0;
  }

  lemma WholeWeeks(thursday: int, jan4: int)
    requires IsThursday(thursday)
    ensures Quotient(thursday, jan4) == (Quotient(thursday, jan4) + 0.5).Floor as real
    ensures thursday - Thursday(jan4) == 7 * (Quotient(thursday, jan4) + 0.5).Floor
  {
    ThursdayOfWeek(jan4);
    var weeks := WeeksApart(thursday, Thursday(jan4));
    SevenDays(weeks);
    assert Quotient(thursday, jan4) == (7 * weeks) as real / 7.0;
  }

  /** How many weeks one Thursday is after another. */
  function WeeksApart(a: int, b: int): (weeks: int)
    requires IsThursday(a) && IsThursday(b)
    ensures a - b == 7 * weeks
  {
    (a - b) / 7
  }

  lemma SevenDays(weeks: int)
    ensures (7 * weeks) as real / 7.0 == weeks as real && ((7 * weeks) as real / 7.0 + 0.5).Floor == weeks
  {
  }

  lemma WeeksInYear(thursday: int, first: int, start: int, week: int)
    requires IsThursday(thursday) && IsThursday(first) && start <= first <= start + 6
    requires start <= thursday < start + 366 && thursday - first == 7 * (week - 1)
    ensures 1 <= week <= 53
  {
  }

  /** Where the Thursday's year is read as it is, the week number is between 1 and 53. */
  lemma WeekNumberRange(thursday: int)
    requires IsThursday(thursday) && !TwoDigitYear(YearOf(thursday))
    ensures 1 <= WeekNumber(thursday) <= 53
  {
    var y := YearOf(thursday);
    QuotientIsExact(thursday);
    January4Read(y);
    FirstThursdayIsFirst(y);
    YearLength(y);
    WeeksInYear(thursday, FirstThursday(y), Start(y), WeekNumber(thursday));
  }

  /** The number of a Thursday's week: how many Thursdays its year has had. */
  function IsoWeek(thursday: int): nat {
    ThursdaysIn(Start(YearOf(thursday)), thursday)
  }

  /**
    The week of section 2.2.10 of ISO 8601:2004: its year is the year of the week's Thursday, and its number counts
    that year's Thursdays up to it, so week 1 has the first one.
   */
  function IsoKey(d: Date): string {
    KeyOfWeek(Thursday(DayNumber(d)))
  }

  function KeyOfWeek(thursday: int): string {
    Numeral(YearOf(thursday)) + "-W" + TwoDigits(IsoWeek(thursday))
  }

  lemma IsoWeekRange(thursday: int)
    requires IsThursday(thursday)
    ensures 1 <= IsoWeek(thursday) <= 53
    ensures thursday - FirstThursday(YearOf(thursday)) == 7 * (IsoWeek(thursday) - 1)
  {
    var y := YearOf(thursday);
    FirstThursdayIsFirst(y);
    CountThursdays(Start(y), FirstThursday(y), thursday);
    YearLength(y);
    assert WeeksApart(thursday, FirstThursday(y)) >= 0;
    WeeksInYear(thursday, FirstThursday(y), Start(y), IsoWeek(thursday));
  }

  lemma WeekCountsThursdays(thursday: int)
    requires IsThursday(thursday) && !TwoDigitYear(YearOf(thursday))
    ensures WeekNumber(thursday) == IsoWeek(thursday)
  {
    QuotientIsExact(thursday);
    January4Read(YearOf(thursday));
    IsoWeekRange(thursday);
  }

  /** A Thursday of the first century is measured against a fourth of January of the twentieth. */
  lemma WeekBelowZero(thursday: int)
    requires IsThursday(thursday) && TwoDigitYear(YearOf(thursday))
    ensures WeekNumber(thursday) < 0
  {
    var y := YearOf(thursday);
    QuotientIsExact(thursday);
    January4Read(y);
    ThursdayOfWeek(January4(y));
    YearsAddUp(y + 1, 1900 + y);
  }

  lemma YearAtMost(n: int, y: int)
    requires n < Start(y + 1)
    ensures YearOf(n) <= y
  {
    if YearOf(n) > y { YearsAddUp(y + 1, YearOf(n)); }
  }

  lemma YearAtLeast(n: int, y: int)
    requires Start(y) <= n
    ensures YearOf(n) >= y
  {
    if YearOf(n) < y { YearsAddUp(YearOf(n) + 1, y); }
  }

  lemma WeekOfFirstCentury(d: Date)
    requires ValidDate(d) && TwoDigitYear(d.year)
    ensures YearOf(Thursday(DayNumber(d))) <= 100
  {
    DateInYear(d);
    ThursdayOfWeek(DayNumber(d));
    YearsAddUp(d.year + 1, 100);
    YearLength(100);
    YearAtMost(Thursday(DayNumber(d)), 100);
  }

  lemma NotBeforeItsYear(d: Date)
    requires 1 <= d.month && 1 <= d.day
    ensures Start(d.year) <= DayNumber(d)
  {
    MonthsAddUp(d.year, 1, d.month);
  }

  lemma WeekFrom(n: int, y: int)
    requires Start(y + 1) <= n
    ensures YearOf(Thursday(n)) >= y
  {
    ThursdayOfWeek(n);
    YearsAddUp(y, y + 1);
    YearLength(y);
    YearAtLeast(Thursday(n), y);
  }

  /** A date of the first century is taken for one of the twentieth. */
  lemma ReadCenturiesLater(d: Date)
    requires ValidDate(d) && TwoDigitYear(d.year)
    ensures YearOf(Thursday(UtcDay(d))) >= 1899
  {
    NotBeforeItsYear(AsRead(d));
    YearsAddUp(1900, AsRead(d).year);
    WeekFrom(DayNumber(AsRead(d)), 1899);
  }

  /**
    The key is that of the date's ISO week if and only if neither the date's year nor the year of its week's
    Thursday is one of 0 to 99.
   */
  lemma KeyIsIsoIff(d: Date)
    requires ValidDate(d)
    ensures PeriodKey(d) == IsoKey(d) <==> ReadRight(d)
  {
    var read, thursday := Thursday(UtcDay(d)), Thursday(DayNumber(d));
    ThursdayOfWeek(UtcDay(d));
    ThursdayOfWeek(DayNumber(d));
    IsoWeekRange(thursday);
    if TwoDigitYear(d.year) {
      WeekOfFirstCentury(d);
      ReadCenturiesLater(d);
      WeekNumberRange(read);
      if PeriodKey(d) == IsoKey(d) {
        KeyParts(YearOf(read), WeekNumber(read), YearOf(thursday), IsoWeek(thursday));
      }
    } else if TwoDigitYear(YearOf(thursday)) {
      WeekBelowZero(thursday);
      SignsDiffer(YearOf(thursday), WeekNumber(thursday), IsoWeek(thursday));
    } else {
      WeekCountsThursdays(thursday);
    }
  }

  // ---------- Equal keys ----------

  lemma DigitInjective(a: nat, b: nat)
    requires a < 10 && b < 10 && Digit(a) == Digit(b)
    ensures a == b
  {
  }

  lemma {:induction false} DecimalInjective(m: nat, n: nat)
    requires Decimal(m) == Decimal(n)
    ensures m == n
  {
    assert Decimal(m)[|Decimal(m)| - 1] == Digit(m % 10) && Decimal(n)[|Decimal(n)| - 1] == Digit(n % 10);
    DigitInjective(m % 10, n % 10);
    if m >= 10 {
      assert Decimal(m / 10) == Decimal(m)[..|Decimal(m)| - 1];
      assert Decimal(n / 10) == Decimal(n)[..|Decimal(n)| - 1];
      DecimalInjective(m / 10, n / 10);
    }
  }

  lemma NumeralInjective(m: int, n: int)
    requires Numeral(m) == Numeral(n)
    ensures m == n
  {
    if m < 0 && n < 0 {
      assert Decimal(-m) == Numeral(m)[1..] && Decimal(-n) == Numeral(n)[1..];
      DecimalInjective(-m, -n);
    } else if m >= 0 && n >= 0 {
      DecimalInjective(m, n);
    }
  }

  lemma TwoDigitsLength(n: nat)
    requires n < 100
    ensures |TwoDigits(n)| == 2
  {
    if n >= 10 { assert Decimal(n / 10) == [Digit(n / 10)]; }
  }

  lemma TwoDigitsInjective(m: nat, n: nat)
    requires m < 100 && n < 100 && TwoDigits(m) == TwoDigits(n)
    ensures m == n
  {
    if m >= 10 { assert Decimal(m / 10) == [Digit(m / 10)] && TwoDigits(m)[0] == Digit(m / 10); }
    if n >= 10 { assert Decimal(n / 10) == [Digit(n / 10)] && TwoDigits(n)[0] == Digit(n / 10); }
    assert TwoDigits(m)[1] == Digit(m % 10) && TwoDigits(n)[1] == Digit(n % 10);
    DigitInjective(m % 10, n % 10);
    DigitInjective(m / 10, n / 10);
  }

  lemma KeyParts(y: int, w: nat, y': int, w': nat)
    requires w < 100 && w' < 100
    requires Numeral(y) + "-W" + TwoDigits(w) == Numeral(y') + "-W" + TwoDigits(w')
    ensures y == y' && w == w'
  {
    TwoDigitsLength(w);
    TwoDigitsLength(w');
    var k, k' := Numeral(y) + "-W" + TwoDigits(w), Numeral(y') + "-W" + TwoDigits(w');
    assert k[|k| - 2..] == TwoDigits(w) && k'[|k'| - 2..] == TwoDigits(w');
    assert k[..|k| - 4] == Numeral(y) && k'[..|k'| - 4] == Numeral(y');
    TwoDigitsInjective(w, w');
    NumeralInjective(y, y');
  }

  lemma SignsDiffer(y: int, w: int, week: nat)
    requires w < 0
    ensures Numeral(y) + "-W" + TwoDigits(w) != Numeral(y) + "-W" + TwoDigits(week)
  {
    var k, k' := Numeral(y) + "-W" + TwoDigits(w), Numeral(y) + "-W" + TwoDigits(week);
    assert k[|Numeral(y)| + 2] == '-' && k'[|Numeral(y)| + 2] == TwoDigits(week)[0] != '-';
  }

  lemma SameThursday(s: int, t: int)
    requires IsThursday(s) && IsThursday(t) && YearOf(s) == YearOf(t) && IsoWeek(s) == IsoWeek(t)
    ensures s == t
  {
    IsoWeekRange(s);
    IsoWeekRange(t);
  }

  /** Two dates that are read right have the same key if and only if they fall in the same Monday-to-Sunday week. */
  lemma SameKeyIffSameWeek(a: Date, b: Date)
    requires ReadRight(a) && ReadRight(b)
    ensures PeriodKey(a) == PeriodKey(b) <==> SameWeek(DayNumber(a), DayNumber(b))
  {
    KeyIsIsoIff(a);
    KeyIsIsoIff(b);
    IsoKeysMeet(DayNumber(a), DayNumber(b));
  }

  lemma IsoKeysMeet(m: int, n: int)
    ensures KeyOfWeek(Thursday(m)) == KeyOfWeek(Thursday(n)) <==> SameWeek(m, n)
  {
    var s, t := Thursday(m), Thursday(n);
    ThursdayOfWeek(m);
    ThursdayOfWeek(n);
    if KeyOfWeek(s) == KeyOfWeek(t) {
      IsoWeekRange(s);
      IsoWeekRange(t);
      KeyParts(YearOf(s), IsoWeek(s), YearOf(t), IsoWeek(t));
      SameThursday(s, t);
    }
  }

  /** Friday 1 January of the year 100 is in a week of the year 99, whose fourth of January is taken for one of 1999. */
  lemma NewYear100IsMisread()
    ensures var d := Date(100, 1, 1);
      ValidDate(d) && UtcDay(d) == DayNumber(d) && YearOf(Thursday(DayNumber(d))) == 99 && PeriodKey(d) != IsoKey(d)
  {
    var d := Date(100, 1, 1);
    assert DaysBeforeMonth(100, 1) == 0 && DayNumber(d) == Start(100) == 36159;
    assert Thursday(36159) == 36158;
    YearLength(99);
    YearAtMost(36158, 99);
    YearAtLeast(36158, 99);
    KeyIsIsoIff(d);
  }

  lemma WeeksDiffer(m: int, n: int)
    requires YearOf(Thursday(m)) != YearOf(Thursday(n))
    ensures !SameWeek(m, n)
  {
    ThursdayOfWeek(m);
    ThursdayOfWeek(n);
  }

  /** A date of the years 0 to 99 is taken for one in another week, of the years 1900 to 1999, and keyed by its year. */
  lemma TwoDigitYearsCollide(d: Date)
    requires ValidDate(d) && TwoDigitYear(d.year)
    ensures AsRead(d).year == 1900 + d.year && !SameWeek(DayNumber(AsRead(d)), DayNumber(d))
    ensures PeriodKey(d) != IsoKey(d)
  {
    WeekOfFirstCentury(d);
    ReadCenturiesLater(d);
    WeeksDiffer(UtcDay(d), DayNumber(d));
    KeyIsIsoIff(d);
  }
}

/** Weekly digests: at most one a business a week. */
module Digests {
  import opened Prelude
  import opened WeekKey

  /** A stored digest, with the local date on which it was made. */
  datatype Digest = Digest(business: Id, key: string, summary: string, made: Date)

  predicate Stamped(d: Digest) {
    ReadRight(d.made) && d.key == PeriodKey(d.made)
  }

  /** Every digest has the key of the day it was made, and no business has two with one key. */
  ghost predicate Sound(digests: seq<Digest>) {
    && (forall d :: d in digests ==> Stamped(d))
    && (forall i, j :: 0 <= i < j < |digests| ==>
          digests[i].business != digests[j].business || digests[i].key != digests[j].key)
  }

  predicate MadeInWeek(d: Digest, now: Date) {
    SameWeek(DayNumber(d.made), DayNumber(now))
  }

  lemma KeysTellWeeks(digests: seq<Digest>, now: Date)
    requires Sound(digests) && ReadRight(now)
    ensures forall d :: d in digests ==> (d.key == PeriodKey(now) <==> MadeInWeek(d, now))
  {
    forall d | d in digests ensures d.key == PeriodKey(now) <==> MadeInWeek(d, now) {
      SameKeyIffSameWeek(d.made, now);
    }
  }

  lemma AddedSound(digests: seq<Digest>, made: Digest)
    requires Sound(digests) && Stamped(made)
    requires forall d :: d in digests ==> d.business != made.business || d.key != made.key
    ensures Sound(digests + [made])
  {
  }

  class Store {
    var digests: seq<Digest>

    constructor ()
      ensures digests == []
    {
      digests := [];
    }

    /**
      This week's digest of a business: the stored one, or a new one unless the business had no orders
      or nothing could be summarised.
     */
    method GenerateForBusiness(business: Id, now: Date, orderCount: nat, summary: string)
      returns (digest: Option<Digest>)
      requires Sound(digests) && ReadRight(now)
      modifies this
      ensures Sound(digests)
      ensures digests == old(digests) || (digest.Some? && digests == old(digests) + [digest.value])
      ensures digest.Some? ==>
        digest.value in digests && digest.value.business == business && MadeInWeek(digest.value, now)
      ensures digests != old(digests) <==>
        && orderCount > 0 && summary != ""
        && forall d :: d in old(digests) && d.business == business ==> !MadeInWeek(d, now)
    {
      var key := PeriodKey(now);
      KeysTellWeeks(digests, now);
      var existing := Find(digests, (d: Digest) => d.business == business && d.key == key);
      if existing.Some? {
        assert digests[existing.value] in digests;
        return Some(digests[existing.value]);
      }
      if orderCount == 0 || summary == "" { return None; }
      var made := Digest(business, key, summary, now);
      AddedSound(digests, made);
      digests := digests + [made];
      return Some(made);
    }
  }

  /** No business has two digests made in the same week. */
  lemma OneDigestAWeek(digests: seq<Digest>, i: nat, j: nat)
    requires Sound(digests) && i < j < |digests| && digests[i].business == digests[j].business
    ensures !SameWeek(DayNumber(digests[i].made), DayNumber(digests[j].made))
  {
    assert Stamped(digests[i]) && Stamped(digests[j]);
    SameKeyIffSameWeek(digests[i].made, digests[j].made);
  }
}
