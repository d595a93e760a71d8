/**
 * The two time printers: the zone-less form of the API and the Z form of the Kafka payloads. Both
 * drop what is zero at the end. Years 0 to 9999, where an ISO string has a four-digit year.
 */
module LocalDateTime {
  import opened Payloads
  import opened RedisKeys

  /** A Date through its UTC getters; months are counted from 1. */
  datatype Utc = Utc(year: nat, month: nat, day: nat, hour: nat, minute: nat, second: nat, ms: nat)

  predicate Leap(year: nat) {
    year % 4 == 0 && (year % 100 != 0 || year % 400 == 0)
  }

  function MonthLength(year: nat, month: nat): nat {
    if month == 2 then (if Leap(year) then 29 else 28)
    else if month in {4, 6, 9, 11} then 30
    else 31
  }

  predicate Valid(u: Utc) {
    && u.year <= 9999 && 1 <= u.month <= 12 && 1 <= u.day <= MonthLength(u.year, u.month)
    && u.hour < 24 && u.minute < 60 && u.second < 60 && u.ms < 1000
  }

  // ---------------------------------------------------------------- instants

  function DaysBeforeMonth(year: nat, month: nat): nat
    requires month >= 1
  {
    if month == 1 then 0 else DaysBeforeMonth(year, month - 1) + MonthLength(year, month - 1)
  }

  function YearLength(year: nat): nat {
    DaysBeforeMonth(year, 13)
  }

  function DaysBeforeYear(year: nat): nat {
    if year == 0 then 0 else DaysBeforeYear(year - 1) + YearLength(year - 1)
  }

  function DayNumber(u: Utc): int
    requires Valid(u)
  {
    DaysBeforeYear(u.year) + DaysBeforeMonth(u.year, u.month) + u.day - 1
  }

  function MsOfDay(u: Utc): int {
    ((u.hour * 60 + u.minute) * 60 + u.second) * 1000 + u.ms
  }

  const MS_PER_DAY := 86400000

  /** Date.getTime() */
  function EpochMs(u: Utc): int
    requires Valid(u)
  {
    (DayNumber(u) - DaysBeforeYear(1970)) * MS_PER_DAY + MsOfDay(u)
  }

  /** Compares by the first part that differs. */
  predicate Before(a: Utc, b: Utc) {
    if a.year != b.year then a.year < b.year
    else if a.month != b.month then a.month < b.month
    else if a.day != b.day then a.day < b.day
    else if a.hour != b.hour then a.hour < b.hour
    else if a.minute != b.minute then a.minute < b.minute
    else if a.second != b.second then a.second < b.second
    else a.ms < b.ms
  }

  lemma YearsHave365Or366Days(year: nat)
    ensures YearLength(year) == if Leap(year) then 366 else 365
  {
    var leap := if Leap(year) then 1 else 0;
    assert DaysBeforeMonth(year, 2) == 31;
    assert DaysBeforeMonth(year, 3) == 59 + leap;
    assert DaysBeforeMonth(year, 5) == 120 + leap;
    assert DaysBeforeMonth(year, 7) == 181 + leap;
    assert DaysBeforeMonth(year, 9) == 243 + leap;
    assert DaysBeforeMonth(year, 11) == 304 + leap;
    assert DaysBeforeMonth(year, 12) == 334 + leap;
  }

  /** Leap days of the years before this one. */
  function LeapDays(year: nat): int {
    (year + 3) / 4 - (year + 99) / 100 + (year + 399) / 400
  }

  lemma OneYearMore(year: nat)
    ensures LeapDays(year + 1) == LeapDays(year) + if Leap(year) then 1 else 0
  {
    FoursPassed(year);
    HundredsPassed(year);
    FourHundredsPassed(year);
    MultiplesNest(year);
  }

  lemma FoursPassed(n: nat)
    ensures (n + 4) / 4 == (n + 3) / 4 + if n % 4 == 0 then 1 else 0
  {}

  lemma HundredsPassed(n: nat)
    ensures (n + 100) / 100 == (n + 99) / 100 + if n % 100 == 0 then 1 else 0
  {
    var q, r := n / 100, n % 100;
    assert n == 100 * q + r && 0 <= r < 100;
    assert (n + 100) / 100 == q + 1;
    assert (n + 99) / 100 == if r == 0 then q else q + 1;
  }

  lemma FourHundredsPassed(n: nat)
    ensures (n + 400) / 400 == (n + 399) / 400 + if n % 400 == 0 then 1 else 0
  {
    var q, r := n / 400, n % 400;
    assert n == 400 * q + r && 0 <= r < 400;
    assert (n + 400) / 400 == q + 1;
    assert (n + 399) / 400 == if r == 0 then q else q + 1;
  }

  lemma MultiplesNest(n: nat)
    ensures n % 100 == 0 ==> n % 4 == 0
    ensures n % 400 == 0 ==> n % 100 == 0
  {
    assert n == 4 * (25 * (n / 100)) + n % 100;
    assert n == 100 * (4 * (n / 400)) + n % 400;
  }

  /** The days before a year, in closed form. */
  lemma {:induction false} DaysBeforeYearClosed(year: nat)
    ensures DaysBeforeYear(year) == 365 * year + LeapDays(year)
  {
    hide LeapDays, YearLength;
    if year == 0 {
      assert LeapDays(0) == 0 by { NoLeapDaysYet(); }
    } else {
      DaysBeforeYearClosed(year - 1);
      YearsHave365Or366Days(year - 1);
      OneYearMore(year - 1);
    }
  }

  lemma NoLeapDaysYet()
    ensures LeapDays(0) == 0
  {}

  /**
   * getTime of three dates: the epoch, the first day after the leap day of 2000, and the moment of
   * the printers' examples.
   */
  lemma KnownInstants(epoch: Utc, march: Utc, example: Utc)
    requires epoch == Utc(1970, 1, 1, 0, 0, 0, 0)
    requires march == Utc(2000, 3, 1, 0, 0, 0, 0)
    requires example == Utc(2026, 5, 10, 14, 20, 30, 123)
    ensures Valid(epoch) && EpochMs(epoch) == 0
    ensures Valid(march) && EpochMs(march) == 951868800000
    ensures Valid(example) && EpochMs(example) == 1778422830123
  {
    hide *;
    EpochInstant(epoch);
    MarchInstant(march);
    ExampleInstant(example);
  }

  lemma YearOf1970()
    ensures DaysBeforeYear(1970) == 719528
  {
    hide DaysBeforeYear;
    DaysBeforeYearClosed(1970);
  }

  /** getTime from the days before year and month. */
  lemma InstantFrom(u: Utc, year: int, month: int)
    requires Valid(u) && DaysBeforeYear(u.year) == year && DaysBeforeMonth(u.year, u.month) == month
    ensures EpochMs(u) == (year + month + u.day - 1 - 719528) * MS_PER_DAY + MsOfDay(u)
  {
    hide DaysBeforeYear, DaysBeforeMonth, MonthLength, MsOfDay;
    YearOf1970();
  }

  lemma EpochInstant(u: Utc)
    requires u == Utc(1970, 1, 1, 0, 0, 0, 0)
    ensures Valid(u) && EpochMs(u) == 0
  {
    hide DaysBeforeYear, DaysBeforeMonth, EpochMs;
    YearOf1970();
    MonthOf1970();
    InstantFrom(u, 719528, 0);
  }

  lemma MonthOf1970()
    ensures DaysBeforeMonth(1970, 1) == 0
  {}

  lemma MarchInstant(u: Utc)
    requires u == Utc(2000, 3, 1, 0, 0, 0, 0)
    ensures Valid(u) && EpochMs(u) == 951868800000
  {
    hide DaysBeforeYear, DaysBeforeMonth, EpochMs;
    DaysBeforeYearClosed(2000);
    MonthOf2000();
    InstantFrom(u, 730485, 60);
  }

  lemma MonthOf2000()
    ensures DaysBeforeMonth(2000, 3) == 60
  {
    assert DaysBeforeMonth(2000, 2) == 31;
  }

  lemma ExampleInstant(u: Utc)
    requires u == Utc(2026, 5, 10, 14, 20, 30, 123)
    ensures Valid(u) && EpochMs(u) == 1778422830123
  {
    hide DaysBeforeYear, DaysBeforeMonth, EpochMs;
    DaysBeforeYearClosed(2026);
    MonthOf2026();
    InstantFrom(u, 739982, 120);
  }

  lemma MonthOf2026()
    ensures DaysBeforeMonth(2026, 5) == 120
  {
    assert DaysBeforeMonth(2026, 2) == 31;
    assert DaysBeforeMonth(2026, 3) == 59;
  }

  lemma {:induction false} MonthsFollow(year: nat, m: nat, later: nat)
    requires 1 <= m < later
    ensures DaysBeforeMonth(year, m) + MonthLength(year, m) <= DaysBeforeMonth(year, later)
  {
    if m < later - 1 { MonthsFollow(year, m, later - 1); }
  }

  lemma {:induction false} YearsFollow(year: nat, later: nat)
    requires year < later
    ensures DaysBeforeYear(year) + YearLength(year) <= DaysBeforeYear(later)
  {
    if year < later - 1 { YearsFollow(year, later - 1); }
  }

  lemma DaysFollow(a: Utc, b: Utc)
    requires Valid(a) && Valid(b)
    ensures (a.year < b.year || (a.year == b.year && (a.month < b.month || (a.month == b.month && a.day < b.day))))
            ==> DayNumber(a) < DayNumber(b)
  {
    MonthsFollow(a.year, a.month, 13);
    if a.year < b.year { YearsFollow(a.year, b.year); }
    if a.month < b.month { MonthsFollow(a.year, a.month, b.month); }
  }

  lemma MsOfDayFits(u: Utc)
    requires Valid(u)
    ensures 0 <= MsOfDay(u) < MS_PER_DAY
  {}

  lemma BeforeIsEarlier(a: Utc, b: Utc)
    requires Valid(a) && Valid(b) && Before(a, b)
    ensures EpochMs(a) < EpochMs(b)
  {
    MsOfDayFits(a);
    MsOfDayFits(b);
    DaysFollow(a, b);
    if a.year == b.year && a.month == b.month && a.day == b.day {
      assert DayNumber(a) == DayNumber(b);
    }
    hide DayNumber;
  }

  /** Comparing part by part is comparing instants; different parts are different instants. */
  lemma PartOrderIsTimeOrder(a: Utc, b: Utc)
    requires Valid(a) && Valid(b)
    ensures Before(a, b) <==> EpochMs(a) < EpochMs(b)
    ensures a == b <==> EpochMs(a) == EpochMs(b)
  {
    if Before(a, b) {
      BeforeIsEarlier(a, b);
    } else if a != b {
      BeforeIsEarlier(b, a);
    }
  }

  // ---------------------------------------------------------------- printing

  /** String(n).padStart(width, '0') */
  function PadStart(s: string, width: nat): string {
    if |s| >= width then s else seq(width - |s|, i => '0') + s
  }

  function Pad(n: nat, width: nat): string {
    PadStart(PrintNat(n), width)
  }

  function DateText(u: Utc): string {
    Pad(u.year, 4) + "-" + Pad(u.month, 2) + "-" + Pad(u.day, 2)
  }

  function ToLocalDateTimeString(u: Utc): string {
    var out := DateText(u) + "T" + Pad(u.hour, 2) + ":" + Pad(u.minute, 2);
    var withSeconds := if u.second != 0 || u.ms != 0 then out + ":" + Pad(u.second, 2) else out;
    if u.ms != 0 then withSeconds + "." + Pad(u.ms, 3) else withSeconds
  }

  function ToIsoString(u: Utc): string {
    DateText(u) + "T" + Pad(u.hour, 2) + ":" + Pad(u.minute, 2) + ":" + Pad(u.second, 2) + "." + Pad(u.ms, 3) + "Z"
  }

  /** iso.replace('.000Z', 'Z'): the first occurrence only. */
  function ReplaceMillis(s: string): string {
    if ".000Z" <= s then "Z" + s[5..]
    else if s == "" then ""
    else [s[0]] + ReplaceMillis(s[1..])
  }

  function ToInstantString(u: Utc): string {
    if u.ms == 0 then ReplaceMillis(ToIsoString(u)) else ToIsoString(u)
  }

  // ---------------------------------------------------------------- the texts digit by digit

  function Two(n: nat): string
    requires n < 100
  {
    [Digit(n / 10), Digit(n % 10)]
  }

  function Three(n: nat): string
    requires n < 1000
  {
    [Digit(n / 100), Digit(n / 10 % 10), Digit(n % 10)]
  }

  function Four(n: nat): string
    requires n < 10000
  {
    [Digit(n / 1000), Digit(n / 100 % 10), Digit(n / 10 % 10), Digit(n % 10)]
  }

  lemma OneDigit(n: nat)
    requires n < 10
    ensures PrintNat(n) == [Digit(n)]
  {}

  lemma TwoDigits(n: nat)
    requires 10 <= n < 100
    ensures PrintNat(n) == Two(n)
  {
    OneDigit(n / 10);
  }

  lemma ThreeDigits(n: nat)
    requires 100 <= n < 1000
    ensures PrintNat(n) == Three(n)
  {
    TwoDigits(n / 10);
  }

  lemma FourDigits(n: nat)
    requires 1000 <= n < 10000
    ensures PrintNat(n) == Four(n)
  {
    ThreeDigits(n / 10);
  }

  lemma PadsToTwo(n: nat)
    requires n < 100
    ensures Pad(n, 2) == Two(n)
  {
    hide PrintNat;
    if n < 10 { OneDigit(n); } else { TwoDigits(n); }
  }

  lemma PadsToThree(n: nat)
    requires n < 1000
    ensures Pad(n, 3) == Three(n)
  {
    hide PrintNat;
    if n < 10 { OneDigit(n); } else if n < 100 { TwoDigits(n); } else { ThreeDigits(n); }
  }

  lemma PadsToFour(n: nat)
    requires n < 10000
    ensures Pad(n, 4) == Four(n)
  {
    hide PrintNat;
    if n < 10 {
      OneDigit(n);
    } else if n < 100 {
      TwoDigits(n);
    } else if n < 1000 {
      ThreeDigits(n);
    } else {
      FourDigits(n);
    }
  }

  /** The sixteen characters down to the minute. */
  function Head(u: Utc): string
    requires Valid(u)
  {
    Four(u.year) + "-" + Two(u.month) + "-" + Two(u.day) + "T" + Two(u.hour) + ":" + Two(u.minute)
  }

  function LocalTail(u: Utc): string
    requires Valid(u)
  {
    if u.second == 0 && u.ms == 0 then ""
    else ":" + Two(u.second) + if u.ms == 0 then "" else "." + Three(u.ms)
  }

  function InstantTail(u: Utc): string
    requires Valid(u)
  {
    ":" + Two(u.second) + if u.ms == 0 then "Z" else "." + Three(u.ms) + "Z"
  }

  /** The seconds and milliseconds are printed as their digits. */
  lemma TailText(u: Utc)
    requires Valid(u)
    ensures Pad(u.second, 2) == Two(u.second) && Pad(u.ms, 3) == Three(u.ms)
  {
    PadsToTwo(u.second);
    PadsToThree(u.ms);
  }

  lemma HeadText(u: Utc)
    requires Valid(u)
    ensures DateText(u) + "T" + Pad(u.hour, 2) + ":" + Pad(u.minute, 2) == Head(u)
  {
    PadsToFour(u.year);
    PadsToTwo(u.month);
    PadsToTwo(u.day);
    PadsToTwo(u.hour);
    PadsToTwo(u.minute);
    hide Pad, Two, Four;
  }

  lemma LocalText(u: Utc)
    requires Valid(u)
    ensures ToLocalDateTimeString(u) == Head(u) + LocalTail(u)
  {
    HeadText(u);
    TailText(u);
    hide Pad, Head, DateText, Two, Three;
  }

  /** Where there is no dot before the end, the end is what is replaced. */
  lemma {:induction false} ReplacesTheEnd(s: string)
    requires forall i | 0 <= i < |s| :: s[i] != '.'
    ensures ReplaceMillis(s + ".000Z") == s + "Z"
  {
    var whole := s + ".000Z";
    if s == "" {
      assert whole == ".000Z" && whole[5..] == "";
    } else {
      assert whole[0] == s[0] && whole[1..] == s[1..] + ".000Z";
      ReplacesTheEnd(s[1..]);
    }
  }

  lemma IsoText(u: Utc)
    requires Valid(u)
    ensures ToIsoString(u) == Head(u) + ":" + Two(u.second) + "." + Three(u.ms) + "Z"
  {
    HeadText(u);
    TailText(u);
    hide Pad, Head, DateText, Two, Three;
  }

  lemma NoDotBeforeTheEnd(u: Utc)
    requires Valid(u)
    ensures var s := Head(u) + ":" + Two(u.second); forall i | 0 <= i < |s| :: s[i] != '.'
  {}

  lemma InstantText(u: Utc)
    requires Valid(u)
    ensures ToInstantString(u) == Head(u) + InstantTail(u)
  {
    hide Head, ToIsoString, ReplaceMillis, Two, Three, MonthLength;
    var s := Head(u) + ":" + Two(u.second);
    IsoText(u);
    if u.ms == 0 {
      NoDotBeforeTheEnd(u);
      NoMillis();
      ThreeZeros(s);
      ReplacesTheEnd(s);
      EndsWithZ(Head(u), Two(u.second));
    } else {
      Regrouped(Head(u), Two(u.second), Three(u.ms));
    }
  }

  lemma NoMillis()
    ensures Three(0) == "000"
  {}

  lemma ThreeZeros(s: string)
    ensures s + "." + "000" + "Z" == s + ".000Z"
  {
    assert "." + "000" + "Z" == ".000Z";
    assert s + "." + "000" + "Z" == s + ("." + "000" + "Z");
  }

  lemma EndsWithZ(head: string, second: string)
    ensures head + ":" + second + "Z" == head + (":" + second + "Z")
  {}

  lemma Regrouped(head: string, second: string, ms: string)
    ensures head + ":" + second + "." + ms + "Z" == head + (":" + second + ("." + ms + "Z"))
  {}

  lemma KnownHead(u: Utc)
    requires u == Utc(2026, 5, 10, 14, 20, u.second, u.ms) && Valid(u)
    ensures Head(u) == "2026-05-10T14:20"
  {
    assert Four(2026) == "2026" && Two(5) == "05" && Two(10) == "10" && Two(14) == "14" && Two(20) == "20";
  }

  /** The three examples of the zone-less printer, and the same with Z. */
  lemma KnownTexts(minute: Utc, second: Utc, milli: Utc)
    requires minute == Utc(2026, 5, 10, 14, 20, 0, 0)
    requires second == Utc(2026, 5, 10, 14, 20, 30, 0)
    requires milli == Utc(2026, 5, 10, 14, 20, 30, 123)
    ensures ToLocalDateTimeString(minute) == "2026-05-10T14:20" && ToInstantString(minute) == "2026-05-10T14:20:00Z"
    ensures ToLocalDateTimeString(second) == "2026-05-10T14:20:30" && ToInstantString(second) == "2026-05-10T14:20:30Z"
    ensures ToLocalDateTimeString(milli) == "2026-05-10T14:20:30.123"
    ensures ToInstantString(milli) == "2026-05-10T14:20:30.123Z"
  {
    hide Head, ToLocalDateTimeString, ToInstantString, Four;
    assert Two(0) == "00" && Two(30) == "30" && Three(123) == "123";
    hide Two, Three;
    KnownHead(minute);
    LocalText(minute);
    InstantText(minute);
    KnownHead(second);
    LocalText(second);
    InstantText(second);
    KnownHead(milli);
    LocalText(milli);
    InstantText(milli);
  }

  // ---------------------------------------------------------------- the order of the texts

  /** s < t, as JavaScript compares strings. */
  predicate Less(s: string, t: string) {
    if t == "" then false
    else if s == "" then true
    else if s[0] != t[0] then s[0] < t[0]
    else Less(s[1..], t[1..])
  }

  lemma SameFirst(c: char, x: string, y: string)
    ensures Less([c] + x, [c] + y) <==> Less(x, y)
  {
    assert ([c] + x)[1..] == x && ([c] + y)[1..] == y;
  }

  lemma DigitFirst(a: nat, b: nat, x: string, y: string)
    requires a < 10 && b < 10
    ensures Less([Digit(a)] + x, [Digit(b)] + y) <==> a < b || (a == b && Less(x, y))
  {
    assert ([Digit(a)] + x)[1..] == x && ([Digit(b)] + y)[1..] == y;
    assert DigitValue(Digit(a)) == a && DigitValue(Digit(b)) == b;
  }

  lemma TwoFirst(a: nat, b: nat, x: string, y: string)
    requires a < 100 && b < 100
    ensures Less(Two(a) + x, Two(b) + y) <==> a < b || (a == b && Less(x, y))
  {
    var xs, ys := [Digit(a % 10)] + x, [Digit(b % 10)] + y;
    assert Two(a) + x == [Digit(a / 10)] + xs && Two(b) + y == [Digit(b / 10)] + ys;
    DigitFirst(a / 10, b / 10, xs, ys);
    DigitFirst(a % 10, b % 10, x, y);
    hide Less;
  }

  lemma ThreeFirst(a: nat, b: nat, x: string, y: string)
    requires a < 1000 && b < 1000
    ensures Less(Three(a) + x, Three(b) + y) <==> a < b || (a == b && Less(x, y))
  {
    var xs, ys := [Digit(a % 10)] + x, [Digit(b % 10)] + y;
    assert Three(a) + x == Two(a / 10) + xs && Three(b) + y == Two(b / 10) + ys by { SplitThree(a, x); SplitThree(b, y); }
    TwoFirst(a / 10, b / 10, xs, ys);
    DigitFirst(a % 10, b % 10, x, y);
    hide Less, Three, Two;
  }

  lemma SplitThree(a: nat, x: string)
    requires a < 1000
    ensures Three(a) + x == Two(a / 10) + ([Digit(a % 10)] + x)
  {
    assert a / 10 / 10 == a / 100;
  }

  lemma DigitPairs(a: nat)
    ensures a / 100 / 10 == a / 1000
    ensures a % 100 / 10 == a / 10 % 10 && a % 100 % 10 == a % 10
  {
    var tens, hundreds := a / 10, a / 10 / 10;
    assert a == 10 * tens + a % 10 && tens == 10 * hundreds + tens % 10;
    assert a / 100 == hundreds && a % 100 == 10 * (tens % 10) + a % 10;
    assert hundreds == 10 * (hundreds / 10) + hundreds % 10;
  }

  lemma SplitFour(a: nat, x: string)
    requires a < 10000
    ensures Four(a) + x == Two(a / 100) + (Two(a % 100) + x)
  {
    DigitPairs(a);
    hide Digit;
  }

  lemma FourFirst(a: nat, b: nat, x: string, y: string)
    requires a < 10000 && b < 10000
    ensures Less(Four(a) + x, Four(b) + y) <==> a < b || (a == b && Less(x, y))
  {
    SplitFour(a, x);
    SplitFour(b, y);
    TwoFirst(a / 100, b / 100, Two(a % 100) + x, Two(b % 100) + y);
    TwoFirst(a % 100, b % 100, x, y);
    hide Less, Four, Two;
  }

  /** The part before the seconds. */
  predicate SameMinute(a: Utc, b: Utc) {
    a.year == b.year && a.month == b.month && a.day == b.day && a.hour == b.hour && a.minute == b.minute
  }

  predicate EarlierMinute(a: Utc, b: Utc) {
    if a.year != b.year then a.year < b.year
    else if a.month != b.month then a.month < b.month
    else if a.day != b.day then a.day < b.day
    else if a.hour != b.hour then a.hour < b.hour
    else a.minute < b.minute
  }

  function FromHour(u: Utc, x: string): string
    requires Valid(u)
  {
    Two(u.hour) + ([':'] + (Two(u.minute) + x))
  }

  function FromMonth(u: Utc, x: string): string
    requires Valid(u)
  {
    Two(u.month) + (['-'] + (Two(u.day) + (['T'] + FromHour(u, x))))
  }

  lemma HeadInPieces(u: Utc, x: string)
    requires Valid(u)
    ensures Head(u) + x == Four(u.year) + (['-'] + FromMonth(u, x))
  {
    hide Two, Four;
  }

  lemma HoursCompare(a: Utc, b: Utc, x: string, y: string)
    requires Valid(a) && Valid(b)
    ensures Less(FromHour(a, x), FromHour(b, y)) <==>
            if a.hour != b.hour then a.hour < b.hour
            else a.minute < b.minute || (a.minute == b.minute && Less(x, y))
  {
    hide Less, Two;
    TwoFirst(a.minute, b.minute, x, y);
    SameFirst(':', Two(a.minute) + x, Two(b.minute) + y);
    TwoFirst(a.hour, b.hour, [':'] + (Two(a.minute) + x), [':'] + (Two(b.minute) + y));
  }

  lemma MonthsCompare(a: Utc, b: Utc, x: string, y: string)
    requires Valid(a) && Valid(b)
    ensures Less(FromMonth(a, x), FromMonth(b, y)) <==>
            if a.month != b.month then a.month < b.month
            else if a.day != b.day then a.day < b.day
            else Less(FromHour(a, x), FromHour(b, y))
  {
    hide Less, Two, FromHour;
    var s, t := ['T'] + FromHour(a, x), ['T'] + FromHour(b, y);
    SameFirst('T', FromHour(a, x), FromHour(b, y));
    TwoFirst(a.day, b.day, s, t);
    SameFirst('-', Two(a.day) + s, Two(b.day) + t);
    TwoFirst(a.month, b.month, ['-'] + (Two(a.day) + s), ['-'] + (Two(b.day) + t));
  }

  lemma HeadsCompare(a: Utc, b: Utc, x: string, y: string)
    requires Valid(a) && Valid(b)
    ensures Less(Head(a) + x, Head(b) + y) <==> EarlierMinute(a, b) || (SameMinute(a, b) && Less(x, y))
  {
    hide Less, Head, Four, FromHour, FromMonth;
    HeadInPieces(a, x);
    HeadInPieces(b, y);
    HoursCompare(a, b, x, y);
    MonthsCompare(a, b, x, y);
    SameFirst('-', FromMonth(a, x), FromMonth(b, y));
    FourFirst(a.year, b.year, ['-'] + FromMonth(a, x), ['-'] + FromMonth(b, y));
  }

  function Fraction(ms: nat): string
    requires ms < 1000
  {
    if ms == 0 then "" else ['.'] + Three(ms)
  }

  lemma FractionsCompare(m: nat, n: nat)
    requires m < 1000 && n < 1000
    ensures Less(Fraction(m), Fraction(n)) <==> m < n
  {
    if m != 0 && n != 0 {
      SameFirst('.', Three(m), Three(n));
      ThreeFirst(m, n, "", "");
      assert Three(m) + "" == Three(m) && Three(n) + "" == Three(n);
    }
  }

  lemma LocalTailsCompare(a: Utc, b: Utc)
    requires Valid(a) && Valid(b)
    ensures Less(LocalTail(a), LocalTail(b)) <==> a.second < b.second || (a.second == b.second && a.ms < b.ms)
  {
    FractionsCompare(a.ms, b.ms);
    LocalTailInPieces(a);
    LocalTailInPieces(b);
    if LocalTail(a) != "" && LocalTail(b) != "" {
      hide Fraction, Two, LocalTail;
      SameFirst(':', Two(a.second) + Fraction(a.ms), Two(b.second) + Fraction(b.ms));
      TwoFirst(a.second, b.second, Fraction(a.ms), Fraction(b.ms));
    }
  }

  lemma LocalTailInPieces(u: Utc)
    requires Valid(u)
    ensures LocalTail(u) == "" <==> u.second == 0 && u.ms == 0
    ensures LocalTail(u) != "" ==> LocalTail(u) == [':'] + (Two(u.second) + Fraction(u.ms))
  {
    hide Two, Three;
    assert Two(u.second) + "" == Two(u.second);
  }

  /** Zone-less texts sort as the instants they name. */
  lemma LocalTextsSortByTime(a: Utc, b: Utc)
    requires Valid(a) && Valid(b)
    ensures Less(ToLocalDateTimeString(a), ToLocalDateTimeString(b)) <==> EpochMs(a) < EpochMs(b)
  {
    hide Less, LocalTail, Head, ToLocalDateTimeString, EpochMs;
    LocalText(a);
    LocalText(b);
    HeadsCompare(a, b, LocalTail(a), LocalTail(b));
    LocalTailsCompare(a, b);
    PartOrderIsTimeOrder(a, b);
  }

  /** The two are in one second and exactly one of them is at its start. */
  predicate OneAtFullSecond(a: Utc, b: Utc) {
    SameMinute(a, b) && a.second == b.second && (a.ms == 0) != (b.ms == 0)
  }

  lemma InstantEndsCompare(m: nat, n: nat)
    requires m < 1000 && n < 1000
    ensures var s := if m == 0 then "Z" else ['.'] + (Three(m) + "Z");
            var t := if n == 0 then "Z" else ['.'] + (Three(n) + "Z");
            Less(s, t) <==> (m != 0 && n == 0) || (m != 0 && n != 0 && m < n)
  {
    if m != 0 && n != 0 {
      SameFirst('.', Three(m) + "Z", Three(n) + "Z");
      ThreeFirst(m, n, "Z", "Z");
    } else if m == 0 && n == 0 {
      assert "Z"[1..] == "";
    }
  }

  lemma InstantTailsCompare(a: Utc, b: Utc)
    requires Valid(a) && Valid(b)
    ensures Less(InstantTail(a), InstantTail(b)) <==>
            a.second < b.second || (a.second == b.second && a.ms != 0 && (b.ms == 0 || a.ms < b.ms))
  {
    InstantEndsCompare(a.ms, b.ms);
    hide Less, Two, Three;
    var s := if a.ms == 0 then "Z" else ['.'] + (Three(a.ms) + "Z");
    var t := if b.ms == 0 then "Z" else ['.'] + (Three(b.ms) + "Z");
    assert InstantTail(a) == [':'] + (Two(a.second) + s) && InstantTail(b) == [':'] + (Two(b.second) + t);
    SameFirst(':', Two(a.second) + s, Two(b.second) + t);
    TwoFirst(a.second, b.second, s, t);
  }

  /** Z texts do not always sort by time: two of them are out of order exactly when only one is at a full second. */
  lemma InstantTextsSortExceptAtFullSeconds(a: Utc, b: Utc)
    requires Valid(a) && Valid(b)
    ensures (Less(ToInstantString(a), ToInstantString(b)) <==> EpochMs(a) < EpochMs(b)) <==> !OneAtFullSecond(a, b)
  {
    hide Less, InstantTail, Head, ToInstantString, EpochMs;
    InstantText(a);
    InstantText(b);
    HeadsCompare(a, b, InstantTail(a), InstantTail(b));
    InstantTailsCompare(a, b);
    PartOrderIsTimeOrder(a, b);
  }

  // ---------------------------------------------------------------- reading the texts back

  predicate DigitsAt(s: string, i: nat, n: nat) {
    i + n <= |s| && AllDigits(s[i..i + n])
  }

  function NumberAt(s: string, i: nat, n: nat): nat
    requires DigitsAt(s, i, n)
  {
    ValueOf(s[i..i + n])
  }

  predicate HeadShape(s: string) {
    && |s| >= 16
    && DigitsAt(s, 0, 4) && s[4] == '-' && DigitsAt(s, 5, 2) && s[7] == '-' && DigitsAt(s, 8, 2) && s[10] == 'T'
    && DigitsAt(s, 11, 2) && s[13] == ':' && DigitsAt(s, 14, 2)
  }

  function HeadParts(s: string, second: nat, ms: nat): Utc
    requires HeadShape(s)
  {
    Utc(NumberAt(s, 0, 4), NumberAt(s, 5, 2), NumberAt(s, 8, 2), NumberAt(s, 11, 2), NumberAt(s, 14, 2), second, ms)
  }

  predicate SecondShape(s: string) {
    |s| >= 19 && s[16] == ':' && DigitsAt(s, 17, 2)
  }

  predicate MsShape(s: string) {
    |s| >= 23 && s[19] == '.' && DigitsAt(s, 20, 3)
  }

  /** A zone-less text ends after the minute, the second or the millisecond. */
  function ParseLocal(s: string): Option<Utc> {
    if !HeadShape(s) then None
    else if |s| == 16 then Some(HeadParts(s, 0, 0))
    else if !SecondShape(s) then None
    else if |s| == 19 then Some(HeadParts(s, NumberAt(s, 17, 2), 0))
    else if |s| == 23 && MsShape(s) then Some(HeadParts(s, NumberAt(s, 17, 2), NumberAt(s, 20, 3)))
    else None
  }

  function ParseInstant(s: string): Option<Utc> {
    if !HeadShape(s) || !SecondShape(s) || s[|s| - 1] != 'Z' then None
    else if |s| == 20 then Some(HeadParts(s, NumberAt(s, 17, 2), 0))
    else if |s| == 24 && MsShape(s) then Some(HeadParts(s, NumberAt(s, 17, 2), NumberAt(s, 20, 3)))
    else None
  }

  lemma {:induction false} ValueAppend(s: string, c: char)
    requires AllDigits(s) && IsDigit(c)
    ensures AllDigits(s + [c]) && ValueOf(s + [c]) == ValueOf(s) * 10 + DigitValue(c)
  {
    assert (s + [c])[..|s|] == s;
  }

  lemma TwoReadsBack(n: nat)
    requires n < 100
    ensures AllDigits(Two(n)) && ValueOf(Two(n)) == n
  {
    assert [Digit(n / 10)][..0] == "";
    ValueAppend([Digit(n / 10)], Digit(n % 10));
  }

  lemma ThreeReadsBack(n: nat)
    requires n < 1000
    ensures AllDigits(Three(n)) && ValueOf(Three(n)) == n
  {
    TwoReadsBack(n / 10);
    assert Three(n) == Two(n / 10) + [Digit(n % 10)] by { SplitThree(n, ""); }
    ValueAppend(Two(n / 10), Digit(n % 10));
  }

  lemma FourReadsBack(n: nat)
    requires n < 10000
    ensures AllDigits(Four(n)) && ValueOf(Four(n)) == n
  {
    ThreeReadsBack(n / 10);
    assert n / 10 / 100 == n / 1000 && n / 10 / 10 == n / 100;
    assert Four(n) == Three(n / 10) + [Digit(n % 10)];
    ValueAppend(Three(n / 10), Digit(n % 10));
  }

  lemma HeadSlices(u: Utc, x: string)
    requires Valid(u)
    ensures var s := Head(u) + x;
            && |s| == 16 + |x| && s[16..] == x
            && s[0..4] == Four(u.year) && s[4] == '-' && s[5..7] == Two(u.month) && s[7] == '-' && s[8..10] == Two(u.day)
            && s[10] == 'T' && s[11..13] == Two(u.hour) && s[13] == ':' && s[14..16] == Two(u.minute)
  {}

  lemma HeadReadsBack(u: Utc, x: string, second: nat, ms: nat)
    requires Valid(u)
    ensures HeadShape(Head(u) + x) && HeadParts(Head(u) + x, second, ms) == u.(second := second, ms := ms)
  {
    hide Head, Two, Four, ValueOf, AllDigits;
    HeadSlices(u, x);
    FourReadsBack(u.year);
    TwoReadsBack(u.month);
    TwoReadsBack(u.day);
    TwoReadsBack(u.hour);
    TwoReadsBack(u.minute);
  }

  lemma SecondReadsBack(u: Utc, x: string)
    requires Valid(u)
    ensures var s := Head(u) + (":" + Two(u.second) + x);
            SecondShape(s) && NumberAt(s, 17, 2) == u.second && |s| == 19 + |x| && s[19..] == x
  {
    var tail := ":" + Two(u.second) + x;
    HeadSlices(u, tail);
    TwoReadsBack(u.second);
    var s := Head(u) + tail;
    hide Head, ValueOf, AllDigits;
    assert s[17..19] == tail[1..3] == Two(u.second);
    assert s[16] == tail[0];
    assert s[19..] == tail[3..] == x;
  }

  lemma MsReadsBack(u: Utc, x: string)
    requires Valid(u)
    ensures var s := Head(u) + (":" + Two(u.second) + ("." + Three(u.ms) + x));
            MsShape(s) && NumberAt(s, 20, 3) == u.ms && |s| == 23 + |x| && s[23..] == x
  {
    var tail := "." + Three(u.ms) + x;
    SecondReadsBack(u, tail);
    ThreeReadsBack(u.ms);
    var s := Head(u) + (":" + Two(u.second) + tail);
    hide Head, Two, ValueOf, AllDigits;
    assert s[20..23] == tail[1..4] == Three(u.ms);
    assert s[19] == tail[0];
    assert s[23..] == tail[4..] == x;
  }

  /** The parser undoes the zone-less printer, whatever it left out. */
  lemma LocalReadsBack(u: Utc)
    requires Valid(u)
    ensures ParseLocal(ToLocalDateTimeString(u)) == Some(u)
  {
    hide Head, Two, Three, HeadShape, HeadParts, SecondShape, MsShape, DigitsAt, NumberAt, ToLocalDateTimeString;
    LocalText(u);
    HeadReadsBack(u, LocalTail(u), u.second, u.ms);
    HeadSlices(u, LocalTail(u));
    if u.ms != 0 {
      assert ("." + Three(u.ms)) + "" == "." + Three(u.ms);
      SecondReadsBack(u, "." + Three(u.ms));
      MsReadsBack(u, "");
    } else if u.second != 0 {
      SecondReadsBack(u, "");
    }
  }

  lemma InstantReadsBack(u: Utc)
    requires Valid(u)
    ensures ParseInstant(ToInstantString(u)) == Some(u)
  {
    hide Head, Two, Three, HeadShape, HeadParts, SecondShape, MsShape, DigitsAt, NumberAt, ToInstantString;
    InstantText(u);
    HeadReadsBack(u, InstantTail(u), u.second, u.ms);
    HeadSlices(u, InstantTail(u));
    if u.ms != 0 {
      SecondReadsBack(u, "." + Three(u.ms) + "Z");
      MsReadsBack(u, "Z");
    } else {
      SecondReadsBack(u, "Z");
    }
  }

  /** Different instants never print the same, in either form. */
  lemma PrintersAreInjective(a: Utc, b: Utc)
    requires Valid(a) && Valid(b) && EpochMs(a) != EpochMs(b)
    ensures ToLocalDateTimeString(a) != ToLocalDateTimeString(b) && ToInstantString(a) != ToInstantString(b)
  {
    hide ToLocalDateTimeString, ToInstantString;
    LocalReadsBack(a);
    LocalReadsBack(b);
    InstantReadsBack(a);
    InstantReadsBack(b);
  }

  // ---------------------------------------------------------------- RFC 3339

  /** time-offset of section 5.6 of RFC 3339. */
  predicate IsOffset(s: string) {
    || s == "Z" || s == "z"
    || (|s| == 6 && s[0] in {'+', '-'} && DigitsAt(s, 1, 2) && NumberAt(s, 1, 2) <= 23 && s[3] == ':'
        && DigitsAt(s, 4, 2) && NumberAt(s, 4, 2) <= 59)
  }

  /** [time-secfrac] time-offset, with a fraction of n digits. */
  predicate IsFractionAndOffset(s: string, n: nat) {
    n >= 1 && 1 + n <= |s| && s[0] == '.' && AllDigits(s[1..1 + n]) && IsOffset(s[1 + n..])
  }

  /** date-time of section 5.6 of RFC 3339, with the day limits of its section 5.7. */
  ghost predicate IsDateTime(s: string) {
    && |s| >= 20
    && DigitsAt(s, 0, 4) && s[4] == '-' && DigitsAt(s, 5, 2) && s[7] == '-' && DigitsAt(s, 8, 2)
    && s[10] in {'T', 't'}
    && DigitsAt(s, 11, 2) && s[13] == ':' && DigitsAt(s, 14, 2) && s[16] == ':' && DigitsAt(s, 17, 2)
    && 1 <= NumberAt(s, 5, 2) <= 12 && 1 <= NumberAt(s, 8, 2) <= MonthLength(NumberAt(s, 0, 4), NumberAt(s, 5, 2))
    && NumberAt(s, 11, 2) <= 23 && NumberAt(s, 14, 2) <= 59 && NumberAt(s, 17, 2) <= 60
    && (IsOffset(s[19..]) || exists n :: IsFractionAndOffset(s[19..], n))
  }

  /** The payload printer writes what RFC 3339 calls a date-time. */
  lemma InstantTextsAreDateTimes(u: Utc)
    requires Valid(u)
    ensures IsDateTime(ToInstantString(u))
  {
    hide Head, Two, ToInstantString, ValueOf;
    InstantText(u);
    HeadReadsBack(u, InstantTail(u), u.second, u.ms);
    var s := ToInstantString(u);
    var rest := if u.ms == 0 then "Z" else "." + Three(u.ms) + "Z";
    SecondReadsBack(u, rest);
    assert InstantTail(u) == ":" + Two(u.second) + rest;
    assert s[19..] == rest;
    if u.ms != 0 {
      ThreeReadsBack(u.ms);
      assert rest[1..4] == Three(u.ms) && rest[4..] == "Z";
      assert IsFractionAndOffset(rest, 3);
    }
  }

  lemma FractionNeedsAnOffset(ms: nat, n: nat)
    requires ms < 1000
    ensures !IsFractionAndOffset("." + Three(ms), n) && !IsOffset("." + Three(ms))
  {
    var rest := "." + Three(ms);
    if 1 <= n < 3 {
      assert rest[1 + n..][0] == Three(ms)[n] && IsDigit(Three(ms)[n]);
    }
  }

  /** The API printer never does: its texts have no offset. */
  lemma LocalTextsAreNoDateTimes(u: Utc)
    requires Valid(u)
    ensures !IsDateTime(ToLocalDateTimeString(u))
  {
    hide Head, ToLocalDateTimeString, ValueOf, Three, IsOffset, IsFractionAndOffset;
    LocalText(u);
    HeadSlices(u, LocalTail(u));
    if u.ms != 0 {
      var rest := "." + Three(u.ms);
      SecondReadsBack(u, rest);
      assert ":" + Two(u.second) + rest == LocalTail(u);
      assert ToLocalDateTimeString(u)[19..] == rest;
      forall n: nat ensures !IsFractionAndOffset(rest, n) && !IsOffset(rest) {
        FractionNeedsAnOffset(u.ms, n);
      }
      FractionNeedsAnOffset(u.ms, 0);
    }
  }
}
