/**
 * The worker's time arithmetic: reminder stages, the day a summary is about, its key, and the
 * UTC range of a local day. Dates are proleptic Gregorian; instants are microseconds.
 */
module Schedule {
  import opened Options

  const REMINDER_SOON_MIN := 20.0
  const REMINDER_EARLY_MIN := 120.0
  const SUMMARY_HOUR := 9

  const SOON := "booking_reminder_20m"
  const EARLY := "booking_reminder_2h"

  function ReminderTemplate(minutesLeft: real): Option<string> {
    if minutesLeft <= 0.0 then None
    else if minutesLeft <= REMINDER_SOON_MIN then Some(SOON)
    else if minutesLeft <= REMINDER_EARLY_MIN then Some(EARLY)
    else None
  }

  // ── Calendar ─────────────────────────────────────────────────────────────

  datatype Date = Date(year: int, month: int, day: int)

  const MAX_YEAR := 9999

  predicate IsLeap(year: int) {
    year % 4 == 0 && (year % 100 != 0 || year % 400 == 0)
  }

  function DaysIn(year: int, month: int): int {
    if month == 2 then (if IsLeap(year) then 29 else 28)
    else if month == 4 || month == 6 || month == 9 || month == 11 then 30
    else 31
  }

  predicate IsDate(d: Date) {
    1 <= d.year <= MAX_YEAR && 1 <= d.month <= 12 && 1 <= d.day <= DaysIn(d.year, d.month)
  }

  /** None for the first and the last date there is, where the original raises. */
  function PrevDay(d: Date): Option<Date> {
    if d.day > 1 then Some(d.(day := d.day - 1))
    else if d.month > 1 then Some(Date(d.year, d.month - 1, DaysIn(d.year, d.month - 1)))
    else if d.year > 1 then Some(Date(d.year - 1, 12, 31))
    else None
  }

  function NextDay(d: Date): Option<Date> {
    if d.day < DaysIn(d.year, d.month) then Some(d.(day := d.day + 1))
    else if d.month < 12 then Some(Date(d.year, d.month + 1, 1))
    else if d.year < MAX_YEAR then Some(Date(d.year + 1, 1, 1))
    else None
  }

  predicate Before(a: Date, b: Date) {
    a.year < b.year || (a.year == b.year && (a.month < b.month || (a.month == b.month && a.day < b.day)))
  }

  lemma DaysInverse(a: Date, b: Date)
    requires IsDate(a) && IsDate(b)
    ensures PrevDay(b) == Some(a) <==> NextDay(a) == Some(b)
    ensures PrevDay(b) == Some(a) ==> Before(a, b) && forall c :: IsDate(c) ==> !(Before(a, c) && Before(c, b))
  {
  }

  lemma NeighboursAreDates(d: Date)
    requires IsDate(d)
    ensures PrevDay(d).Some? ==> IsDate(PrevDay(d).value)
    ensures NextDay(d).Some? ==> IsDate(NextDay(d).value)
  {
  }

  /** Days of the years before March of year y: 365 each, and a leap day for each year divisible by
      4 but not by 100, or by 400. */
  function YearStart(y: int): int {
    365 * y + y / 4 - y / 100 + y / 400
  }

  /** Days since March of the months before the m-th from March: 31, 30, 31, 30, 31 over and over. */
  function MonthStart(m: int): int {
    (153 * m + 2) / 5
  }

  /** A day's number in closed form; its year begins in March. */
  function DayNumber(d: Date): int {
    if d.month <= 2 then YearStart(d.year - 1) + MonthStart(d.month + 9) + d.day - 1
    else YearStart(d.year) + MonthStart(d.month - 3) + d.day - 1
  }

  lemma Quarters(y: int)
    ensures y / 4 == (y - 1) / 4 + if y % 4 == 0 then 1 else 0
  {
  }

  lemma Centuries(y: int)
    ensures y / 100 == (y - 1) / 100 + if y % 100 == 0 then 1 else 0
  {
  }

  lemma FourCenturies(y: int)
    ensures y / 400 == (y - 1) / 400 + if y % 400 == 0 then 1 else 0
  {
  }

  lemma HundredsAreFourfold(y: int)
    requires y % 100 == 0
    ensures y % 4 == 0
  {
    assert y == 4 * (25 * (y / 100));
  }

  lemma FourHundredsAreHundreds(y: int)
    requires y % 400 == 0
    ensures y % 100 == 0
  {
    assert y == 100 * (4 * (y / 400));
  }

  lemma YearsDiffer(y: int)
    ensures YearStart(y) == YearStart(y - 1) + if IsLeap(y) then 366 else 365
  {
    Quarters(y);
    Centuries(y);
    FourCenturies(y);
    if y % 400 == 0 { FourHundredsAreHundreds(y); }
    if y % 100 == 0 { HundredsAreFourfold(y); }
  }

  lemma MonthsDiffer(m: int)
    requires 0 <= m <= 10
    ensures MonthStart(m + 1) == MonthStart(m) + if m == 1 || m == 3 || m == 6 || m == 8 then 30 else 31
    ensures MonthStart(0) == 0 && MonthStart(11) == 337
  {
  }

  /** Tomorrow is the next number. */
  lemma NextIsOneMore(d: Date)
    requires IsDate(d)
    ensures NextDay(d).Some? ==> DayNumber(NextDay(d).value) == DayNumber(d) + 1
    ensures NextDay(d).None? <==> d == Date(9999, 12, 31)
  {
    hide IsLeap, YearStart, MonthStart;
    YearsDiffer(d.year);
    MonthsDiffer(if d.month == 2 then 0 else if d.month == 1 then 10 else d.month - 3);
  }

  /** Days are numbered one by one: yesterday is the number before, and there is none before the
      first of January of year 1. */
  lemma DaysAreNumbered(d: Date)
    requires IsDate(d)
    ensures NextDay(d).Some? ==> DayNumber(NextDay(d).value) == DayNumber(d) + 1
    ensures PrevDay(d).Some? ==> DayNumber(PrevDay(d).value) == DayNumber(d) - 1
    ensures PrevDay(d).None? <==> d == Date(1, 1, 1)
  {
    hide DayNumber;
    NextIsOneMore(d);
    NeighboursAreDates(d);
    if PrevDay(d).Some? {
      DaysInverse(PrevDay(d).value, d);
      NextIsOneMore(PrevDay(d).value);
    }
  }

  function DateKey(d: Date): int {
    d.year * 10000 + d.month * 100 + d.day
  }

  /** A key reads as year, month and day: YYYYMMDD. */
  lemma KeyInDigits(d: Date)
    requires IsDate(d)
    ensures DateKey(d) / 10000 == d.year && DateKey(d) % 10000 == d.month * 100 + d.day
    ensures DateKey(d) % 10000 / 100 == d.month && DateKey(d) % 10000 % 100 == d.day
  {
    hide IsLeap;
    var rest := d.month * 100 + d.day;
    assert DateKey(d) == d.year * 10000 + rest && 0 <= rest < 10000;
  }

  /** Keys order like their dates, so different days never share one. */
  lemma KeysOrderLikeDates(a: Date, b: Date)
    requires IsDate(a) && IsDate(b)
    ensures DateKey(a) < DateKey(b) <==> Before(a, b)
    ensures DateKey(a) == DateKey(b) <==> a == b
  {
    assert 0 < a.month * 100 + a.day < 10000 && 0 < b.month * 100 + b.day < 10000;
  }

  // ── Daily summary ────────────────────────────────────────────────────────

  /** A local wall clock reading. */
  datatype Local = Local(date: Date, hour: int)

  /** The day to report: yesterday, during the ninth hour only. */
  function SummaryDate(local: Local): Option<Date> {
    if local.hour != SUMMARY_HOUR then None else PrevDay(local.date)
  }

  /** Two summaries share a key exactly when they are made on the same local day. */
  lemma OneKeyPerLocalDay(a: Local, b: Local)
    requires IsDate(a.date) && IsDate(b.date) && SummaryDate(a).Some? && SummaryDate(b).Some?
    ensures DateKey(SummaryDate(a).value) == DateKey(SummaryDate(b).value) <==> a.date == b.date
  {
    NeighboursAreDates(a.date);
    NeighboursAreDates(b.date);
    KeysOrderLikeDates(SummaryDate(a).value, SummaryDate(b).value);
    DaysInverse(SummaryDate(a).value, a.date);
    DaysInverse(SummaryDate(a).value, b.date);
  }

  // ── Revenue by local days ────────────────────────────────────────────────

  /** A zone, as far as days go: the instant of each date's local midnight. */
  type Zone = Date -> int

  /** The end is the next day's midnight on the wall clock, 23 or 25 hours on where the zone's
      offset changes. */
  function LocalDayUtcRange(d: Date, zone: Zone): Option<(int, int)> {
    if NextDay(d).None? then None else Some((zone(d), zone(NextDay(d).value)))
  }

  datatype Payment = Payment(clubId: int, refund: bool, amount: int, createdAt: int)

  function Signed(p: Payment): int {
    if p.refund then -p.amount else p.amount
  }

  /** What a club took in [start, end), refunds taken off. */
  function Received(payments: seq<Payment>, club: int, start: int, end: int): int {
    if payments == [] then 0
    else
      var p := payments[|payments| - 1];
      Received(payments[..|payments| - 1], club, start, end)
      + if p.clubId == club && start <= p.createdAt < end then Signed(p) else 0
  }

  function AmountOf(payments: seq<Payment>, counts: Payment -> bool): int {
    if payments == [] then 0
    else
      var p := payments[|payments| - 1];
      AmountOf(payments[..|payments| - 1], counts) + if counts(p) then p.amount else 0
  }

  /** What a club received is what it took less what it gave back, from the range's start on and
      before its end. */
  lemma {:induction false} ReceivedInFigures(payments: seq<Payment>, club: int, start: int, end: int)
    ensures Received(payments, club, start, end)
         == AmountOf(payments, (p: Payment) => p.clubId == club && start <= p.createdAt < end && !p.refund)
            - AmountOf(payments, (p: Payment) => p.clubId == club && start <= p.createdAt < end && p.refund)
  {
    if payments != [] { ReceivedInFigures(payments[..|payments| - 1], club, start, end); }
  }

  /** The sum of the summaries of a list of days. */
  function SumOfDays(payments: seq<Payment>, club: int, days: seq<Date>, zone: Zone): int
    requires forall k :: 0 <= k < |days| ==> LocalDayUtcRange(days[k], zone).Some?
  {
    if days == [] then 0
    else
      var (start, end) := LocalDayUtcRange(days[|days| - 1], zone).value;
      SumOfDays(payments, club, days[..|days| - 1], zone) + Received(payments, club, start, end)
  }

  predicate Consecutive(days: seq<Date>) {
    && (forall k :: 0 <= k < |days| ==> NextDay(days[k]).Some?)
    && forall k :: 0 <= k < |days| - 1 ==> NextDay(days[k]).value == days[k + 1]
  }

  /** Midnights come in the order of their days. */
  predicate MidnightsInOrder(days: seq<Date>, zone: Zone)
    requires Consecutive(days)
  {
    forall k :: 0 <= k < |days| ==> zone(days[k]) <= zone(NextDay(days[k]).value)
  }

  lemma {:induction false} RangesJoin(payments: seq<Payment>, club: int, a: int, b: int, c: int)
    requires a <= b <= c
    ensures Received(payments, club, a, b) + Received(payments, club, b, c) == Received(payments, club, a, c)
  {
    if payments != [] {
      RangesJoin(payments[..|payments| - 1], club, a, b, c);
    }
  }

  lemma {:induction false} MidnightsGrow(days: seq<Date>, zone: Zone)
    requires days != [] && Consecutive(days) && MidnightsInOrder(days, zone)
    ensures zone(days[0]) <= zone(NextDay(days[|days| - 1]).value)
  {
    if |days| > 1 {
      MidnightsGrow(days[..|days| - 1], zone);
      assert NextDay(days[|days| - 2]).value == days[|days| - 2 + 1];
    }
  }

  /**
   * Conservation of revenue: over any run of consecutive local days, whatever the length of each
   * of them in its zone, the daily figures add up to what the club took from the first midnight
   * to the last; no payment or refund is counted twice or falls between two days.
   */
  lemma {:induction false} DailyRevenueAddsUp(payments: seq<Payment>, club: int, days: seq<Date>, zone: Zone)
    requires days != [] && Consecutive(days) && MidnightsInOrder(days, zone)
    ensures SumOfDays(payments, club, days, zone)
         == Received(payments, club, zone(days[0]), zone(NextDay(days[|days| - 1]).value))
  {
    var last := |days| - 1;
    var earlier := days[..last];
    if last == 0 {
      assert SumOfDays(payments, club, earlier, zone) == 0;
    } else {
      DailyRevenueAddsUp(payments, club, earlier, zone);
      MidnightsGrow(earlier, zone);
      assert NextDay(days[last - 1]).value == days[last - 1 + 1];
      RangesJoin(payments, club, zone(days[0]), zone(days[last]), zone(NextDay(days[last]).value));
    }
  }
}
