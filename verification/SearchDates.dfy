/** Date qualifiers: an ISO calendar day or a comparison with one, turned into a half-open range
    of instants. */
module SearchDates {
  import opened Prelude
  import opened SearchText
  import opened Clock

  // ----- the calendar

  datatype Date = Date(year: nat, month: nat, day: nat)

  predicate Leap(year: nat) {
    year % 4 == 0 && (year % 100 != 0 || year % 400 == 0)
  }

  function DaysIn(year: nat, month: nat): nat {
    if month == 2 then (if Leap(year) then 29 else 28)
    else if month == 4 || month == 6 || month == 9 || month == 11 then 30
    else 31
  }

  predicate ValidDate(d: Date) {
    1 <= d.month <= 12 && 1 <= d.day <= DaysIn(d.year, d.month)
  }

  function DaysBeforeMonth(year: nat, month: nat): nat {
    if month <= 1 then 0 else DaysBeforeMonth(year, month - 1) + DaysIn(year, month - 1)
  }

  function DaysBeforeYear(year: nat): nat {
    if year == 0 then 0 else DaysBeforeYear(year - 1) + DaysBeforeMonth(year - 1, 13)
  }

  /** Days from the first day of year 0. */
  function DayNumber(d: Date): int {
    DaysBeforeYear(d.year) + DaysBeforeMonth(d.year, d.month) + d.day - 1
  }

  /** Calendar order, most significant part first. */
  predicate Earlier(a: Date, b: Date) {
    a.year < b.year
    || (a.year == b.year && (a.month < b.month || (a.month == b.month && a.day < b.day)))
  }

  lemma {:induction false} MonthsGrow(year: nat, m: nat, n: nat)
    requires 1 <= m < n
    ensures DaysBeforeMonth(year, m) + DaysIn(year, m) <= DaysBeforeMonth(year, n)
    decreases n
  {
    if m + 1 < n {
      MonthsGrow(year, m, n - 1);
    }
  }

  lemma {:induction false} YearsGrow(x: nat, y: nat)
    requires x < y
    ensures DaysBeforeYear(x) + DaysBeforeMonth(x, 13) <= DaysBeforeYear(y)
    decreases y
  {
    if x + 1 < y {
      YearsGrow(x, y - 1);
    }
  }

  /** Day numbers follow calendar order, so comparing them compares dates. */
  lemma DayNumbersKeepOrder(a: Date, b: Date)
    requires ValidDate(a) && ValidDate(b)
    ensures Earlier(a, b) <==> DayNumber(a) < DayNumber(b)
    ensures a == b <==> DayNumber(a) == DayNumber(b)
  {
    if Earlier(a, b) {
      EarlierIsSmaller(a, b);
    } else if Earlier(b, a) {
      EarlierIsSmaller(b, a);
    }
  }

  lemma EarlierIsSmaller(a: Date, b: Date)
    requires ValidDate(a) && ValidDate(b) && Earlier(a, b)
    ensures DayNumber(a) < DayNumber(b)
  {
    if a.year < b.year {
      YearsGrow(a.year, b.year);
      MonthsGrow(a.year, a.month, 13);
    } else if a.month < b.month {
      MonthsGrow(a.year, a.month, b.month);
    }
  }

  // ----- every day has a date

  function NextDate(d: Date): Date {
    if d.day < DaysIn(d.year, d.month) then d.(day := d.day + 1)
    else if d.month < 12 then Date(d.year, d.month + 1, 1)
    else Date(d.year + 1, 1, 1)
  }

  lemma NextDateIsNextDay(d: Date)
    requires ValidDate(d)
    ensures ValidDate(NextDate(d)) && DayNumber(NextDate(d)) == DayNumber(d) + 1
  {
  }

  /** The calendar date of a day, counted from the first day of year 0. */
  function DateOfDay(day: nat): Date {
    if day == 0 then Date(0, 1, 1) else NextDate(DateOfDay(day - 1))
  }

  /** The calendar leaves no day out: every instant from year 0 on has its date. */
  lemma {:induction false} EveryDayHasItsDate(day: nat)
    ensures ValidDate(DateOfDay(day)) && DayNumber(DateOfDay(day)) == day
  {
    if day > 0 {
      EveryDayHasItsDate(day - 1);
      NextDateIsNextDay(DateOfDay(day - 1));
    }
  }

  /** The date an instant falls on. */
  function DateAt(t: Instant): Date
    requires 0 <= t
  {
    DateOfDay(DayOf(t))
  }

  predicate IsDigit(c: char) {
    '0' <= c <= '9'
  }

  function Digit(c: char): nat
    requires IsDigit(c)
  {
    c as int - '0' as int
  }

  /** Exactly YYYY-MM-DD, with surrounding space allowed, naming a day that exists. */
  function ParseIsoDate(raw: string): (date: Option<Date>)
    ensures date.Some? ==> ValidDate(date.value)
  {
    var s := TrimSpace(raw);
    if |s| != 10 || s[4] != '-' || s[7] != '-' then None
    else if !(IsDigit(s[0]) && IsDigit(s[1]) && IsDigit(s[2]) && IsDigit(s[3])
              && IsDigit(s[5]) && IsDigit(s[6]) && IsDigit(s[8]) && IsDigit(s[9])) then None
    else
      var date := Date(1000 * Digit(s[0]) + 100 * Digit(s[1]) + 10 * Digit(s[2]) + Digit(s[3]),
                       10 * Digit(s[5]) + Digit(s[6]), 10 * Digit(s[8]) + Digit(s[9]));
      if ValidDate(date) then Some(date) else None
  }

  // ----- the half-open range

  /** `from` is inclusive and `to` is exclusive; a missing bound is open. */
  datatype DateRange = DateRange(from: Option<Instant>, to: Option<Instant>)

  function Midnight(d: Date): Instant {
    DayNumber(d) * DAY
  }

  function NextMidnight(d: Date): Instant {
    Midnight(d) + DAY
  }

  function FromBound(date: Option<Date>): Option<Instant> {
    if date.Some? then Some(Midnight(date.value)) else None
  }

  function ThroughBound(date: Option<Date>): Option<Instant> {
    if date.Some? then Some(NextMidnight(date.value)) else None
  }

  function ParseDateRange(raw: string): Option<DateRange> {
    var value := TrimSpace(raw);
    if value == "" then None
    else if HasPrefix(value, ">=") then
      var t := ParseIsoDate(value[2..]);
      if t.None? then None else Some(DateRange(Some(Midnight(t.value)), None))
    else if HasPrefix(value, ">") then
      var t := ParseIsoDate(value[1..]);
      if t.None? then None else Some(DateRange(Some(NextMidnight(t.value)), None))
    else if HasPrefix(value, "<=") then
      var t := ParseIsoDate(value[2..]);
      if t.None? then None else Some(DateRange(None, Some(NextMidnight(t.value))))
    else if HasPrefix(value, "<") then
      var t := ParseIsoDate(value[1..]);
      if t.None? then None else Some(DateRange(None, Some(Midnight(t.value))))
    else if Index(value, "..") >= 0 then
      var i := Index(value, "..");
      var (lo, hi) := (value[..i], value[i + 2..]);
      if lo != "" && ParseIsoDate(lo).None? then None
      else if hi != "" && ParseIsoDate(hi).None? then None
      else if lo == "" && hi == "" then None
      else Some(DateRange(if lo == "" then None else FromBound(ParseIsoDate(lo)),
                          if hi == "" then None else ThroughBound(ParseIsoDate(hi))))
    else
      var t := ParseIsoDate(value);
      if t.None? then None else Some(DateRange(Some(Midnight(t.value)), Some(NextMidnight(t.value))))
  }

  /** What the compiled filter tests: at or after `from`, and before `to`. */
  predicate InRange(r: DateRange, t: Instant) {
    (r.from.Some? ==> r.from.value <= t) && (r.to.Some? ==> t < r.to.value)
  }

  // ----- the comparison as written

  /** A qualifier read as a statement about calendar days. */
  datatype Comparison =
    | OnOrAfter(date: Date) | After(date: Date) | OnOrBefore(date: Date) | Before(date: Date)
    | Between(low: Option<Date>, high: Option<Date>) | On(date: Date)

  predicate Says(c: Comparison, today: Date) {
    match c
    case OnOrAfter(d) => !Earlier(today, d)
    case After(d) => Earlier(d, today)
    case OnOrBefore(d) => !Earlier(d, today)
    case Before(d) => Earlier(today, d)
    case Between(low, high) =>
      (low.Some? ==> !Earlier(today, low.value)) && (high.Some? ==> !Earlier(high.value, today))
    case On(d) => today == d
  }

  function ReadOne(text: string, make: Date -> Comparison): Option<Comparison> {
    var date := ParseIsoDate(text);
    if date.None? then None else Some(make(date.value))
  }

  /** The grammar of date qualifiers, with no arithmetic. */
  function Read(raw: string): Option<Comparison> {
    var value := TrimSpace(raw);
    if HasPrefix(value, ">=") then ReadOne(value[2..], d => OnOrAfter(d))
    else if HasPrefix(value, ">") then ReadOne(value[1..], d => After(d))
    else if HasPrefix(value, "<=") then ReadOne(value[2..], d => OnOrBefore(d))
    else if HasPrefix(value, "<") then ReadOne(value[1..], d => Before(d))
    else if Index(value, "..") < 0 then ReadOne(value, d => On(d))
    else
      var i := Index(value, "..");
      var (lo, hi) := (ParseIsoDate(value[..i]), ParseIsoDate(value[i + 2..]));
      if (value[..i] != "" && lo.None?) || (value[i + 2..] != "" && hi.None?) then None
      else if value == ".." then None
      else Some(Between(lo, hi))
  }

  lemma NoDateInNothing()
    ensures ParseIsoDate("").None?
  {}

  lemma MidnightSplitsDays(d: Date, today: Date, t: Instant)
    requires ValidDate(d) && ValidDate(today) && DayOf(t) == DayNumber(today)
    ensures Midnight(d) <= t <==> !Earlier(today, d)
    ensures NextMidnight(d) <= t <==> Earlier(d, today)
  {
    hide DayNumber;
    DayNumbersKeepOrder(d, today);
    DayNumbersKeepOrder(today, d);
  }

  /** A qualifier is accepted exactly when the grammar reads it, and the half-open range then
      holds of an instant exactly when the instant's calendar day satisfies it as written. */
  lemma RangeMeansComparison(raw: string, today: Date, t: Instant)
    requires ValidDate(today) && DayOf(t) == DayNumber(today)
    ensures ParseDateRange(raw).Some? <==> Read(raw).Some?
    ensures ParseDateRange(raw).Some? ==> (InRange(ParseDateRange(raw).value, t) <==> Says(Read(raw).value, today))
  {
    hide ParseIsoDate, DayNumber, DayOf, TrimSpace, Index, Midnight, NextMidnight, Earlier;
    NoDateInNothing();
    if Read(raw).Some? {
      BoundsOf(Read(raw).value, today, t);
    }
    assert TrimSpace(raw) == ".." ==> Index(TrimSpace(raw), "..") >= 0 by { IndexIsFirst("..", "..", 0); }
  }

  /** The same for every instant from year 0 on, with the date it falls on. */
  lemma RangeMeansDay(raw: string, t: Instant)
    requires 0 <= t
    ensures ParseDateRange(raw).Some? <==> Read(raw).Some?
    ensures ParseDateRange(raw).Some? ==>
      (InRange(ParseDateRange(raw).value, t) <==> Says(Read(raw).value, DateAt(t)))
  {
    EveryDayHasItsDate(DayOf(t));
    hide ParseDateRange, Read, InRange, Says, DateOfDay, DayNumber;
    RangeMeansComparison(raw, DateOfDay(DayOf(t)), t);
  }

  lemma BoundsOf(c: Comparison, today: Date, t: Instant)
    requires ValidDate(today) && DayOf(t) == DayNumber(today)
    ensures !c.Between? && ValidDate(c.date) ==>
              (Midnight(c.date) <= t <==> !Earlier(today, c.date))
              && (NextMidnight(c.date) <= t <==> Earlier(c.date, today))
              && (!Earlier(today, c.date) && !Earlier(c.date, today) <==> today == c.date)
    ensures c.Between? && c.low.Some? && ValidDate(c.low.value) ==>
              (Midnight(c.low.value) <= t <==> !Earlier(today, c.low.value))
    ensures c.Between? && c.high.Some? && ValidDate(c.high.value) ==>
              (NextMidnight(c.high.value) <= t <==> Earlier(c.high.value, today))
  {
    if !c.Between? && ValidDate(c.date) { MidnightSplitsDays(c.date, today, t); }
    if c.Between? && c.low.Some? && ValidDate(c.low.value) { MidnightSplitsDays(c.low.value, today, t); }
    if c.Between? && c.high.Some? && ValidDate(c.high.value) { MidnightSplitsDays(c.high.value, today, t); }
  }
}
