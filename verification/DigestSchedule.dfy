/** When a notification digest is next sent, and the sweep that sends the due ones. */
module DigestSchedule {
  import opened Prelude
  import opened Clock

  type User = int

  datatype Frequency = Daily | Weekly

  /** 0 is Sunday; the first day of year 0 is a Saturday. */
  function Weekday(day: int): int {
    (day + 6) % 7
  }

  function At(day: int, hour: int): Instant {
    day * DAY + hour * HOUR
  }

  // ----- what a tick is

  /** An instant at the full hour of the schedule, for weekly ones on its day. */
  predicate IsTick(t: Instant, frequency: Frequency, hour: int, dayOfWeek: int) {
    t == At(DayOf(t), hour) && (frequency == Weekly ==> Weekday(DayOf(t)) == dayOfWeek)
  }

  /** The ranges the table allows. */
  predicate ValidSchedule(hour: int, dayOfWeek: int) {
    0 <= hour <= 23 && 0 <= dayOfWeek <= 6
  }

  ghost predicate IsNextTick(base: Instant, t: Instant, frequency: Frequency, hour: int, dayOfWeek: int) {
    && base < t && IsTick(t, frequency, hour, dayOfWeek)
    && forall u | IsTick(u, frequency, hour, dayOfWeek) && base < u :: t <= u
  }

  lemma DayOfAt(day: int, hour: int)
    requires 0 <= hour <= 23
    ensures DayOf(At(day, hour)) == day
  {
    assert 0 <= hour * HOUR < DAY;
  }

  lemma TickDays(t: Instant, u: Instant, frequency: Frequency, hour: int, dayOfWeek: int)
    requires IsTick(t, frequency, hour, dayOfWeek) && IsTick(u, frequency, hour, dayOfWeek)
    ensures t <= u <==> DayOf(t) <= DayOf(u)
  {
  }

  // ----- the computation

  /** The day of the next tick: today's when it is still ahead, or else tomorrow's. */
  function NextDailyDay(base: Instant, hour: int): int {
    if At(DayOf(base), hour) > base then DayOf(base) else DayOf(base) + 1
  }

  /** The first day from the given one on with the weekday. */
  function OnWeekday(day: int, dayOfWeek: int): int {
    day + (dayOfWeek - Weekday(day)) % 7
  }

  function NextSendTime(base: Instant, frequency: Frequency, hour: int, dayOfWeek: int): Instant {
    match frequency
    case Daily => At(NextDailyDay(base, hour), hour)
    case Weekly => At(OnWeekday(NextDailyDay(base, hour), dayOfWeek), hour)
  }

  method NextDailyAfter(base: Instant, hour: int) returns (candidate: Instant)
    ensures candidate == NextSendTime(base, Daily, hour, 0)
  {
    candidate := At(DayOf(base), hour);
    if !(candidate > base) {
      candidate := candidate + 24 * HOUR;
    }
  }

  lemma Mod7(x: int, k: int, r: int)
    requires x == 7 * k + r && 0 <= r < 7
    ensures x % 7 == r
  {
  }

  /** How many days ahead the weekday is, without a remainder. */
  lemma DaysAhead(day: int, dayOfWeek: int)
    requires 0 <= dayOfWeek <= 6
    ensures 0 <= Weekday(day) <= 6
    ensures OnWeekday(day, dayOfWeek) - day ==
      if Weekday(day) <= dayOfWeek then dayOfWeek - Weekday(day) else dayOfWeek - Weekday(day) + 7
  {
    var w := Weekday(day);
    Mod7(dayOfWeek - w, if w <= dayOfWeek then 0 else -1, if w <= dayOfWeek then dayOfWeek - w else dayOfWeek - w + 7);
  }

  lemma WeekdayAdds(day: int, n: int)
    requires 0 <= n <= 6
    ensures Weekday(day + n) == if Weekday(day) + n < 7 then Weekday(day) + n else Weekday(day) + n - 7
  {
    var w, k := Weekday(day), (day + 6) / 7;
    Mod7(day + n + 6, if w + n < 7 then k else k + 1, if w + n < 7 then w + n else w + n - 7);
  }

  lemma OnWeekdayIs(day: int, dayOfWeek: int)
    requires 0 <= dayOfWeek <= 6
    ensures day <= OnWeekday(day, dayOfWeek) <= day + 6
    ensures Weekday(OnWeekday(day, dayOfWeek)) == dayOfWeek
    ensures Weekday(day) == dayOfWeek <==> OnWeekday(day, dayOfWeek) == day
    ensures Weekday(day) != dayOfWeek ==> OnWeekday(day, dayOfWeek) == OnWeekday(day + 1, dayOfWeek)
  {
    hide Weekday, OnWeekday;
    DaysAhead(day, dayOfWeek);
    DaysAhead(day + 1, dayOfWeek);
    WeekdayAdds(day, OnWeekday(day, dayOfWeek) - day);
    WeekdayAdds(day, 1);
  }

  /** The loop adds days until weekday and instant fit; it ends because the distance to the next
      fitting day shrinks, for every weekday 0..6. */
  method NextWeeklyAfter(base: Instant, hour: int, dayOfWeek: int) returns (candidate: Instant)
    requires ValidSchedule(hour, dayOfWeek)
    ensures candidate == NextSendTime(base, Weekly, hour, dayOfWeek)
  {
    hide Weekday, OnWeekday;
    ghost var first := NextDailyDay(base, hour);
    ghost var last := OnWeekday(first, dayOfWeek);
    ghost var day := DayOf(base);
    candidate := At(DayOf(base), hour);
    DayOfAt(day, hour);
    OnWeekdayIs(first, dayOfWeek);
    while !(Weekday(DayOf(candidate)) == dayOfWeek && candidate > base)
      invariant candidate == At(day, hour) && DayOf(candidate) == day
      invariant DayOf(base) <= day <= last
      invariant day < first ==> candidate <= base && first == day + 1
      invariant day >= first ==> candidate > base && OnWeekday(day, dayOfWeek) == last
      decreases last - day
    {
      OnWeekdayIs(day, dayOfWeek);
      OnWeekdayIs(day + 1, dayOfWeek);
      candidate := candidate + 24 * HOUR;
      day := day + 1;
      DayOfAt(day, hour);
    }
    OnWeekdayIs(day, dayOfWeek);
  }

  // ----- what it promises

  lemma DailyIsNextTick(base: Instant, hour: int, dayOfWeek: int)
    requires 0 <= hour <= 23
    ensures IsNextTick(base, NextSendTime(base, Daily, hour, dayOfWeek), Daily, hour, dayOfWeek)
    ensures NextSendTime(base, Daily, hour, dayOfWeek) - base <= 24 * HOUR
  {
    var day := NextDailyDay(base, hour);
    DayOfAt(day, hour);
    DayOfAt(DayOf(base), hour);
    forall u | IsTick(u, Daily, hour, dayOfWeek) && base < u ensures At(day, hour) <= u {
      assert DayOf(base) <= DayOf(u);
    }
  }

  /** No day strictly between has the weekday. */
  lemma {:induction false} OnWeekdayIsFirst(day: int, dayOfWeek: int, other: int)
    requires 0 <= dayOfWeek <= 6 && day <= other && Weekday(other) == dayOfWeek
    ensures OnWeekday(day, dayOfWeek) <= other
    decreases other - day
  {
    hide Weekday, OnWeekday;
    OnWeekdayIs(day, dayOfWeek);
    if day < other {
      OnWeekdayIsFirst(day + 1, dayOfWeek, other);
    }
  }

  lemma WeeklyIsNextTick(base: Instant, hour: int, dayOfWeek: int)
    requires ValidSchedule(hour, dayOfWeek)
    ensures IsNextTick(base, NextSendTime(base, Weekly, hour, dayOfWeek), Weekly, hour, dayOfWeek)
    ensures NextSendTime(base, Weekly, hour, dayOfWeek) - base <= 7 * 24 * HOUR
  {
    DailyIsNextTick(base, hour, dayOfWeek);
    var first := NextDailyDay(base, hour);
    var day := OnWeekday(first, dayOfWeek);
    OnWeekdayIs(first, dayOfWeek);
    DayOfAt(first, hour);
    DayOfAt(day, hour);
    forall u | IsTick(u, Weekly, hour, dayOfWeek) && base < u ensures At(day, hour) <= u {
      assert IsTick(u, Daily, hour, dayOfWeek);
      TickDays(At(first, hour), u, Daily, hour, dayOfWeek);
      OnWeekdayIsFirst(first, dayOfWeek, DayOf(u));
    }
  }

  /** The least tick strictly after base, at most one period away. */
  lemma NextSendTimeIsNextTick(base: Instant, frequency: Frequency, hour: int, dayOfWeek: int)
    requires ValidSchedule(hour, dayOfWeek)
    ensures IsNextTick(base, NextSendTime(base, frequency, hour, dayOfWeek), frequency, hour, dayOfWeek)
    ensures NextSendTime(base, frequency, hour, dayOfWeek) - base <= (if frequency == Daily then 24 else 7 * 24) * HOUR
  {
    match frequency
    case Daily => DailyIsNextTick(base, hour, dayOfWeek);
    case Weekly => WeeklyIsNextTick(base, hour, dayOfWeek);
  }

  // ----- the sweep

  datatype Row = Row(
    enabled: bool, frequency: Frequency, hour: int, dayOfWeek: Option<int>,
    nextSend: Option<Instant>, lastSent: Option<Instant>)

  const DIGEST_SWEEP_BATCH: nat := 100

  function DayOfWeek(row: Row): int {
    if row.dayOfWeek.Some? then row.dayOfWeek.value else 0
  }

  predicate IsDue(row: Row, now: Instant) {
    row.enabled && row.nextSend.Some? && row.nextSend.value <= now
  }

  function NextOf(row: Row, base: Instant): Instant {
    NextSendTime(base, row.frequency, row.hour, DayOfWeek(row))
  }

  predicate IsRowTick(row: Row, t: Instant) {
    IsTick(t, row.frequency, row.hour, DayOfWeek(row))
  }

  predicate ValidRow(row: Row) {
    ValidSchedule(row.hour, DayOfWeek(row))
  }

  /** One sweep: the rows it claims at an instant, when each is handled, whether a message goes
      out, and whether the row is then advanced. A message may go out and the advance still fail;
      an empty inbox is advanced without a message. */
  datatype Sweep = Sweep(
    now: Instant, claimed: seq<User>, clock: User -> Instant, sent: User -> bool, advanced: User -> bool)

  /** Claiming moves the row an hour ahead, and only a successful advance moves it to a tick. */
  function Handled(row: Row, sweep: Sweep, u: User): Row {
    if sweep.advanced(u) then row.(nextSend := Some(NextOf(row, sweep.clock(u))), lastSent := Some(sweep.clock(u)))
    else row.(nextSend := Some(sweep.now + HOUR))
  }

  predicate CanClaim(rows: map<User, Row>, sweep: Sweep) {
    && |sweep.claimed| <= DIGEST_SWEEP_BATCH
    && (forall u | u in sweep.claimed :: u in rows && IsDue(rows[u], sweep.now) && sweep.now <= sweep.clock(u))
    && (forall i, j | 0 <= i < j < |sweep.claimed| :: sweep.claimed[i] != sweep.claimed[j])
  }

  function HandleAll(rows: map<User, Row>, sweep: Sweep, users: seq<User>): map<User, Row> {
    map u | u in rows :: if u in users then Handled(rows[u], sweep, u) else rows[u]
  }

  function Swept(rows: map<User, Row>, sweep: Sweep): map<User, Row> {
    HandleAll(rows, sweep, sweep.claimed)
  }

  function Advances(users: seq<User>, sweep: Sweep): nat {
    if users == [] then 0
    else Advances(users[..|users| - 1], sweep) + (if sweep.advanced(users[|users| - 1]) then 1 else 0)
  }

  datatype Message = Message(recipient: User, at: Instant)

  function Messages(users: seq<User>, sweep: Sweep): seq<Message> {
    if users == [] then []
    else
      var u := users[|users| - 1];
      Messages(users[..|users| - 1], sweep) + (if sweep.sent(u) then [Message(u, sweep.clock(u))] else [])
  }

  lemma HandleOneMore(rows: map<User, Row>, sweep: Sweep, users: seq<User>, u: User)
    requires u in rows && u !in users
    ensures u in HandleAll(rows, sweep, users) && HandleAll(rows, sweep, users)[u] == rows[u]
    ensures HandleAll(rows, sweep, users + [u]) == HandleAll(rows, sweep, users)[u := Handled(rows[u], sweep, u)]
    ensures Advances(users + [u], sweep) == Advances(users, sweep) + (if sweep.advanced(u) then 1 else 0)
    ensures Messages(users + [u], sweep) ==
      Messages(users, sweep) + (if sweep.sent(u) then [Message(u, sweep.clock(u))] else [])
  {
    hide Handled;
    assert (users + [u])[..|users|] == users;
  }

  class Sweeper {
    var rows: map<User, Row>
    var outbox: seq<Message>

    constructor (rows: map<User, Row>)
      ensures this.rows == rows && outbox == []
    {
      this.rows, outbox := rows, [];
    }

    method Advance(u: User, now: Instant)
      requires u in rows && ValidRow(rows[u])
      modifies this`rows
      ensures rows == old(rows)[u := old(rows)[u].(nextSend := Some(NextOf(old(rows)[u], now)), lastSent := Some(now))]
    {
      var row := rows[u];
      var next;
      if row.frequency == Weekly {
        next := NextWeeklyAfter(now, row.hour, DayOfWeek(row));
      } else {
        next := NextDailyAfter(now, row.hour);
      }
      rows := rows[u := row.(nextSend := Some(next), lastSent := Some(now))];
    }

    /** One claimed row: the message goes out before the row is advanced. */
    method ProcessOne(sweep: Sweep, u: User) returns (ok: bool)
      requires u in rows && ValidRow(rows[u])
      modifies this
      ensures rows == old(rows)[u := Handled(old(rows)[u], sweep, u)]
      ensures outbox == old(outbox) + (if sweep.sent(u) then [Message(u, sweep.clock(u))] else [])
      ensures ok == sweep.advanced(u)
    {
      hide NextSendTime;
      if sweep.sent(u) {
        outbox := outbox + [Message(u, sweep.clock(u))];
      }
      if sweep.advanced(u) {
        Advance(u, sweep.clock(u));
      } else {
        rows := rows[u := rows[u].(nextSend := Some(sweep.now + HOUR))];
      }
      ok := sweep.advanced(u);
    }

    /** Per-row failures do not stop the sweep. */
    method SweepOnce(sweep: Sweep) returns (processed: nat)
      requires CanClaim(rows, sweep) && forall u | u in rows :: ValidRow(rows[u])
      modifies this
      ensures rows == Swept(old(rows), sweep)
      ensures outbox == old(outbox) + Messages(sweep.claimed, sweep)
      ensures processed == Advances(sweep.claimed, sweep)
    {
      processed := 0;
      ghost var before := rows;
      var claimed := sweep.claimed;
      NoneHandled(before, sweep);
      hide HandleAll, Handled, Advances, Messages, ValidRow, CanClaim;
      for i := 0 to |claimed|
        invariant rows == HandleAll(before, sweep, claimed[..i])
        invariant outbox == old(outbox) + Messages(claimed[..i], sweep)
        invariant processed == Advances(claimed[..i], sweep)
      {
        var u := claimed[i];
        NextClaimed(before, sweep, i);
        HandleOneMore(before, sweep, claimed[..i], u);
        ghost var sent := Messages(claimed[..i], sweep);
        var ok := ProcessOne(sweep, u);
        assert outbox == old(outbox) + (sent + if sweep.sent(u) then [Message(u, sweep.clock(u))] else []);
        if ok {
          processed := processed + 1;
        }
      }
      assert claimed[..|claimed|] == claimed;
    }
  }

  lemma NextClaimed(rows: map<User, Row>, sweep: Sweep, i: nat)
    requires CanClaim(rows, sweep) && i < |sweep.claimed|
    ensures var claimed := sweep.claimed;
      claimed[i] in rows && claimed[i] !in claimed[..i] && claimed[..i + 1] == claimed[..i] + [claimed[i]]
  {
    var u := sweep.claimed[i];
    assert u in sweep.claimed;
    ClaimedWasDue(rows, sweep, u);
  }

  lemma NoneHandled(rows: map<User, Row>, sweep: Sweep)
    ensures HandleAll(rows, sweep, []) == rows && Advances([], sweep) == 0 && Messages([], sweep) == []
  {
  }

  /** A claimed row is not due again at the instant of the sweep, and an advanced one not at the
      instant it was handled. */
  lemma SweptIsNotDue(rows: map<User, Row>, sweep: Sweep, u: User)
    requires CanClaim(rows, sweep) && u in sweep.claimed && ValidRow(rows[u])
    ensures !IsDue(Swept(rows, sweep)[u], sweep.now)
    ensures sweep.advanced(u) ==> !IsDue(Swept(rows, sweep)[u], sweep.clock(u))
  {
    NextSendTimeIsNextTick(sweep.clock(u), rows[u].frequency, rows[u].hour, DayOfWeek(rows[u]));
  }

  // ----- runs of sweeps

  /** Sweeps follow one another: each starts when the one before has handled its rows. */
  ghost predicate IsRun(rows: map<User, Row>, sweeps: seq<Sweep>)
    decreases |sweeps|
  {
    sweeps == [] || (
      && CanClaim(rows, sweeps[0])
      && (forall u, j | u in sweeps[0].claimed && 0 < j < |sweeps| :: sweeps[0].clock(u) <= sweeps[j].now)
      && IsRun(Swept(rows, sweeps[0]), sweeps[1..]))
  }

  /** One user's part in a run: each time its row was claimed. */
  datatype Handling = Handling(claimed: Instant, at: Instant, sent: bool, advanced: bool)

  function Handlings(sweeps: seq<Sweep>, u: User): seq<Handling> {
    if sweeps == [] then []
    else
      var s := sweeps[0];
      (if u in s.claimed then [Handling(s.now, s.clock(u), s.sent(u), s.advanced(u))] else []) + Handlings(sweeps[1..], u)
  }

  ghost predicate NotBefore(row: Row, tick: Instant) {
    row.nextSend.Some? && tick <= row.nextSend.value
  }

  /** Each handling comes after a tick of its own since the last advance, failed ones come an hour
      apart, and time does not run backwards. */
  ghost predicate Spaced(row: Row, last: Instant, hs: seq<Handling>)
    decreases |hs|
  {
    hs == [] || (
      && NextOf(row, last) <= hs[0].claimed <= hs[0].at
      && (|hs| > 1 ==> hs[0].at <= hs[1].claimed && (!hs[0].advanced ==> hs[0].claimed + HOUR <= hs[1].claimed))
      && Spaced(row, if hs[0].advanced then hs[0].at else last, hs[1..]))
  }

  lemma ScheduleOnly(a: Row, b: Row, last: Instant, hs: seq<Handling>)
    requires a.frequency == b.frequency && a.hour == b.hour && DayOfWeek(a) == DayOfWeek(b)
    requires Spaced(a, last, hs)
    ensures Spaced(b, last, hs)
    decreases |hs|
  {
    if hs != [] {
      ScheduleOnly(a, b, if hs[0].advanced then hs[0].at else last, hs[1..]);
    }
  }

  /** Whoever is claimed next was due by then, and no sweep starts before an instant all start after. */
  lemma {:induction false} FirstClaim(rows: map<User, Row>, sweeps: seq<Sweep>, u: User, from: Instant)
    requires IsRun(rows, sweeps) && u in rows && rows[u].nextSend.Some?
    requires forall j | 0 <= j < |sweeps| :: from <= sweeps[j].now
    ensures var hs := Handlings(sweeps, u);
      hs != [] ==> rows[u].nextSend.value <= hs[0].claimed && from <= hs[0].claimed
    decreases |sweeps|
  {
    if sweeps != [] {
      hide Handled, NextSendTime;
      if u in sweeps[0].claimed {
        ClaimedWasDue(rows, sweeps[0], u);
      } else {
        FirstClaim(Swept(rows, sweeps[0]), sweeps[1..], u, from);
      }
    }
  }

  lemma ClaimedWasDue(rows: map<User, Row>, sweep: Sweep, u: User)
    requires CanClaim(rows, sweep) && u in sweep.claimed
    ensures u in rows && IsDue(rows[u], sweep.now) && sweep.now <= sweep.clock(u)
  {
  }

  lemma {:induction false} RunIsSpaced(rows: map<User, Row>, sweeps: seq<Sweep>, u: User, last: Instant)
    requires IsRun(rows, sweeps) && u in rows && ValidRow(rows[u]) && NotBefore(rows[u], NextOf(rows[u], last))
    ensures Spaced(rows[u], last, Handlings(sweeps, u))
    decreases |sweeps|
  {
    if sweeps != [] {
      var sweep, after := sweeps[0], Swept(rows, sweeps[0]);
      var rest := Handlings(sweeps[1..], u);
      if u in sweep.claimed {
        ClaimedWasDue(rows, sweep, u);
        hide NextSendTime, CanClaim;
        var next := if sweep.advanced(u) then sweep.clock(u) else last;
        RunIsSpaced(after, sweeps[1..], u, next);
        ScheduleOnly(after[u], rows[u], next, rest);
        FirstClaim(after, sweeps[1..], u, sweep.clock(u));
        assert Handlings(sweeps, u)[1..] == rest;
      } else {
        hide NextSendTime, CanClaim;
        RunIsSpaced(after, sweeps[1..], u, last);
        assert Handlings(sweeps, u) == rest;
      }
    }
  }

  // ----- how many messages a tick can cause

  /** A tick after the first instant and not after the second. */
  ghost predicate TickIn(row: Row, s: Instant, t: Instant) {
    exists x :: IsRowTick(row, x) && s < x <= t
  }

  lemma TickInIff(row: Row, s: Instant, t: Instant)
    requires ValidRow(row)
    ensures TickIn(row, s, t) <==> NextOf(row, s) <= t
  {
    hide NextSendTime, IsTick;
    NextSendTimeIsNextTick(s, row.frequency, row.hour, DayOfWeek(row));
    if NextOf(row, s) <= t {
      assert IsRowTick(row, NextOf(row, s));
    }
  }

  lemma {:induction false} TimeGoesOn(row: Row, last: Instant, hs: seq<Handling>, i: nat, j: nat)
    requires Spaced(row, last, hs) && i < j < |hs|
    ensures hs[i].claimed <= hs[i].at <= hs[j].claimed <= hs[j].at
    ensures hs[i].advanced ==> NextOf(row, hs[i].at) <= hs[j].at
    ensures !hs[i].advanced ==> hs[i].claimed + HOUR <= hs[j].claimed
    decreases |hs|
  {
    hide NextOf;
    var rest, next := hs[1..], if hs[0].advanced then hs[0].at else last;
    if i > 0 {
      TimeGoesOn(row, next, rest, i - 1, j - 1);
    } else {
      assert rest[0] == hs[1] && rest[j - 1] == hs[j];
      if j > 1 {
        TimeGoesOn(row, next, rest, 0, j - 1);
      }
    }
  }

  /** Over any run, two handlings of a row have a tick between them when one from the first on and
      before the second advanced it. */
  lemma AdvancedBetween(rows: map<User, Row>, sweeps: seq<Sweep>, u: User, last: Instant, i: nat, k: nat, j: nat)
    requires IsRun(rows, sweeps) && u in rows && ValidRow(rows[u]) && NotBefore(rows[u], NextOf(rows[u], last))
    requires i <= k < j < |Handlings(sweeps, u)| && Handlings(sweeps, u)[k].advanced
    ensures TickIn(rows[u], Handlings(sweeps, u)[i].at, Handlings(sweeps, u)[j].at)
  {
    hide NextSendTime, IsRun, Handlings, TickIn, Spaced;
    var row, hs := rows[u], Handlings(sweeps, u);
    RunIsSpaced(rows, sweeps, u, last);
    TickInIff(row, hs[i].at, hs[j].at);
    TimeGoesOn(row, last, hs, k, j);
    if i < k {
      TimeGoesOn(row, last, hs, i, k);
    }
    NextTickGrows(row, hs[i].at, hs[k].at);
  }

  lemma NextTickGrows(row: Row, s: Instant, t: Instant)
    requires ValidRow(row) && s <= t
    ensures NextOf(row, s) <= NextOf(row, t)
  {
    hide NextSendTime, IsTick;
    NextSendTimeIsNextTick(s, row.frequency, row.hour, DayOfWeek(row));
    NextSendTimeIsNextTick(t, row.frequency, row.hour, DayOfWeek(row));
  }

  /** When every message's advance succeeds, every two messages to a user have a tick between them. */
  lemma AtMostOncePerTick(rows: map<User, Row>, sweeps: seq<Sweep>, u: User, last: Instant, i: nat, j: nat)
    requires IsRun(rows, sweeps) && u in rows && ValidRow(rows[u]) && NotBefore(rows[u], NextOf(rows[u], last))
    requires i < j < |Handlings(sweeps, u)| && Handlings(sweeps, u)[i].sent
    requires forall k | 0 <= k < |Handlings(sweeps, u)| && Handlings(sweeps, u)[k].sent :: Handlings(sweeps, u)[k].advanced
    ensures TickIn(rows[u], Handlings(sweeps, u)[i].at, Handlings(sweeps, u)[j].at)
  {
    hide NextSendTime, IsRun, Handlings, TickIn;
    assert Handlings(sweeps, u)[i].advanced;
    AdvancedBetween(rows, sweeps, u, last, i, i, j);
  }

  /** A message whose advance failed is not repeated within the hour. */
  lemma RepeatsAreAnHourApart(rows: map<User, Row>, sweeps: seq<Sweep>, u: User, last: Instant, i: nat, j: nat)
    requires IsRun(rows, sweeps) && u in rows && ValidRow(rows[u]) && NotBefore(rows[u], NextOf(rows[u], last))
    requires i < j < |Handlings(sweeps, u)| && !Handlings(sweeps, u)[i].advanced
    ensures Handlings(sweeps, u)[i].claimed + HOUR <= Handlings(sweeps, u)[j].claimed
  {
    hide NextSendTime, IsRun, Handlings, Spaced;
    RunIsSpaced(rows, sweeps, u, last);
    TimeGoesOn(rows[u], last, Handlings(sweeps, u), i, j);
  }

  // ----- when a message can be repeated

  /** Going on with these sweeps mails the user again before the next tick. */
  ghost predicate RepeatsIn(rows: map<User, Row>, sweep: Sweep, more: seq<Sweep>, u: User)
    requires u in rows
  {
    var hs := Handlings(more, u);
    && IsRun(rows, [sweep] + more)
    && exists j | 0 <= j < |hs| :: hs[j].sent && !TickIn(rows[u], sweep.clock(u), hs[j].at)
  }

  ghost predicate CanRepeat(rows: map<User, Row>, sweep: Sweep, u: User)
    requires u in rows
  {
    exists more :: RepeatsIn(rows, sweep, more, u)
  }

  /** The next sweep that finds the row due can start before the instant: the claim has run out and every
      row of this sweep has been handled. */
  ghost predicate OpensBefore(sweep: Sweep, t: Instant) {
    sweep.now + HOUR < t && forall v | v in sweep.claimed :: sweep.clock(v) < t
  }

  lemma RunGoesOn(rows: map<User, Row>, sweep: Sweep, more: seq<Sweep>)
    ensures IsRun(rows, [sweep] + more) <==>
      && CanClaim(rows, sweep) && IsRun(Swept(rows, sweep), more)
      && forall v, j | v in sweep.claimed && 0 <= j < |more| :: sweep.clock(v) <= more[j].now
  {
    hide CanClaim, Swept;
    var all := [sweep] + more;
    assert all[1..] == more && forall j | 0 <= j < |more| :: all[j + 1] == more[j];
    if IsRun(rows, all) {
      forall v, j | v in sweep.claimed && 0 <= j < |more| ensures sweep.clock(v) <= more[j].now {
        assert all[j + 1].now == more[j].now;
      }
    }
  }

  /** Handlings of a row once handled come no earlier than its next send. */
  lemma HandledLater(rows: map<User, Row>, more: seq<Sweep>, u: User, from: Instant, j: nat)
    requires IsRun(rows, more) && u in rows && ValidRow(rows[u]) && rows[u].nextSend.Some? && j < |Handlings(more, u)|
    requires forall k | 0 <= k < |more| :: from <= more[k].now
    ensures rows[u].nextSend.value <= Handlings(more, u)[j].at && from <= Handlings(more, u)[j].at
  {
    var row, hs := rows[u], Handlings(more, u);
    var last := row.nextSend.value - 7 * DAY;
    NextSendTimeIsNextTick(last, row.frequency, row.hour, DayOfWeek(row));
    hide NextSendTime, IsRun, Handlings, Spaced;
    RunIsSpaced(rows, more, u, last);
    FirstClaim(rows, more, u, from);
    if j > 0 {
      TimeGoesOn(row, last, hs, 0, j);
    }
  }

  lemma RepeatNeeds(rows: map<User, Row>, sweep: Sweep, more: seq<Sweep>, u: User)
    requires u in sweep.claimed && u in rows && ValidRow(rows[u]) && RepeatsIn(rows, sweep, more, u)
    ensures !sweep.advanced(u) && OpensBefore(sweep, NextOf(rows[u], sweep.clock(u)))
  {
    RunGoesOn(rows, sweep, more);
    var row, after, hs := rows[u], Swept(rows, sweep), Handlings(more, u);
    var j :| 0 <= j < |hs| && hs[j].sent && !TickIn(row, sweep.clock(u), hs[j].at);
    hide NextSendTime, IsRun, Handlings, TickIn, RepeatsIn, CanClaim;
    TickInIff(row, sweep.clock(u), hs[j].at);
    forall v | v in sweep.claimed ensures sweep.clock(v) <= hs[j].at && after[u].nextSend.value <= hs[j].at {
      HandledLater(after, more, u, sweep.clock(v), j);
    }
  }

  /** The latest of an instant and the sweep's clocks. */
  function Latest(users: seq<User>, sweep: Sweep, t: Instant): (r: Instant)
    ensures t <= r && forall v | v in users :: sweep.clock(v) <= r
    ensures r == t || exists v | v in users :: r == sweep.clock(v)
  {
    if users == [] then t
    else
      assert forall v | v in users :: v == users[0] || v in users[1..];
      Max(sweep.clock(users[0]), Latest(users[1..], sweep, t))
  }

  lemma RepeatHappens(rows: map<User, Row>, sweep: Sweep, u: User)
    requires CanClaim(rows, sweep) && u in sweep.claimed && ValidRow(rows[u])
    requires !sweep.advanced(u) && OpensBefore(sweep, NextOf(rows[u], sweep.clock(u)))
    ensures CanRepeat(rows, sweep, u)
  {
    ClaimedWasDue(rows, sweep, u);
    var t, after := Latest(sweep.claimed, sweep, sweep.now + HOUR), Swept(rows, sweep);
    var second := Sweep(t, [u], v => t, v => true, v => true);
    hide NextSendTime, Latest;
    assert CanClaim(after, second);
    assert [second][1..] == [] && IsRun(Swept(after, second), []);
    RunGoesOn(rows, sweep, [second]);
    hide IsRun, CanClaim, OpensBefore, TickIn;
    var h := Handling(t, t, true, true);
    assert Handlings([], u) == [];
    assert Handlings([second], u) == [h] && [h][0].sent;
    assert t < NextOf(rows[u], sweep.clock(u));
    TickInIff(rows[u], sweep.clock(u), t);
    assert RepeatsIn(rows, sweep, [second], u);
  }

  /** After a sweep has handled a user, some continuation mails the user again with no tick in between if
      and only if the row was not advanced and the next sweep can come before the next tick. */
  lemma RepeatsIff(rows: map<User, Row>, sweep: Sweep, u: User)
    requires CanClaim(rows, sweep) && u in sweep.claimed && ValidRow(rows[u])
    ensures CanRepeat(rows, sweep, u) <==>
      !sweep.advanced(u) && OpensBefore(sweep, NextOf(rows[u], sweep.clock(u)))
  {
    ClaimedWasDue(rows, sweep, u);
    hide RepeatsIn, OpensBefore, NextSendTime;
    if more :| RepeatsIn(rows, sweep, more, u) {
      RepeatNeeds(rows, sweep, more, u);
    } else if !sweep.advanced(u) && OpensBefore(sweep, NextOf(rows[u], sweep.clock(u))) {
      RepeatHappens(rows, sweep, u);
    }
  }

  /** Two sweeps, at nine and at ten: the first message goes out, its advance fails, and the user is
      mailed again with no tick in between. */
  lemma MailCanRepeat(u: User, day: int)
    ensures var row := Row(true, Daily, 9, None, Some(At(day, 9)), None);
      var first := Sweep(At(day, 9), [u], v => At(day, 9), v => true, v => false);
      var second := Sweep(At(day, 10), [u], v => At(day, 10), v => true, v => true);
      && IsRun(map[u := row], [first, second])
      && Handlings([first, second], u) ==
           [Handling(At(day, 9), At(day, 9), true, false), Handling(At(day, 10), At(day, 10), true, true)]
      && !TickIn(row, At(day, 9), At(day, 10))
  {
    var row := Row(true, Daily, 9, None, Some(At(day, 9)), None);
    var first := Sweep(At(day, 9), [u], v => At(day, 9), v => true, v => false);
    var second := Sweep(At(day, 10), [u], v => At(day, 10), v => true, v => true);
    var rows := map[u := row];
    assert [first, second][1..] == [second] && [second][1..] == [];
    assert CanClaim(rows, first);
    assert Swept(rows, first)[u] == row.(nextSend := Some(At(day, 10)));
    assert CanClaim(Swept(rows, first), second);
    assert IsRun(Swept(Swept(rows, first), second), []);
    assert Handlings([second], u) == [Handling(At(day, 10), At(day, 10), true, true)];
    DayOfAt(day, 9);
    TickInIff(row, At(day, 9), At(day, 10));
  }

  // ----- who is never mailed

  /** A disabled row, or one that has no next send, is never claimed, so its user is never mailed. */
  lemma {:induction false} DisabledIsNeverMailed(rows: map<User, Row>, sweeps: seq<Sweep>, u: User)
    requires IsRun(rows, sweeps) && (u in rows ==> !rows[u].enabled || rows[u].nextSend.None?)
    ensures Handlings(sweeps, u) == []
    decreases |sweeps|
  {
    if sweeps != [] {
      if u in sweeps[0].claimed {
        ClaimedWasDue(rows, sweeps[0], u);
      }
      DisabledIsNeverMailed(Swept(rows, sweeps[0]), sweeps[1..], u);
    }
  }

  /** A weekly digest goes out on the day asked for, at the hour asked for, and on Sunday when no day is. */
  lemma WeeklyDay(row: Row, base: Instant)
    requires ValidRow(row) && row.frequency == Weekly
    ensures var t := NextOf(row, base);
      && t == At(DayOf(t), row.hour) && base < t <= base + 7 * 24 * HOUR
      && Weekday(DayOf(t)) == if row.dayOfWeek.Some? then row.dayOfWeek.value else 0
  {
    NextSendTimeIsNextTick(base, row.frequency, row.hour, DayOfWeek(row));
    hide NextSendTime;
  }
}
