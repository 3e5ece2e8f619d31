/** The fan-out worker's cursor over the domain events: a tick lists a batch after the cursor,
    dispatches it in order until the first failure, and then moves the cursor. */
module FanoutCursor {
  import opened Prelude

  type EventId = int

  const FANOUT_BATCH: nat := 200

  /** The event table in id order, the persisted cursor row, and every successful dispatch so far. */
  datatype Feed = Feed(events: seq<EventId>, cursor: Option<EventId>, dispatched: seq<EventId>)

  /** How the outside world answers during one tick. */
  datatype Answers = Answers(loadOk: bool, listOk: bool, dispatchOk: EventId -> bool, writeOk: bool)

  function Position(cursor: Option<EventId>): EventId {
    if cursor.Some? then cursor.value else 0
  }

  /** WHERE id > last ORDER BY id LIMIT limit, on a table kept in id order. */
  function ListUnprocessed(events: seq<EventId>, last: EventId, limit: nat): seq<EventId> {
    if events == [] || limit == 0 then []
    else if events[0] > last then [events[0]] + ListUnprocessed(events[1..], last, limit - 1)
    else ListUnprocessed(events[1..], last, limit)
  }

  /** How many leading events dispatch before the first failure. */
  function Succeeding(batch: seq<EventId>, ok: EventId -> bool): (n: nat)
    ensures n <= |batch| && (forall k | 0 <= k < n :: ok(batch[k])) && (n < |batch| ==> !ok(batch[n]))
  {
    if batch == [] || !ok(batch[0]) then 0 else 1 + Succeeding(batch[1..], ok)
  }

  function BatchOf(f: Feed, a: Answers): seq<EventId> {
    if a.loadOk && a.listOk then ListUnprocessed(f.events, Position(f.cursor), FANOUT_BATCH) else []
  }

  function TickDispatches(f: Feed, a: Answers): seq<EventId> {
    BatchOf(f, a)[..Succeeding(BatchOf(f, a), a.dispatchOk)]
  }

  function Tick(f: Feed, a: Answers): Feed {
    var done := TickDispatches(f, a);
    f.(dispatched := f.dispatched + done,
       cursor := if done != [] && a.writeOk then Some(done[|done| - 1]) else f.cursor)
  }

  /** The first index where ok fails is what Succeeding counts. */
  lemma {:induction false} SucceedingIs(batch: seq<EventId>, ok: EventId -> bool, n: nat)
    requires n <= |batch| && (forall k | 0 <= k < n :: ok(batch[k])) && (n < |batch| ==> !ok(batch[n]))
    ensures Succeeding(batch, ok) == n
  {
    if n > 0 {
      SucceedingIs(batch[1..], ok, n - 1);
    }
  }

  /** The worker with its tables: the event log, the cursor row and the dispatches it made. */
  class Worker {
    var events: seq<EventId>
    var cursor: Option<EventId>
    var dispatched: seq<EventId>

    ghost function View(): Feed
      reads this
    {
      Feed(events, cursor, dispatched)
    }

    constructor ()
      ensures View() == Feed([], None, [])
    {
      events, cursor, dispatched := [], None, [];
    }

    /** One tick. The count of processed events is returned even when the cursor write fails. */
    method FanoutOnce(a: Answers) returns (processed: nat, ok: bool)
      modifies this
      ensures View() == Tick(old(View()), a)
      ensures processed == |TickDispatches(old(View()), a)|
      ensures ok == (a.loadOk && a.listOk && (processed > 0 ==> a.writeOk))
    {
      processed := 0;
      if !a.loadOk { return 0, false; }
      var last := Position(cursor);
      if !a.listOk { return 0, false; }
      var rows := ListUnprocessed(events, last, FANOUT_BATCH);
      var i := 0;
      while i < |rows| && a.dispatchOk(rows[i])
        invariant 0 <= i <= |rows| && processed == i
        invariant forall k | 0 <= k < i :: a.dispatchOk(rows[k])
        invariant last == if i == 0 then Position(cursor) else rows[i - 1]
        invariant dispatched == old(dispatched) + rows[..i]
        invariant events == old(events) && cursor == old(cursor)
      {
        dispatched := dispatched + [rows[i]];
        last := rows[i];
        processed := processed + 1;
        i := i + 1;
      }
      SucceedingIs(rows, a.dispatchOk, i);
      if processed > 0 {
        if !a.writeOk { return processed, false; }
        cursor := Some(last);
      }
      ok := true;
    }
  }

  // ----- runs of ticks and appended events

  datatype Step = RunTick(answers: Answers) | Append(id: EventId)

  /** Events become visible in ascending id order; ids are positive. */
  predicate Enabled(f: Feed, step: Step) {
    step.Append? ==> step.id > 0 && (f.events != [] ==> step.id > f.events[|f.events| - 1])
  }

  function Do(f: Feed, step: Step): Feed {
    match step
    case RunTick(a) => Tick(f, a)
    case Append(id) => f.(events := f.events + [id])
  }

  ghost predicate IsRun(f: Feed, steps: seq<Step>)
    decreases |steps|
  {
    steps == [] || (Enabled(f, steps[0]) && IsRun(Do(f, steps[0]), steps[1..]))
  }

  ghost function After(f: Feed, steps: seq<Step>): Feed
    decreases |steps|
  {
    if steps == [] then f else After(Do(f, steps[0]), steps[1..])
  }

  ghost predicate Ascending(s: seq<EventId>) {
    forall i, j | 0 <= i < j < |s| :: s[i] < s[j]
  }

  /** How many events the cursor has passed. */
  ghost function Passed(events: seq<EventId>, last: EventId): (n: nat)
    ensures n <= |events| && (forall k | 0 <= k < n :: events[k] <= last) && (n < |events| ==> events[n] > last)
  {
    if events == [] || events[0] > last then 0 else 1 + Passed(events[1..], last)
  }

  ghost predicate Valid(f: Feed) {
    && Ascending(f.events) && (forall i | 0 <= i < |f.events| :: f.events[i] > 0)
    && (f.cursor.Some? ==> f.cursor.value in f.events)
  }

  /** Every event at or below the cursor has been dispatched successfully. */
  ghost predicate NoneSkipped(f: Feed) {
    forall e | e in f.events && e <= Position(f.cursor) :: e in f.dispatched
  }

  /** On an ascending table the listed batch is the slice right after the passed events. */
  lemma {:induction false} ListIsSlice(events: seq<EventId>, last: EventId, limit: nat)
    requires Ascending(events)
    ensures ListUnprocessed(events, last, limit) == Slice(events, Passed(events, last), limit)
  {
    if events == [] || limit == 0 {
      assert Slice(events, Passed(events, last), limit) == [];
    } else {
      AscendingRest(events);
      hide Ascending, Slice;
      var rest := events[1..];
      if events[0] > last {
        ListIsSlice(rest, last, limit - 1);
        PassedIs(rest, last, 0);
        SliceHead(events, limit);
      } else {
        ListIsSlice(rest, last, limit);
        SliceTail(events, Passed(rest, last), limit);
      }
    }
  }

  lemma SliceHead(events: seq<EventId>, limit: nat)
    requires events != [] && limit > 0
    ensures Slice(events, 0, limit) == [events[0]] + Slice(events[1..], 0, limit - 1)
  {
  }

  lemma SliceTail(events: seq<EventId>, p: nat, limit: nat)
    requires p < |events|
    ensures Slice(events, 1 + p, limit) == Slice(events[1..], p, limit)
  {
  }

  lemma AscendingRest(events: seq<EventId>)
    requires Ascending(events) && events != []
    ensures Ascending(events[1..]) && (|events| > 1 ==> events[0] < events[1..][0])
  {
  }

  /** At most limit elements from position p on. */
  function Slice(events: seq<EventId>, p: nat, limit: nat): seq<EventId>
    requires p <= |events|
  {
    events[p..if p + limit <= |events| then p + limit else |events|]
  }

  ghost predicate IsSlice(events: seq<EventId>, p: nat, done: seq<EventId>) {
    p + |done| <= |events| && done == events[p..p + |done|]
  }

  /** A tick dispatches, in ascending order, a run of events with none left out after the cursor. */
  lemma TickDispatchesSlice(f: Feed, a: Answers)
    requires Valid(f)
    ensures var done := TickDispatches(f, a);
      IsSlice(f.events, Passed(f.events, Position(f.cursor)), done) && Ascending(done) && |done| <= 200
  {
    ListIsSlice(f.events, Position(f.cursor), FANOUT_BATCH);
  }

  lemma {:induction false} PassedIs(events: seq<EventId>, last: EventId, n: nat)
    requires n <= |events| && (forall k | 0 <= k < n :: events[k] <= last) && (n < |events| ==> events[n] > last)
    ensures Passed(events, last) == n
  {
    if n > 0 {
      PassedIs(events[1..], last, n - 1);
    }
  }

  /** Moving the cursor to the last of the next n events passes exactly these. */
  lemma PassedAt(events: seq<EventId>, n: nat)
    requires Ascending(events) && 0 < n <= |events|
    ensures Passed(events, events[n - 1]) == n
  {
    PassedIs(events, events[n - 1], n);
  }

  lemma PassedMembers(events: seq<EventId>, last: EventId, i: nat)
    requires Ascending(events) && i < |events|
    ensures events[i] <= last <==> i < Passed(events, last)
  {
    var p := Passed(events, last);
    if p < i {
      assert events[p] < events[i];
    }
  }

  lemma TickKeepsValid(f: Feed, a: Answers)
    requires Valid(f)
    ensures Valid(Tick(f, a)) && Position(f.cursor) <= Position(Tick(f, a).cursor)
  {
    TickDispatchesSlice(f, a);
    var done, p := TickDispatches(f, a), Passed(f.events, Position(f.cursor));
    if done != [] {
      assert done[|done| - 1] == f.events[p + |done| - 1];
      assert f.events[p] <= f.events[p + |done| - 1];
    }
  }

  lemma SliceEnd(events: seq<EventId>, p: nat, done: seq<EventId>)
    requires Ascending(events) && IsSlice(events, p, done) && done != []
    ensures Passed(events, done[|done| - 1]) == p + |done|
    ensures events[..p] + done == events[..p + |done|]
  {
    hide Ascending;
    assert done[|done| - 1] == events[p + |done| - 1];
    PassedAt(events, p + |done|);
  }

  lemma TickReaches(f: Feed, a: Answers, i: nat)
    requires Valid(f) && NoneSkipped(f) && i < |f.events| && f.events[i] <= Position(Tick(f, a).cursor)
    ensures f.events[i] in Tick(f, a).dispatched
  {
    TickDispatchesSlice(f, a);
    hide TickDispatches, Passed, ListUnprocessed, Ascending;
    var done, p := TickDispatches(f, a), Passed(f.events, Position(f.cursor));
    if f.events[i] > Position(f.cursor) {
      PassedMembers(f.events, Position(f.cursor), i);
      SliceEnd(f.events, p, done);
      PassedMembers(f.events, done[|done| - 1], i);
      assert done[i - p] == f.events[i];
    }
  }

  lemma TickSkipsNone(f: Feed, a: Answers)
    requires Valid(f) && NoneSkipped(f)
    ensures NoneSkipped(Tick(f, a))
  {
    hide TickDispatches, Passed, ListUnprocessed;
    var g := Tick(f, a);
    forall e | e in g.events && e <= Position(g.cursor) ensures e in g.dispatched {
      var i :| 0 <= i < |f.events| && f.events[i] == e;
      TickReaches(f, a, i);
    }
  }

  lemma StepKeeps(f: Feed, step: Step)
    requires Valid(f) && NoneSkipped(f) && Enabled(f, step)
    ensures Valid(Do(f, step)) && NoneSkipped(Do(f, step)) && Position(f.cursor) <= Position(Do(f, step).cursor)
  {
    match step
    case RunTick(a) =>
      TickKeepsValid(f, a);
      TickSkipsNone(f, a);
    case Append(id) =>
      if f.cursor.Some? {
        assert f.cursor.value in f.events;
      }
  }

  /** Over any run of ticks, appends, dispatch failures and failed cursor writes, every event at
      or below the cursor was dispatched successfully, and the cursor never moves back. */
  lemma {:induction false} NeverSkips(f: Feed, steps: seq<Step>)
    requires Valid(f) && NoneSkipped(f) && IsRun(f, steps)
    ensures Valid(After(f, steps)) && NoneSkipped(After(f, steps))
    ensures Position(f.cursor) <= Position(After(f, steps).cursor)
    decreases |steps|
  {
    if steps != [] {
      StepKeeps(f, steps[0]);
      NeverSkips(Do(f, steps[0]), steps[1..]);
    }
  }

  // ----- exactly once, as long as no cursor write fails

  ghost predicate WritesSucceed(steps: seq<Step>) {
    forall i | 0 <= i < |steps| && steps[i].RunTick? :: steps[i].answers.writeOk
  }

  ghost predicate OnceEach(f: Feed) {
    f.dispatched == f.events[..Passed(f.events, Position(f.cursor))]
  }

  lemma TickIsOnce(f: Feed, a: Answers)
    requires Valid(f) && OnceEach(f) && a.writeOk
    ensures OnceEach(Tick(f, a))
  {
    TickDispatchesSlice(f, a);
    hide TickDispatches, Passed, ListUnprocessed, Ascending, IsSlice;
    var done, p := TickDispatches(f, a), Passed(f.events, Position(f.cursor));
    if done != [] {
      SliceEnd(f.events, p, done);
    }
  }

  lemma AppendIsOnce(f: Feed, id: EventId)
    requires Valid(f) && OnceEach(f) && Enabled(f, Append(id))
    ensures OnceEach(f.(events := f.events + [id]))
  {
    var p, more := Passed(f.events, Position(f.cursor)), f.events + [id];
    assert forall k | 0 <= k < |f.events| :: more[k] == f.events[k];
    assert Position(f.cursor) < id;
    PassedIs(more, Position(f.cursor), p);
  }

  /** While cursor writes succeed, the successful dispatches are exactly the events up to the
      cursor, each once and in order, whatever dispatches fail on the way. */
  lemma {:induction false} ExactlyOnce(f: Feed, steps: seq<Step>)
    requires Valid(f) && NoneSkipped(f) && OnceEach(f) && IsRun(f, steps) && WritesSucceed(steps)
    ensures OnceEach(After(f, steps))
    decreases |steps|
  {
    if steps != [] {
      StepKeeps(f, steps[0]);
      if steps[0].RunTick? {
        TickIsOnce(f, steps[0].answers);
      } else {
        AppendIsOnce(f, steps[0].id);
      }
      ExactlyOnce(Do(f, steps[0]), steps[1..]);
    }
  }

  // ----- progress

  ghost function Backlog(f: Feed): nat {
    |f.events| - Passed(f.events, Position(f.cursor))
  }

  ghost predicate Healthy(events: seq<EventId>, a: Answers) {
    a.loadOk && a.listOk && a.writeOk && (forall e | e in events :: a.dispatchOk(e))
  }

  /** A tick without failures shortens the backlog by a whole batch, or clears it. */
  lemma HealthyTickAdvances(f: Feed, a: Answers)
    requires Valid(f) && Healthy(f.events, a)
    ensures Backlog(Tick(f, a)) == if Backlog(f) <= 200 then 0 else Backlog(f) - 200
  {
    hide Passed, ListUnprocessed, Succeeding, Ascending;
    ListIsSlice(f.events, Position(f.cursor), FANOUT_BATCH);
    var rows, p := BatchOf(f, a), Passed(f.events, Position(f.cursor));
    assert forall k | 0 <= k < |rows| :: rows[k] in f.events;
    SucceedingIs(rows, a.dispatchOk, |rows|);
    assert TickDispatches(f, a) == rows;
    if rows != [] {
      assert rows[|rows| - 1] == f.events[p + |rows| - 1];
      PassedAt(f.events, p + |rows|);
    }
  }

  /** So after enough of them every event has been dispatched. */
  lemma {:induction false} HealthyTicksDrain(f: Feed, steps: seq<Step>)
    requires Valid(f) && NoneSkipped(f)
    requires forall i | 0 <= i < |steps| :: steps[i].RunTick? && Healthy(f.events, steps[i].answers)
    requires 200 * |steps| >= Backlog(f)
    ensures forall e | e in f.events :: e in After(f, steps).dispatched
    decreases |steps|
  {
    hide Tick, Passed, Valid, Healthy;
    if steps == [] {
      assert forall i | 0 <= i < |f.events| :: f.events[i] <= Position(f.cursor);
    } else {
      HealthyTickAdvances(f, steps[0].answers);
      StepKeeps(f, steps[0]);
      TickKeepsEvents(f, steps[0].answers);
      HealthyTicksDrain(Do(f, steps[0]), steps[1..]);
    }
  }

  lemma TickKeepsEvents(f: Feed, a: Answers)
    ensures Tick(f, a).events == f.events
  {
  }
}
