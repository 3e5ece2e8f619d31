/** The two sliding windows that dampen notification email: at most one message per recipient and
    thread in ten minutes, at most a hundred per recipient in an hour. */
module EmailDampener {
  import opened Prelude
  import opened Clock
  import opened NotifDispatch

  const STORM_PER_THREAD_CAP: nat := 1
  const STORM_PER_THREAD_MINS: int := 10
  const STORM_ABSOLUTE_CAP: nat := 100
  const STORM_ABSOLUTE_MINS: int := 60

  /** A row of the email log; a message without a thread has a null thread. */
  datatype Entry = Entry(recipient: User, thread: Option<Thread>, at: Instant)

  /** The rows a probe looks for: one recipient's, optionally of one thread only. */
  datatype Key = OfThread(recipient: User, thread: Thread) | OfRecipient(recipient: User)

  predicate Matches(e: Entry, key: Key) {
    e.recipient == key.recipient && (key.OfThread? ==> e.thread == Some(key.thread))
  }

  /** count(*) of the key's rows with sent_at > after. */
  function CountSince(log: seq<Entry>, key: Key, after: Instant): (n: nat)
    ensures n <= |log|
  {
    if log == [] then 0
    else
      var last := log[|log| - 1];
      CountSince(log[..|log| - 1], key, after) + (if Matches(last, key) && last.at > after then 1 else 0)
  }

  function Window(key: Key): int {
    if key.OfThread? then STORM_PER_THREAD_MINS * MINUTE else STORM_ABSOLUTE_MINS * MINUTE
  }

  function Cap(key: Key): nat {
    if key.OfThread? then STORM_PER_THREAD_CAP else STORM_ABSOLUTE_CAP
  }

  predicate HasRoom(log: seq<Entry>, key: Key, now: Instant) {
    CountSince(log, key, now - Window(key)) < Cap(key)
  }

  /** One call for a notification that is to be emailed: whether the preference lookup allows it, whether
      the probes, the transport and the log insert work, and the clock at each probe and at the insert. */
  datatype Attempt = Attempt(
    recipient: User, thread: Option<Thread>, prefOn: bool, probesOk: bool, sendOk: bool, logOk: bool,
    threadProbe: Instant, recipientProbe: Instant, sent: Instant)

  /** Within one call the clock does not run backwards. */
  predicate ClockIsForward(a: Attempt) {
    a.threadProbe <= a.recipientProbe <= a.sent
  }

  predicate Sends(log: seq<Entry>, a: Attempt) {
    && a.prefOn && a.probesOk && a.sendOk
    && (a.thread.Some? ==> HasRoom(log, OfThread(a.recipient, a.thread.value), a.threadProbe))
    && HasRoom(log, OfRecipient(a.recipient), a.recipientProbe)
  }

  function EntryOf(a: Attempt): Entry {
    Entry(a.recipient, a.thread, a.sent)
  }

  /** A message whose log insert fails has gone out all the same. */
  function LogAfter(log: seq<Entry>, a: Attempt): seq<Entry> {
    if Sends(log, a) && a.logOk then log + [EntryOf(a)] else log
  }

  class Mailer {
    var log: seq<Entry>
    var outbox: seq<Entry>

    constructor ()
      ensures log == [] && outbox == []
    {
      log, outbox := [], [];
    }

    /** The message goes out exactly when both windows have room, and is then logged if that works. */
    method MaybeSendEmail(a: Attempt) returns (sent: bool)
      modifies this
      ensures sent == Sends(old(log), a)
      ensures sent <==>
        && a.prefOn && a.probesOk && a.sendOk
        && (a.thread.Some? ==>
              CountSince(old(log), OfThread(a.recipient, a.thread.value), a.threadProbe - 10 * MINUTE) < 1)
        && CountSince(old(log), OfRecipient(a.recipient), a.recipientProbe - 60 * MINUTE) < 100
      ensures outbox == old(outbox) + if sent then [EntryOf(a)] else []
      ensures log == LogAfter(old(log), a)
    {
      if !a.prefOn || !a.probesOk { return false; }
      if a.thread.Some? {
        var key := OfThread(a.recipient, a.thread.value);
        if CountSince(log, key, a.threadProbe - STORM_PER_THREAD_MINS * MINUTE) >= STORM_PER_THREAD_CAP { return false; }
      }
      var key := OfRecipient(a.recipient);
      if CountSince(log, key, a.recipientProbe - STORM_ABSOLUTE_MINS * MINUTE) >= STORM_ABSOLUTE_CAP { return false; }
      if !a.sendOk { return false; }
      outbox := outbox + [EntryOf(a)];
      if a.logOk {
        log := log + [EntryOf(a)];
      }
      return true;
    }
  }

  // ----- every window of every run

  /** How many of the key's messages were sent from lo up to, but not at, hi. */
  function CountBetween(log: seq<Entry>, key: Key, lo: Instant, hi: Instant): nat {
    if log == [] then 0
    else
      var last := log[|log| - 1];
      CountBetween(log[..|log| - 1], key, lo, hi) + (if Matches(last, key) && lo <= last.at < hi then 1 else 0)
  }

  predicate WindowHolds(log: seq<Entry>, key: Key, lo: Instant) {
    CountBetween(log, key, lo, lo + Window(key)) <= Cap(key)
  }

  /** Every window of the key's length, wherever it starts, holds at most its cap. */
  ghost predicate Dampened(log: seq<Entry>) {
    forall key, lo :: WindowHolds(log, key, lo)
  }

  function After(log: seq<Entry>, attempts: seq<Attempt>): seq<Entry>
    decreases |attempts|
  {
    if attempts == [] then log else After(LogAfter(log, attempts[0]), attempts[1..])
  }

  /** A probe that starts earlier counts at least what the window counts. */
  lemma {:induction false} ProbeCoversWindow(log: seq<Entry>, key: Key, after: Instant, lo: Instant, hi: Instant)
    requires after < lo
    ensures CountBetween(log, key, lo, hi) <= CountSince(log, key, after)
  {
    if log != [] {
      ProbeCoversWindow(log[..|log| - 1], key, after, lo, hi);
    }
  }

  lemma SentHadRoom(log: seq<Entry>, a: Attempt, key: Key)
    requires ClockIsForward(a) && Sends(log, a) && Matches(EntryOf(a), key)
    ensures exists now :: now <= a.sent && HasRoom(log, key, now)
  {
    if key.OfThread? {
      assert HasRoom(log, key, a.threadProbe);
    } else {
      assert HasRoom(log, key, a.recipientProbe);
    }
  }

  lemma AttemptKeepsDampened(log: seq<Entry>, a: Attempt)
    requires Dampened(log) && ClockIsForward(a)
    ensures Dampened(LogAfter(log, a))
  {
    if Sends(log, a) && a.logOk {
      var entry := EntryOf(a);
      var more := log + [entry];
      assert more[..|log|] == log;
      forall key, lo ensures WindowHolds(more, key, lo) {
        assert WindowHolds(log, key, lo);
        if Matches(entry, key) && lo <= entry.at < lo + Window(key) {
          SentHadRoom(log, a, key);
          var now :| now <= a.sent && HasRoom(log, key, now);
          ProbeCoversWindow(log, key, now - Window(key), lo, lo + Window(key));
        }
      }
    }
  }

  lemma {:induction false} RunKeepsDampened(log: seq<Entry>, attempts: seq<Attempt>)
    requires Dampened(log) && forall i | 0 <= i < |attempts| :: ClockIsForward(attempts[i])
    ensures Dampened(After(log, attempts))
    decreases |attempts|
  {
    hide Dampened, LogAfter, ClockIsForward;
    if attempts != [] {
      AttemptKeepsDampened(log, attempts[0]);
      RunKeepsDampened(LogAfter(log, attempts[0]), attempts[1..]);
    }
  }

  // ----- the messages themselves

  /** Every message of a run, and those of them that did not get into the log. */
  function Sent(log: seq<Entry>, attempts: seq<Attempt>): seq<Entry>
    decreases |attempts|
  {
    if attempts == [] then [] else
    (if Sends(log, attempts[0]) then [EntryOf(attempts[0])] else []) + Sent(LogAfter(log, attempts[0]), attempts[1..])
  }

  function Unlogged(log: seq<Entry>, attempts: seq<Attempt>): seq<Entry>
    decreases |attempts|
  {
    if attempts == [] then [] else
    (if Sends(log, attempts[0]) && !attempts[0].logOk then [EntryOf(attempts[0])] else [])
    + Unlogged(LogAfter(log, attempts[0]), attempts[1..])
  }

  /** Every message of a run was allowed by the preference, and its probes and its transport worked. */
  lemma {:induction false} SentWasAllowed(log: seq<Entry>, attempts: seq<Attempt>, e: Entry)
    requires e in Sent(log, attempts)
    ensures exists a | a in attempts :: e == Entry(a.recipient, a.thread, a.sent) && a.prefOn && a.probesOk && a.sendOk
    decreases |attempts|
  {
    hide HasRoom, LogAfter;
    var a, rest := attempts[0], attempts[1..];
    if e in Sent(LogAfter(log, a), rest) {
      SentWasAllowed(LogAfter(log, a), rest, e);
      assert forall b | b in rest :: b in attempts;
    } else {
      assert Sends(log, a) && e == EntryOf(a) && a in attempts;
    }
  }

  lemma {:induction false} CountAdds(a: seq<Entry>, b: seq<Entry>, key: Key, lo: Instant, hi: Instant)
    ensures CountBetween(a + b, key, lo, hi) == CountBetween(a, key, lo, hi) + CountBetween(b, key, lo, hi)
  {
    if b == [] {
      assert a + b == a;
    } else {
      assert (a + b)[..|a + b| - 1] == a + b[..|b| - 1];
      CountAdds(a, b[..|b| - 1], key, lo, hi);
    }
  }

  /** What is sent is what is logged and what is not. */
  lemma {:induction false} SentIsCounted(log: seq<Entry>, attempts: seq<Attempt>, key: Key, lo: Instant, hi: Instant)
    ensures CountBetween(log, key, lo, hi) + CountBetween(Sent(log, attempts), key, lo, hi) ==
      CountBetween(After(log, attempts), key, lo, hi) + CountBetween(Unlogged(log, attempts), key, lo, hi)
    decreases |attempts|
  {
    if attempts != [] {
      var a, rest := attempts[0], attempts[1..];
      var next := LogAfter(log, a);
      SentIsCounted(next, rest, key, lo, hi);
      var sent := if Sends(log, a) then [EntryOf(a)] else [];
      var missed := if Sends(log, a) && !a.logOk then [EntryOf(a)] else [];
      CountAdds(sent, Sent(next, rest), key, lo, hi);
      CountAdds(missed, Unlogged(next, rest), key, lo, hi);
      hide Sends;
      if Sends(log, a) && a.logOk {
        CountAdds(log, sent, key, lo, hi);
      }
    }
  }

  /** Over any run, a window holds at most its cap of messages, plus those whose log insert failed
      in it. */
  lemma WindowHoldsCapAndUnlogged(attempts: seq<Attempt>, key: Key, lo: Instant)
    requires forall i | 0 <= i < |attempts| :: ClockIsForward(attempts[i])
    ensures CountBetween(Sent([], attempts), key, lo, lo + Window(key)) <=
      Cap(key) + CountBetween(Unlogged([], attempts), key, lo, lo + Window(key))
  {
    RunKeepsDampened([], attempts);
    assert WindowHolds(After([], attempts), key, lo);
    SentIsCounted([], attempts, key, lo, lo + Window(key));
  }

  /** A window holds more messages than its cap exactly when those in the log and those whose insert
      failed together do. */
  lemma WindowExceedsIff(attempts: seq<Attempt>, key: Key, lo: Instant)
    ensures CountBetween(Sent([], attempts), key, lo, lo + Window(key)) > Cap(key) <==>
      CountBetween(After([], attempts), key, lo, lo + Window(key))
        + CountBetween(Unlogged([], attempts), key, lo, lo + Window(key)) > Cap(key)
  {
    SentIsCounted([], attempts, key, lo, lo + Window(key));
  }

  lemma {:induction false} AllLogged(log: seq<Entry>, attempts: seq<Attempt>)
    requires forall i | 0 <= i < |attempts| :: attempts[i].logOk
    ensures Unlogged(log, attempts) == []
    decreases |attempts|
  {
    hide Sends;
    if attempts != [] {
      AllLogged(LogAfter(log, attempts[0]), attempts[1..]);
    }
  }

  /** So with successful inserts ten minutes hold at most one message per recipient and thread, and
      an hour at most a hundred per recipient. */
  lemma EveryWindowIsDampened(attempts: seq<Attempt>, recipient: User, thread: Thread, lo: Instant)
    requires forall i | 0 <= i < |attempts| :: ClockIsForward(attempts[i]) && attempts[i].logOk
    ensures CountBetween(Sent([], attempts), OfThread(recipient, thread), lo, lo + 10 * MINUTE) <= 1
    ensures CountBetween(Sent([], attempts), OfRecipient(recipient), lo, lo + 60 * MINUTE) <= 100
  {
    AllLogged([], attempts);
    WindowHoldsCapAndUnlogged(attempts, OfThread(recipient, thread), lo);
    WindowHoldsCapAndUnlogged(attempts, OfRecipient(recipient), lo);
  }

  function At(recipient: User, thread: Thread, at: Instant, logOk: bool): Attempt {
    Attempt(recipient, Some(thread), true, true, true, logOk, at, at, at)
  }

  /** A lost insert is enough for a second message at the same instant. */
  lemma LostInsertCanRepeat(recipient: User, thread: Thread, at: Instant)
    ensures |Sent([], [At(recipient, thread, at, false), At(recipient, thread, at, true)])| == 2
  {
    var first, second := At(recipient, thread, at, false), At(recipient, thread, at, true);
    assert Sends([], first) && LogAfter([], first) == [] && Sends([], second);
    assert [first, second][1..] == [second];
    assert Sent([], [second]) == [EntryOf(second)] + Sent(LogAfter([], second), []);
  }

  /** The windows are half-open: a message exactly ten minutes after the last one goes out. */
  lemma WindowIsHalfOpen(recipient: User, thread: Thread, at: Instant)
    ensures |Sent([], [At(recipient, thread, at, true), At(recipient, thread, at + 10 * MINUTE, true)])| == 2
  {
    var later := at + 10 * MINUTE;
    var first, second := At(recipient, thread, at, true), At(recipient, thread, later, true);
    var log := LogAfter([], first);
    assert log == [EntryOf(first)] && log[..0] == [];
    assert CountSince(log, OfThread(recipient, thread), later - 10 * MINUTE) == 0;
    assert CountSince(log, OfRecipient(recipient), later - 60 * MINUTE) <= 1;
    assert Sends(log, second);
    assert [first, second][1..] == [second];
    assert Sent(log, [second]) == [EntryOf(second)] + Sent(LogAfter(log, second), []);
  }
}
