/** How preparation, streams and joins decide what a job session tells the server, over whole runs. */
module RunnerOutcome {
  import opened Prelude
  import opened RunnerSession

  // ----- preparation

  /** The workspace failed: at most one call, a terminal one, is or will be made. */
  ghost predicate GaveUp(s: State) {
    && (s.main.Unprepared? || s.main.Returned?) && s.drain.DrainOff? && s.watch.WatchOff?
    && (s.hold.Some? ==> s.hold.value.thread == Main && s.hold.value.call == Terminal(false))
    && (forall i | 0 <= i < |s.trace| :: s.trace[i].call == Terminal(false))
  }

  lemma GaveUpStays(s: State, a: Action)
    requires Inv(s) && GaveUp(s) && Enabled(s, a)
    ensures GaveUp(Do(s, a)) && !a.OpenStreams? && !a.ExecuteReturns?
  {
    hide TokensAgree, TraceTokens, AnswersAgree;
  }

  lemma {:induction false} GaveUpRun(s: State, actions: seq<Action>)
    requires Inv(s) && GaveUp(s) && IsRun(s, actions)
    ensures GaveUp(After(s, actions)) && forall a | a in actions :: !a.OpenStreams? && !a.ExecuteReturns?
    decreases |actions|
  {
    hide Inv, GaveUp, Enabled, Do;
    if actions != [] {
      StepKeeps(s, actions[0]);
      GaveUpStays(s, actions[0]);
      GaveUpRun(Do(s, actions[0]), actions[1..]);
      assert forall a | a in actions :: a == actions[0] || a in actions[1..];
    }
  }

  lemma PrepareFails(s: State)
    requires Inv(s) && Enabled(s, Prepare(false))
    ensures GaveUp(Do(s, Prepare(false)))
  {
  }

  /** Once the main thread is past Claimed it stays there, and is never Unprepared again. */
  ghost predicate Marked(s: State) {
    !s.main.Claimed? && !s.main.Unprepared? && (s.trace != [] ==> s.trace[0].call == Running)
  }

  lemma MarkedStays(s: State, a: Action)
    requires Inv(s) && Marked(s) && Enabled(s, a)
    ensures Marked(Do(s, a))
  {
    hide TokensAgree, TraceTokens, AnswersAgree;
  }

  lemma {:induction false} MarkedRun(s: State, actions: seq<Action>)
    requires Inv(s) && Marked(s) && IsRun(s, actions)
    ensures Marked(After(s, actions))
    decreases |actions|
  {
    hide Inv, Marked, Enabled, Do;
    if actions != [] {
      StepKeeps(s, actions[0]);
      MarkedStays(s, actions[0]);
      MarkedRun(Do(s, actions[0]), actions[1..]);
    }
  }

  lemma PrepareSucceeds(s: State)
    requires Inv(s) && Enabled(s, Prepare(true))
    ensures Marked(Do(s, Prepare(true)))
  {
  }

  lemma {:induction false} NoSecondPrepare(s: State, actions: seq<Action>)
    requires !s.main.Claimed? && IsRun(s, actions)
    ensures forall a | a in actions :: !a.Prepare?
    decreases |actions|
  {
    if actions != [] {
      assert !Do(s, actions[0]).main.Claimed?;
      hide Enabled, Do;
      NoSecondPrepare(Do(s, actions[0]), actions[1..]);
      assert forall a | a in actions :: a == actions[0] || a in actions[1..];
    }
  }

  lemma PreparedFirst(token: Token, actions: seq<Action>)
    requires IsRun(Init(token), actions) && actions != []
    ensures actions[0].Prepare? && !Do(Init(token), actions[0]).main.Claimed?
  {
  }

  /** A run prepares first and once. If that fails, the server sees at most a failure status and nothing is
      opened or executed; if not, the first call is the running status. */
  lemma PreparationDecides(token: Token, actions: seq<Action>)
    requires IsRun(Init(token), actions) && actions != []
    ensures actions[0].Prepare? && forall a | a in actions[1..] :: !a.Prepare?
    ensures var trace := After(Init(token), actions).trace;
      if actions[0].ok then trace != [] ==> trace[0].call == Running
      else
        && |trace| <= 1 && (forall i | 0 <= i < |trace| :: trace[i].call == Terminal(false))
        && (forall a | a in actions :: !a.OpenStreams? && !a.ExecuteReturns?)
  {
    var s := Init(token);
    assert Inv(s);
    PreparedFirst(token, actions);
    var t, rest := Do(s, actions[0]), actions[1..];
    StepKeeps(s, actions[0]);
    NoSecondPrepare(t, rest);
    assert After(s, actions) == After(t, rest);
    if actions[0].ok {
      PrepareSucceeds(s);
      MarkedRun(t, rest);
    } else {
      PrepareFails(s);
      GaveUpRun(t, rest);
      RunKeeps(t, rest);
      assert forall a | a in actions :: a == actions[0] || a in rest;
    }
  }

  // ----- failures

  /** Opening the streams, the watcher or the drain fails. */
  predicate Fails(a: Action) {
    (a.OpenStreams? && !a.ok) || (a.SleepInterrupted? && a.failed) || (a.DrainEnds? && a.failed)
  }

  /** A call that the job cannot go on without. */
  predicate Essential(c: Call) {
    c == Running || c == Log || c == StepStatus
  }

  ghost predicate Refused(s: State) {
    exists i | 0 <= i < |s.trace| :: Essential(s.trace[i].call) && !s.trace[i].accepted
  }

  ghost predicate TerminalSent(s: State) {
    exists i | 0 <= i < |s.trace| :: s.trace[i].call.Terminal?
  }

  predicate RefusalOnItsWay(s: State) {
    s.hold.Some? && s.hold.value.reply == Some(Rejected) && Essential(s.hold.value.call)
  }

  ghost predicate Failing(s: State) {
    || s.watch == WatchDone(true) || s.drain == DrainDone(true) || RefusalOnItsWay(s)
    || (s.main.Returned? && !TerminalSent(s))
  }

  /** What has failed so far shows in the state, and nothing has when a terminal status is due. */
  ghost predicate FailuresShow(s: State, failed: bool) {
    && (failed || Refused(s) <==> Failing(s))
    && (TerminalSent(s) || s.main.Finish? || s.main.Steps? ==> s.watch != WatchDone(true) && s.drain != DrainDone(true))
    && (s.main.AwaitDrain? ==> s.watch == WatchDone(false))
    && (TerminalSent(s) || s.main.Finish? ==> !RefusalOnItsWay(s))
    && (s.hold.Some? && s.hold.value.call.Terminal? && s.hold.value.reply.Some? ==> TerminalSent(s))
  }

  lemma LocalStepShows(s: State, a: Action, failed: bool)
    requires Inv(s) && FailuresShow(s, failed) && Enabled(s, a) && !a.Send? && !a.Receive?
    ensures FailuresShow(Do(s, a), failed || Fails(a))
  {
    SameTraceSame(s, Do(s, a));
    SentIsOver(s);
    hide TokensAgree, TraceTokens, AnswersAgree, TraceShape, Refused;
  }

  lemma MainReceives(s: State, contextDone: bool, failed: bool)
    requires Inv(s) && FailuresShow(s, failed) && Enabled(s, Receive(contextDone)) && s.hold.value.thread == Main
    ensures FailuresShow(Return(s, contextDone), failed)
  {
    SameTraceSame(s, Return(s, contextDone));
    SentIsOver(s);
    hide TokensAgree, TraceTokens, AnswersAgree, TraceShape, Refused;
  }

  lemma DrainReceives(s: State, contextDone: bool, failed: bool)
    requires Inv(s) && FailuresShow(s, failed) && Enabled(s, Receive(contextDone)) && s.hold.value.thread == Drain
    ensures FailuresShow(Return(s, contextDone), failed)
  {
    SameTraceSame(s, Return(s, contextDone));
    SentIsOver(s);
    hide TokensAgree, TraceTokens, AnswersAgree, TraceShape, Refused;
  }

  lemma WatchReceives(s: State, contextDone: bool, failed: bool)
    requires Inv(s) && FailuresShow(s, failed) && Enabled(s, Receive(contextDone)) && s.hold.value.thread == Watch
    ensures FailuresShow(Return(s, contextDone), failed)
  {
    SameTraceSame(s, Return(s, contextDone));
    SentIsOver(s);
    hide TokensAgree, TraceTokens, AnswersAgree, TraceShape, Refused;
  }

  lemma ReceiveShows(s: State, contextDone: bool, failed: bool)
    requires Inv(s) && FailuresShow(s, failed) && Enabled(s, Receive(contextDone))
    ensures FailuresShow(Return(s, contextDone), failed)
  {
    hide Inv, FailuresShow, Return;
    match s.hold.value.thread
    case Main => MainReceives(s, contextDone, failed);
    case Drain => DrainReceives(s, contextDone, failed);
    case Watch => WatchReceives(s, contextDone, failed);
  }

  predicate TerminalHeld(s: State) {
    s.hold.Some? && s.hold.value.call.Terminal?
  }

  lemma SentIsOver(s: State)
    requires TraceShape(s)
    ensures TerminalSent(s) ==> s.main.Returned? || TerminalHeld(s)
  {
  }

  lemma SameTraceSame(s: State, t: State)
    requires t.trace == s.trace
    ensures (Refused(t) <==> Refused(s)) && (TerminalSent(t) <==> TerminalSent(s))
  {
  }

  lemma SentIsTraced(s: State, accepted: bool, next: Token, cancelled: bool)
    requires Enabled(s, Send(accepted, next, cancelled))
    ensures var t, call := Serve(s, accepted, next, cancelled), s.hold.value.call;
      && (Refused(t) <==> Refused(s) || (Essential(call) && !accepted))
      && (TerminalSent(t) <==> TerminalSent(s) || call.Terminal?)
      && (RefusalOnItsWay(t) <==> Essential(call) && !accepted)
  {
    var t, n := Serve(s, accepted, next, cancelled), |s.trace|;
    assert forall i | 0 <= i < n :: t.trace[i] == s.trace[i];
    assert t.trace[n].call == s.hold.value.call && t.trace[n].accepted == accepted;
  }

  lemma SendShows(s: State, accepted: bool, next: Token, cancelled: bool, failed: bool)
    requires Inv(s) && FailuresShow(s, failed) && Enabled(s, Send(accepted, next, cancelled))
    ensures FailuresShow(Serve(s, accepted, next, cancelled), failed)
  {
    SentIsTraced(s, accepted, next, cancelled);
    HolderIsBeforeTerminal(s);
    hide TokensAgree, TraceTokens, AnswersAgree, TraceShape, Refused, RefusalOnItsWay;
  }

  lemma StepShows(s: State, a: Action, failed: bool)
    requires Inv(s) && FailuresShow(s, failed) && Enabled(s, a)
    ensures FailuresShow(Do(s, a), failed || Fails(a))
  {
    hide Inv, FailuresShow, Serve, Return;
    match a
    case Send(accepted, next, cancelled) => SendShows(s, accepted, next, cancelled, failed);
    case Receive(contextDone) => ReceiveShows(s, contextDone, failed);
    case _ => LocalStepShows(s, a, failed);
  }

  lemma {:induction false} RunShows(s: State, actions: seq<Action>, failed: bool)
    requires Inv(s) && FailuresShow(s, failed) && IsRun(s, actions)
    ensures FailuresShow(After(s, actions), failed || exists a | a in actions :: Fails(a))
    decreases |actions|
  {
    hide Inv, FailuresShow, Enabled, Do, Fails;
    if actions != [] {
      StepKeeps(s, actions[0]);
      StepShows(s, actions[0], failed);
      RunShows(Do(s, actions[0]), actions[1..], failed || Fails(actions[0]));
      assert forall a | a in actions :: a == actions[0] || a in actions[1..];
      assert forall a | a in actions[1..] :: a in actions;
    }
  }

  /** What keeps the job from ending with a status: a stream that does not open, a watcher or a drain that
      fails, or a refused running, log or step call. */
  ghost predicate Broken(actions: seq<Action>, trace: seq<Record>) {
    || (exists a | a in actions ::
          (a.OpenStreams? && !a.ok) || (a.SleepInterrupted? && a.failed) || (a.DrainEnds? && a.failed))
    || (exists i | 0 <= i < |trace| ::
          (trace[i].call == Running || trace[i].call == Log || trace[i].call == StepStatus) && !trace[i].accepted)
  }

  /** In every interleaving no terminal status is sent once the job is broken, and a main thread that has
      returned has sent one exactly when it is not. */
  lemma TerminalUnlessBroken(token: Token, actions: seq<Action>)
    requires IsRun(Init(token), actions)
    ensures var s := After(Init(token), actions);
      && (Broken(actions, s.trace) ==> forall i | 0 <= i < |s.trace| :: !s.trace[i].call.Terminal?)
      && (s.main.Returned? && !Broken(actions, s.trace) ==> exists i | 0 <= i < |s.trace| :: s.trace[i].call.Terminal?)
  {
    assert Inv(Init(token)) && FailuresShow(Init(token), false);
    RunShows(Init(token), actions, false);
    var s := After(Init(token), actions);
    hide Inv, IsRun, After;
    assert (exists a | a in actions :: Fails(a)) || Refused(s) <==> Broken(actions, s.trace);
  }

  // ----- after the joins

  /** Both threads are joined: every call from here on is the main thread's. */
  ghost predicate Joined(s: State, n: nat) {
    && n <= |s.trace| && (s.main.Steps? || s.main.Finish? || s.main.Returned?) && s.watch.WatchDone? && s.drain.DrainDone?
    && (s.hold.Some? ==> s.hold.value.thread == Main && (s.streamed ==> s.hold.value.call.Terminal?))
    && (forall i | n <= i < |s.trace| :: s.trace[i].call.Terminal? || (s.trace[i].call == StepStatus && !s.streamed))
  }

  lemma JoinedStays(s: State, a: Action, n: nat)
    requires Inv(s) && Joined(s, n) && Enabled(s, a)
    ensures Joined(Do(s, a), n)
  {
    hide TokensAgree, TraceTokens, AnswersAgree;
  }

  lemma {:induction false} JoinedRun(s: State, actions: seq<Action>, n: nat)
    requires Inv(s) && Joined(s, n) && IsRun(s, actions)
    ensures Joined(After(s, actions), n) && After(s, actions).streamed == s.streamed
    decreases |actions|
  {
    hide Inv, Enabled;
    if actions != [] {
      StepKeeps(s, actions[0]);
      JoinedStays(s, actions[0], n);
      assert Do(s, actions[0]).streamed == s.streamed by { StreamedStays(s, actions[0], n); }
      hide Do, Joined;
      JoinedRun(Do(s, actions[0]), actions[1..], n);
    }
  }

  lemma StreamedStays(s: State, a: Action, n: nat)
    requires Joined(s, n) && Enabled(s, a)
    ensures Do(s, a).streamed == s.streamed
  {
  }

  /** From a join of the drain on, every call is a step status, and none of these when the steps were
      streamed, or the terminal status. */
  lemma StepsThenTerminal(token: Token, before: seq<Action>, rest: seq<Action>)
    requires IsRun(Init(token), before) && Enabled(After(Init(token), before), JoinDrain)
    requires IsRun(Do(After(Init(token), before), JoinDrain), rest)
    ensures var s := After(Init(token), before);
      var t := After(Do(s, JoinDrain), rest);
      && |s.trace| <= |t.trace|
      && (forall i | |s.trace| <= i < |t.trace| :: t.trace[i].call.Terminal? || (t.trace[i].call == StepStatus && !s.streamed))
      && (s.drain == DrainDone(true) ==> |t.trace| == |s.trace|)
  {
    RunKeeps(Init(token), before);
    var s := After(Init(token), before);
    var u := Do(s, JoinDrain);
    StepKeeps(s, JoinDrain);
    assert Joined(u, |s.trace|) && u.streamed == s.streamed;
    JoinedRun(u, rest, |s.trace|);
    if s.drain == DrainDone(true) {
      SilentRun(u, rest);
    }
  }

  lemma {:induction false} SilentRun(s: State, actions: seq<Action>)
    requires s.main.Returned? && s.watch.WatchDone? && s.drain.DrainDone? && s.hold.None? && IsRun(s, actions)
    ensures actions == []
  {
  }

  // ----- whose the steps are

  /** The engine's streams open once, and whether they carry the steps is settled then. */
  ghost predicate StreamedAs(s: State, actions: seq<Action>) {
    && (s.streamed <==> OpenStreams(true, true) in actions)
    && (s.drain.DrainOff? ==> !s.streamed)
  }

  lemma StepStreams(s: State, past: seq<Action>, a: Action)
    requires Phases(s) && StreamedAs(s, past) && Enabled(s, a)
    ensures StreamedAs(Do(s, a), past + [a])
  {
    assert forall x :: x in past + [a] <==> x in past || x == a;
  }

  lemma {:induction false} RunStreams(s: State, past: seq<Action>, actions: seq<Action>)
    requires Inv(s) && StreamedAs(s, past) && IsRun(s, actions)
    ensures StreamedAs(After(s, actions), past + actions)
    decreases |actions|
  {
    hide StreamedAs, Enabled, Do, Phases, TokensAgree, TraceTokens, TraceShape, AnswersAgree;
    if actions == [] {
      assert past + actions == past;
    } else {
      StepKeeps(s, actions[0]);
      StepStreams(s, past, actions[0]);
      RunStreams(Do(s, actions[0]), past + [actions[0]], actions[1..]);
      assert past + [actions[0]] + actions[1..] == past + actions;
    }
  }

  /** Once both threads are joined without failure the main thread can report steps exactly when the
      streams it opened do not carry them; otherwise it can only go on to the terminal status. */
  lemma StepsAreReportedIff(token: Token, before: seq<Action>)
    requires IsRun(Init(token), before) && Enabled(After(Init(token), before), JoinDrain)
    requires After(Init(token), before).drain == DrainDone(false)
    ensures var t := Do(After(Init(token), before), JoinDrain);
      && (Enabled(t, Lock(Main, StepStatus)) <==> OpenStreams(true, true) !in before)
      && (forall call | Enabled(t, Lock(Main, call)) :: call == StepStatus)
      && Enabled(t, StepsReported)
      && (forall call | Enabled(Do(t, StepsReported), Lock(Main, call)) :: call == Terminal(t.sawCancel))
  {
    assert Inv(Init(token)) && StreamedAs(Init(token), []);
    RunStreams(Init(token), [], before);
    assert [] + before == before;
    RunKeeps(Init(token), before);
    JoinedWants(After(Init(token), before));
    hide IsRun, After, Inv, Enabled, Do;
  }

  lemma JoinedWants(s: State)
    requires Inv(s) && Enabled(s, JoinDrain) && s.drain == DrainDone(false)
    ensures var t := Do(s, JoinDrain);
      && (Enabled(t, Lock(Main, StepStatus)) <==> !s.streamed)
      && (forall call | Enabled(t, Lock(Main, call)) :: call == StepStatus)
      && Enabled(t, StepsReported)
      && (forall call | Enabled(Do(t, StepsReported), Lock(Main, call)) :: call == Terminal(t.sawCancel))
  {
    hide TraceTokens, TokensAgree, TraceShape, AnswersAgree;
  }
}
