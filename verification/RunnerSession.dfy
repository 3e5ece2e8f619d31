/** One claimed job of the runner: the main, drain and cancel-watcher threads share a session
    whose token rotates with every accepted call, under a mutex, against a server that accepts
    only the latest token. Each thread's calls are interleaved step by step. */
module RunnerSession {
  import opened Prelude

  type Token = int

  datatype Thread = Main | Drain | Watch
  datatype Call = Running | Terminal(cancelled: bool) | Log | StepStatus | CancelCheck

  /** Where the main thread is in RunOnce. */
  datatype MainPc =
    | Claimed | Unprepared | MarkRunning | OpenStream | Executing | AwaitWatch | AwaitDrain | Steps | Finish | Returned
  datatype DrainPc = DrainOff | Draining | DrainDone(failed: bool)
  datatype WatchPc = WatchOff | Sleeping | Polling | SawCancel | WatchDone(failed: bool)

  /** The server's answer: an error means the call was not accepted. A terminal status gets no
      next token. */
  datatype Reply = Rejected | Accepted(next: Option<Token>, cancelled: bool)

  /** The mutex is held by a thread for one call; the reply is there once the call returned. */
  datatype Hold = Hold(thread: Thread, call: Call, reply: Option<Reply>)

  /** What the server saw: the presented token, the token it would have accepted, and whether it
      answered that the job is cancelled. */
  datatype Record = Record(call: Call, token: Token, valid: Option<Token>, accepted: bool, cancelled: bool)

  datatype State = State(
    main: MainPc, drain: DrainPc, watch: WatchPc, streamed: bool,
    flag: bool,                 // cancelRequested
    sawCancel: bool,            // the watcher was answered "cancelled"
    token: Token,               // jobSession.token
    hold: Option<Hold>,         // jobSession.mu
    valid: Option<Token>,       // the server's latest token
    issued: set<Token>,
    trace: seq<Record>)

  function Init(token: Token): State {
    State(Claimed, DrainOff, WatchOff, false, false, false, token, None, Some(token), {token}, [])
  }

  datatype Action =
    | Prepare(ok: bool)
    | Lock(thread: Thread, call: Call)
    | Send(accepted: bool, next: Token, cancelled: bool)
    | Receive(contextDone: bool)
    | OpenStreams(ok: bool, streamed: bool)
    | ExecuteReturns
    | JoinWatch
    | JoinDrain
    | StepsReported
    | SleepElapsed
    | SleepInterrupted(failed: bool)
    | StoreFlag
    | DrainEnds(failed: bool)

  predicate Holding(s: State, t: Thread) {
    s.hold.Some? && s.hold.value.thread == t
  }

  /** The calls a thread may be about to make. */
  predicate Wants(s: State, t: Thread, c: Call) {
    match t
    case Main =>
      || (s.main.Unprepared? && c == Terminal(false))
      || (s.main.MarkRunning? && c == Running)
      || (s.main.Steps? && !s.streamed && c == StepStatus)
      || (s.main.Finish? && c == Terminal(s.flag))
    case Drain => s.drain.Draining? && (c == Log || (s.streamed && c == StepStatus))
    case Watch => s.watch.Polling? && c == CancelCheck
  }

  predicate Enabled(s: State, a: Action) {
    match a
    case Prepare(ok) => s.main.Claimed?
    case Lock(t, c) => s.hold.None? && Wants(s, t, c)
    case Send(accepted, next, cancelled) =>
      s.hold.Some? && s.hold.value.reply.None? && (accepted ==> s.valid == Some(s.token) && next !in s.issued)
    case Receive(contextDone) => s.hold.Some? && s.hold.value.reply.Some?
    case OpenStreams(ok, streamed) => s.main.OpenStream?
    case ExecuteReturns => s.main.Executing?
    case JoinWatch => s.main.AwaitWatch? && s.watch.WatchDone?
    case JoinDrain => s.main.AwaitDrain? && s.drain.DrainDone?
    case StepsReported => s.main.Steps? && !Holding(s, Main)
    case SleepElapsed => s.watch.Sleeping?
    case SleepInterrupted(failed) => s.watch.Sleeping?
    case StoreFlag => s.watch.SawCancel?
    case DrainEnds(failed) => s.drain.Draining? && !Holding(s, Drain)
  }

  /** The server's side of a call: an accepted one spends the token and issues the next. */
  function Serve(s: State, accepted: bool, next: Token, cancelled: bool): State
    requires s.hold.Some?
  {
    var call := s.hold.value.call;
    var trace := s.trace + [Record(call, s.token, s.valid, accepted, cancelled)];
    if !accepted then s.(hold := Some(s.hold.value.(reply := Some(Rejected))), trace := trace)
    else if call.Terminal? then
      s.(hold := Some(s.hold.value.(reply := Some(Accepted(None, cancelled)))), valid := None, trace := trace)
    else
      s.(hold := Some(s.hold.value.(reply := Some(Accepted(Some(next), cancelled)))), valid := Some(next),
         issued := s.issued + {next}, trace := trace)
  }

  /** The client's side of a returned call: take the next token, unlock, and go on. */
  function Return(s: State, contextDone: bool): State
    requires s.hold.Some? && s.hold.value.reply.Some?
  {
    var reply := s.hold.value.reply.value;
    var ok := reply.Accepted?;
    var token := if ok && reply.next.Some? then reply.next.value else s.token;
    var base := s.(token := token, hold := None);
    match s.hold.value.thread
    case Main =>
      base.(main := if s.main.MarkRunning? && ok then OpenStream else if s.main.Steps? && ok then Steps else Returned)
    case Drain => base.(drain := if ok then Draining else DrainDone(true))
    case Watch =>
      if ok && reply.cancelled then base.(watch := SawCancel, sawCancel := true)
      else base.(watch := if !ok && contextDone then WatchDone(false) else Sleeping)
  }

  function Do(s: State, a: Action): State
    requires Enabled(s, a)
  {
    match a
    case Prepare(ok) => s.(main := if ok then MarkRunning else Unprepared)
    case Lock(t, c) => s.(hold := Some(Hold(t, c, None)))
    case Send(accepted, next, cancelled) => Serve(s, accepted, next, cancelled)
    case Receive(contextDone) => Return(s, contextDone)
    case OpenStreams(ok, streamed) =>
      if ok then s.(main := Executing, drain := Draining, watch := Sleeping, streamed := streamed)
      else s.(main := Returned)
    case ExecuteReturns => s.(main := AwaitWatch)
    case JoinWatch => s.(main := if s.watch.failed then Returned else AwaitDrain)
    case JoinDrain => s.(main := if s.drain.failed then Returned else Steps)
    case StepsReported => s.(main := Finish)
    case SleepElapsed => s.(watch := Polling)
    case SleepInterrupted(failed) => s.(watch := WatchDone(failed))
    case StoreFlag => s.(flag := true, watch := WatchDone(false))
    case DrainEnds(failed) => s.(drain := DrainDone(failed))
  }

  // ----- runs

  ghost predicate IsRun(s: State, actions: seq<Action>)
    decreases |actions|
  {
    actions == [] || (Enabled(s, actions[0]) && IsRun(Do(s, actions[0]), actions[1..]))
  }

  ghost function After(s: State, actions: seq<Action>): State
    requires IsRun(s, actions)
    decreases |actions|
  {
    if actions == [] then s else After(Do(s, actions[0]), actions[1..])
  }

  // ----- what every step keeps about the token

  ghost predicate TerminalAccepted(s: State) {
    s.trace != [] && s.trace[|s.trace| - 1].call.Terminal? && s.trace[|s.trace| - 1].accepted
  }

  ghost predicate Unspent(s: State, token: Token) {
    forall i | 0 <= i < |s.trace| && s.trace[i].accepted :: s.trace[i].token != token
  }

  /** The token a thread would present next is the server's latest, unless the job is finished;
      while an accepted reply is on its way, the reply carries it. */
  ghost predicate TokensAgree(s: State) {
    if s.hold.Some? && s.hold.value.reply.Some? && s.hold.value.reply.value.Accepted? then
      if s.hold.value.call.Terminal? then s.valid.None? && s.hold.value.reply.value.next.None? && TerminalAccepted(s)
      else s.valid.Some? && s.hold.value.reply.value.next == s.valid && Unspent(s, s.valid.value)
    else if TerminalAccepted(s) then s.valid.None?
    else s.valid == Some(s.token) && Unspent(s, s.token)
  }

  ghost predicate TraceTokens(s: State) {
    && s.token in s.issued && (s.valid.Some? ==> s.valid.value in s.issued)
    && (forall i | 0 <= i < |s.trace| :: s.trace[i].token in s.issued && s.trace[i].valid == Some(s.trace[i].token))
    && (forall i, j | 0 <= i < j < |s.trace| && s.trace[i].accepted :: s.trace[i].token != s.trace[j].token)
  }

  // ----- what every step keeps about the protocol

  ghost predicate Held(s: State) {
    s.hold.Some? ==>
      (match s.hold.value.thread
       case Main =>
         || (s.main.Unprepared? && s.hold.value.call == Terminal(false))
         || (s.main.MarkRunning? && s.hold.value.call == Running)
         || (s.main.Steps? && s.hold.value.call == StepStatus)
         || (s.main.Finish? && s.hold.value.call == Terminal(s.flag))
       case Drain => s.drain.Draining? && (s.hold.value.call == Log || s.hold.value.call == StepStatus)
       case Watch => s.watch.Polling? && s.hold.value.call == CancelCheck)
  }

  /** Threads are off before the streams open, and joined before the last steps. */
  ghost predicate Phases(s: State) {
    && Held(s)
    && (s.drain.DrainOff? <==> s.watch.WatchOff?)
    && (s.main.Claimed? || s.main.Unprepared? || s.main.MarkRunning? || s.main.OpenStream? ==> s.drain.DrainOff?)
    && (s.main.Executing? || s.main.AwaitWatch? || s.main.AwaitDrain? || s.main.Steps? || s.main.Finish?
        ==> !s.drain.DrainOff?)
    && (s.main.AwaitDrain? || s.main.Steps? || s.main.Finish? ==> s.watch.WatchDone?)
    && (s.main.Steps? || s.main.Finish? ==> s.drain.DrainDone?)
    && (s.sawCancel <==> s.watch.SawCancel? || s.flag)
    && (s.watch.SawCancel? ==> !s.flag)
    && (s.flag ==> s.watch.WatchDone?)
  }

  /** Where the main thread is tells what the server has seen. */
  ghost predicate TraceShape(s: State) {
    && (s.main.Claimed? ==> s.trace == [])
    && ((s.main.Unprepared? || s.main.MarkRunning?) && !(s.hold.Some? && s.hold.value.reply.Some?) ==> s.trace == [])
    && (s.main.Unprepared? && s.hold.Some? && s.hold.value.reply.Some? ==> |s.trace| == 1 && s.trace[0].call == Terminal(false))
    && (s.main.MarkRunning? && s.hold.Some? && s.hold.value.reply.Some? ==>
          |s.trace| == 1 && s.trace[0].call == Running && s.trace[0].accepted == s.hold.value.reply.value.Accepted?)
    && (s.main.OpenStream? || !s.drain.DrainOff? ==> |s.trace| > 0 && s.trace[0].call == Running && s.trace[0].accepted)
    && (s.drain.DrainOff? ==> |s.trace| <= 1 && (|s.trace| == 1 ==> s.trace[0].call == Running || s.trace[0].call == Terminal(false)))
    && (forall i | 0 < i < |s.trace| :: s.trace[i].call != Running)
    && (forall i | 0 <= i < |s.trace| && s.trace[i].call.Terminal? :: i == |s.trace| - 1)
    && (s.trace != [] && s.trace[|s.trace| - 1].call.Terminal? ==>
          (s.main.Returned? || (s.hold.Some? && s.hold.value.call.Terminal? && s.hold.value.reply.Some?))
          && (s.drain.DrainOff? || (s.drain.DrainDone? && s.watch.WatchDone?))
          && (s.trace[0].call == Running ==> s.trace[|s.trace| - 1].call == Terminal(s.sawCancel)))
  }

  predicate SaysCancelled(r: Record) {
    r.call == CancelCheck && r.accepted && r.cancelled
  }

  ghost predicate CancelAnswered(s: State) {
    exists i :: 0 <= i < |s.trace| && SaysCancelled(s.trace[i])
  }

  predicate CancelOnItsWay(s: State) {
    && s.hold.Some? && s.hold.value.call == CancelCheck && s.hold.value.reply.Some?
    && s.hold.value.reply.value.Accepted? && s.hold.value.reply.value.cancelled
  }

  /** What the watcher saw is what the server answered, once the answer has arrived. */
  ghost predicate AnswersAgree(s: State) {
    CancelAnswered(s) <==> s.sawCancel || CancelOnItsWay(s)
  }

  ghost predicate Inv(s: State) {
    TokensAgree(s) && TraceTokens(s) && Phases(s) && TraceShape(s) && AnswersAgree(s)
  }

  /** A thread about to hear from the server has not ended the job. */
  lemma HolderIsBeforeTerminal(s: State)
    requires Phases(s) && TraceShape(s) && s.hold.Some? && s.hold.value.reply.None?
    ensures s.trace == [] || !s.trace[|s.trace| - 1].call.Terminal?
  {
  }

  lemma ServeKeepsAgreement(s: State, accepted: bool, next: Token, cancelled: bool)
    requires TokensAgree(s) && TraceTokens(s) && Enabled(s, Send(accepted, next, cancelled)) && !TerminalAccepted(s)
    ensures TokensAgree(Serve(s, accepted, next, cancelled))
  {
    var t := Serve(s, accepted, next, cancelled);
    assert forall i | 0 <= i < |s.trace| :: t.trace[i] == s.trace[i];
  }

  lemma ServeKeepsTrace(s: State, accepted: bool, next: Token, cancelled: bool)
    requires TokensAgree(s) && TraceTokens(s) && Enabled(s, Send(accepted, next, cancelled)) && !TerminalAccepted(s)
    ensures TraceTokens(Serve(s, accepted, next, cancelled))
  {
    var t := Serve(s, accepted, next, cancelled);
    assert forall i | 0 <= i < |s.trace| :: t.trace[i] == s.trace[i];
    assert s.valid == Some(s.token) && Unspent(s, s.token);
    hide TokensAgree;
  }

  lemma ServeKeepsTokens(s: State, accepted: bool, next: Token, cancelled: bool)
    requires Inv(s) && Enabled(s, Send(accepted, next, cancelled))
    ensures TokensAgree(Serve(s, accepted, next, cancelled)) && TraceTokens(Serve(s, accepted, next, cancelled))
  {
    HolderIsBeforeTerminal(s);
    hide Phases, TraceShape, TokensAgree, TraceTokens, Serve;
    ServeKeepsAgreement(s, accepted, next, cancelled);
    ServeKeepsTrace(s, accepted, next, cancelled);
  }

  lemma ServeKeepsPhases(s: State, accepted: bool, next: Token, cancelled: bool)
    requires Inv(s) && Enabled(s, Send(accepted, next, cancelled))
    ensures Phases(Serve(s, accepted, next, cancelled))
  {
    hide TokensAgree, TraceTokens, TraceShape;
  }

  lemma ServeKeepsShape(s: State, accepted: bool, next: Token, cancelled: bool)
    requires Inv(s) && Enabled(s, Send(accepted, next, cancelled))
    ensures TraceShape(Serve(s, accepted, next, cancelled))
  {
    HolderIsBeforeTerminal(s);
    hide TokensAgree, TraceTokens;
    var t := Serve(s, accepted, next, cancelled);
    assert forall i | 0 <= i < |s.trace| :: t.trace[i] == s.trace[i];
  }

  /** The tokens depend only on what the client and the server hold and have exchanged. */
  lemma SameExchangeSameTokens(s: State, t: State)
    requires TokensAgree(s) && TraceTokens(s)
    requires t.trace == s.trace && t.valid == s.valid && t.issued == s.issued && t.token == s.token
    requires t.hold == s.hold || (s.hold.None? && t.hold.Some? && t.hold.value.reply.None?)
    ensures TokensAgree(t) && TraceTokens(t)
  {
  }

  lemma TakeToken(s: State, u: State)
    requires TokensAgree(s) && TraceTokens(s) && s.hold.Some? && s.hold.value.reply.Some?
    requires !s.hold.value.call.Terminal? ==> !TerminalAccepted(s)
    requires var reply := s.hold.value.reply.value;
      u == s.(token := if reply.Accepted? && reply.next.Some? then reply.next.value else s.token, hold := None)
    ensures TokensAgree(u) && TraceTokens(u)
  {
  }

  lemma ReturnTakesToken(s: State, contextDone: bool)
    requires TokensAgree(s) && TraceTokens(s) && Enabled(s, Receive(contextDone))
    requires !s.hold.value.call.Terminal? ==> !TerminalAccepted(s)
    ensures TokensAgree(Return(s, contextDone)) && TraceTokens(Return(s, contextDone))
  {
    hide TokensAgree, TraceTokens, TerminalAccepted, Unspent;
    var reply := s.hold.value.reply.value;
    var u := s.(token := if reply.Accepted? && reply.next.Some? then reply.next.value else s.token, hold := None);
    TakeToken(s, u);
    SameExchangeSameTokens(u, Return(s, contextDone));
  }

  lemma ReturnKeepsTokens(s: State, contextDone: bool)
    requires Inv(s) && Enabled(s, Receive(contextDone))
    ensures TokensAgree(Return(s, contextDone)) && TraceTokens(Return(s, contextDone))
  {
    assert !s.hold.value.call.Terminal? ==> !TerminalAccepted(s) by {
      hide TokensAgree, TraceTokens;
    }
    hide Phases, TraceShape, TokensAgree, TraceTokens, Return, TerminalAccepted;
    ReturnTakesToken(s, contextDone);
  }

  lemma ReturnKeepsPhases(s: State, contextDone: bool)
    requires Phases(s) && TraceShape(s) && Enabled(s, Receive(contextDone))
    ensures Phases(Return(s, contextDone))
  {
  }

  lemma ReturnKeepsShape(s: State, contextDone: bool)
    requires Phases(s) && TraceShape(s) && Enabled(s, Receive(contextDone))
    ensures TraceShape(Return(s, contextDone))
  {
  }

  lemma ServeKeepsAnswers(s: State, accepted: bool, next: Token, cancelled: bool)
    requires AnswersAgree(s) && Enabled(s, Send(accepted, next, cancelled))
    ensures AnswersAgree(Serve(s, accepted, next, cancelled))
  {
    var t := Serve(s, accepted, next, cancelled);
    assert t.trace[..|s.trace|] == s.trace;
    if CancelAnswered(s) {
      var i :| 0 <= i < |s.trace| && SaysCancelled(s.trace[i]);
      assert SaysCancelled(t.trace[i]);
    }
    assert SaysCancelled(t.trace[|s.trace|]) <==> CancelOnItsWay(t);
  }

  lemma ReturnKeepsAnswers(s: State, contextDone: bool)
    requires AnswersAgree(s) && Phases(s) && Enabled(s, Receive(contextDone))
    ensures AnswersAgree(Return(s, contextDone))
  {
  }

  lemma LocalStepKeepsPhases(s: State, a: Action)
    requires Phases(s) && Enabled(s, a) && !a.Send? && !a.Receive?
    ensures Phases(Do(s, a))
  {
  }

  lemma LocalStepKeepsShape(s: State, a: Action)
    requires Phases(s) && TraceShape(s) && Enabled(s, a) && !a.Send? && !a.Receive?
    ensures TraceShape(Do(s, a))
  {
  }

  lemma LocalStepKeeps(s: State, a: Action)
    requires Inv(s) && Enabled(s, a) && !a.Send? && !a.Receive?
    ensures Inv(Do(s, a))
  {
    hide Phases, TraceShape, TokensAgree, TraceTokens;
    LocalStepKeepsPhases(s, a);
    LocalStepKeepsShape(s, a);
    SameExchangeSameTokens(s, Do(s, a));
    assert CancelAnswered(Do(s, a)) <==> CancelAnswered(s);
  }

  lemma StepKeeps(s: State, a: Action)
    requires Inv(s) && Enabled(s, a)
    ensures Inv(Do(s, a))
  {
    hide Phases, TraceShape, TokensAgree, TraceTokens, AnswersAgree, Serve, Return;
    match a
    case Send(accepted, next, cancelled) =>
      ServeKeepsTokens(s, accepted, next, cancelled);
      ServeKeepsPhases(s, accepted, next, cancelled);
      ServeKeepsShape(s, accepted, next, cancelled);
      ServeKeepsAnswers(s, accepted, next, cancelled);
    case Receive(contextDone) =>
      ReturnKeepsTokens(s, contextDone);
      ReturnKeepsPhases(s, contextDone);
      ReturnKeepsShape(s, contextDone);
      ReturnKeepsAnswers(s, contextDone);
    case _ => LocalStepKeeps(s, a);
  }

  lemma {:induction false} RunKeeps(s: State, actions: seq<Action>)
    requires Inv(s) && IsRun(s, actions)
    ensures Inv(After(s, actions))
    decreases |actions|
  {
    hide Inv, Enabled, Do;
    if actions != [] {
      StepKeeps(s, actions[0]);
      RunKeeps(Do(s, actions[0]), actions[1..]);
    }
  }

  // ----- the main theorems

  /** In every interleaving, every call presents the token the server then accepts, no accepted
      token is presented again, and with no call in flight client and server agree, or the job
      is finished. */
  lemma EveryCallPresentsTheLatestToken(token: Token, actions: seq<Action>)
    requires IsRun(Init(token), actions)
    ensures var s := After(Init(token), actions);
      && (forall i | 0 <= i < |s.trace| :: s.trace[i].valid == Some(s.trace[i].token))
      && (forall i, j | 0 <= i < j < |s.trace| && s.trace[i].accepted :: s.trace[i].token != s.trace[j].token)
      && (s.hold.None? && !TerminalAccepted(s) ==> s.valid == Some(s.token))
      && (s.hold.None? && TerminalAccepted(s) ==> s.valid.None? && s.main.Returned?)
  {
    RunKeeps(Init(token), actions);
  }

  /** In every interleaving, a terminal status is the last call, log, step and cancel-check calls
      come after an accepted running call, and a terminal status that follows a running call
      says cancelled exactly when the server answered some cancel check so. */
  lemma EveryRunFollowsTheProtocol(token: Token, actions: seq<Action>)
    requires IsRun(Init(token), actions)
    ensures var s := After(Init(token), actions);
      && (forall i | 0 <= i < |s.trace| && s.trace[i].call.Terminal? :: i == |s.trace| - 1)
      && (forall i | 0 <= i < |s.trace| && !s.trace[i].call.Terminal? ::
            s.trace[0].call == Running && (i > 0 ==> s.trace[0].accepted && s.trace[i].call != Running))
      && (forall i | 0 < i < |s.trace| && s.trace[i].call.Terminal? :: s.trace[i].call == Terminal(CancelAnswered(s)))
  {
    RunKeeps(Init(token), actions);
  }
}
