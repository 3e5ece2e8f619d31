/** Concurrent Create and Update transactions of check runs, step by step. A Create holds its suite's
    row lock from its first statement on; an Update takes it only to store the rollup it has already
    derived. A listing sees the committed rows and the transaction's own write. */
module CheckOverlap {
  import opened Prelude
  import opened SearchText
  import opened CheckRollup
  import opened CheckStore

  type TxId = int

  datatype Pc = Begun | SuiteLocked | Written | Listed | Stored | Ended

  /** One transaction: the run it writes, and at its listing the committed rows, how many commits the
      suite had seen, and the rollup derived from rows and write. */
  datatype Tx = Tx(creates: bool, pc: Pc, id: int, run: Run, seen: map<int, Run>, at: nat, derived: Outcome)

  datatype Write = Write(id: int, run: Run)

  datatype State = State(
    t: Tables,                           // committed rows
    txs: map<TxId, Tx>,
    suiteLocks: map<SuiteKey, TxId>,
    runLocks: map<int, TxId>,
    log: map<SuiteKey, seq<Write>>)      // what each suite's commits wrote, in order

  const START := State(EMPTY, map[], map[], map[], map[])

  datatype Action =
    | BeginCreate(tx: TxId, create: CreateParams)
    | BeginUpdate(tx: TxId, update: UpdateParams)
    | LockSuite(tx: TxId)
    | WriteRow(tx: TxId)
    | ListRuns(tx: TxId)
    | StoreRollup(tx: TxId)
    | Commit(tx: TxId)
    | Rollback(tx: TxId)

  predicate At(s: State, tx: TxId, pc: Pc) {
    tx in s.txs && s.txs[tx].pc == pc
  }

  function LogOf(s: State, k: SuiteKey): seq<Write> {
    if k in s.log then s.log[k] else []
  }

  predicate LockFree<K>(locks: map<K, TxId>, k: K, tx: TxId) {
    k in locks ==> locks[k] == tx
  }

  predicate Enabled(s: State, a: Action) {
    match a
    case BeginCreate(tx, p) => tx !in s.txs && ValidateCreate(p).Ok? && !HasExternal(s.t, ValidateCreate(p).value)
    case BeginUpdate(tx, p) => tx !in s.txs && p.run in s.t.runs && ResolveUpdate(s.t.runs[p.run], p).Ok?
    case LockSuite(tx) => At(s, tx, Begun) && s.txs[tx].creates && s.txs[tx].run.suite !in s.suiteLocks
    case WriteRow(tx) =>
      if tx in s.txs && s.txs[tx].creates then At(s, tx, SuiteLocked)
      else At(s, tx, Begun) && s.txs[tx].id !in s.runLocks
    case ListRuns(tx) => At(s, tx, Written)
    case StoreRollup(tx) => At(s, tx, Listed) && LockFree(s.suiteLocks, s.txs[tx].run.suite, tx)
    case Commit(tx) => At(s, tx, Stored)
    case Rollback(tx) => tx in s.txs && !At(s, tx, Ended)
  }

  function Set(s: State, i: TxId, tx: Tx): State {
    s.(txs := s.txs[i := tx])
  }

  function Without<K>(locks: map<K, TxId>, tx: TxId): map<K, TxId> {
    map k | k in locks && locks[k] != tx :: locks[k]
  }

  function End(s: State, i: TxId): State
    requires i in s.txs
  {
    Set(s, i, s.txs[i].(pc := Ended)).(suiteLocks := Without(s.suiteLocks, i), runLocks := Without(s.runLocks, i))
  }

  /** The rollup of the suite as this transaction sees it. */
  function Seen(runs: map<int, Run>, tx: Tx): Outcome {
    RollupOf(RunsIn(runs[tx.id := tx.run], tx.run.suite))
  }

  function Next(s: State, a: Action): State
    requires Enabled(s, a)
  {
    match a
    case BeginCreate(tx, p) => Set(s, tx, Tx(true, Begun, 0, ValidateCreate(p).value, map[], 0, Outcome(Queued, None)))
    case BeginUpdate(tx, p) =>
      Set(s, tx, Tx(false, Begun, p.run, ResolveUpdate(s.t.runs[p.run], p).value, map[], 0, Outcome(Queued, None)))
    case LockSuite(i) =>
      Set(s, i, s.txs[i].(pc := SuiteLocked)).(suiteLocks := s.suiteLocks[s.txs[i].run.suite := i])
    case WriteRow(i) =>
      var tx := s.txs[i];
      if tx.creates then
        Set(s, i, tx.(pc := Written, id := s.t.nextRun)).(t := s.t.(nextRun := s.t.nextRun + 1))
      else Set(s, i, tx.(pc := Written)).(runLocks := s.runLocks[tx.id := i])
    case ListRuns(i) =>
      var tx := s.txs[i];
      Set(s, i, tx.(pc := Listed, seen := s.t.runs, at := |LogOf(s, tx.run.suite)|, derived := Seen(s.t.runs, tx)))
    case StoreRollup(i) =>
      Set(s, i, s.txs[i].(pc := Stored)).(suiteLocks := s.suiteLocks[s.txs[i].run.suite := i])
    case Commit(i) =>
      var tx := s.txs[i];
      var k := tx.run.suite;
      End(s, i).(t := s.t.(runs := s.t.runs[tx.id := tx.run], suites := s.t.suites[k := tx.derived]),
                 log := s.log[k := LogOf(s, k) + [Write(tx.id, tx.run)]])
    case Rollback(i) => End(s, i)
  }

  /** No commit of its suite came between the transaction's listing and now. */
  predicate Fresh(s: State, i: TxId)
    requires i in s.txs
  {
    s.txs[i].at == |LogOf(s, s.txs[i].run.suite)|
  }

  ghost predicate IsRun(s: State, actions: seq<Action>)
    decreases |actions|
  {
    actions == [] || (Enabled(s, actions[0]) && IsRun(Next(s, actions[0]), actions[1..]))
  }

  ghost function After(s: State, actions: seq<Action>): State
    requires IsRun(s, actions)
    decreases |actions|
  {
    if actions == [] then s else After(Next(s, actions[0]), actions[1..])
  }

  /** No transaction lists before another's commit and stores after it. */
  ghost predicate Orderly(s: State, actions: seq<Action>)
    requires IsRun(s, actions)
    decreases |actions|
  {
    actions == [] || (
      && (actions[0].StoreRollup? ==> Fresh(s, actions[0].tx))
      && Orderly(Next(s, actions[0]), actions[1..]))
  }

  // ----- what every step keeps

  predicate HoldsSuite(tx: Tx) {
    tx.pc == Stored || (tx.creates && (tx.pc == SuiteLocked || tx.pc == Written || tx.pc == Listed))
  }

  predicate HasWritten(tx: Tx) {
    tx.pc == Written || tx.pc == Listed || tx.pc == Stored
  }

  ghost predicate SuitesHeld(s: State) {
    forall i | i in s.txs && HoldsSuite(s.txs[i]) ::
      s.txs[i].run.suite in s.suiteLocks && s.suiteLocks[s.txs[i].run.suite] == i
  }

  /** An Update that has written its run locks it. */
  ghost predicate RunsHeld(s: State) {
    forall i | i in s.txs && !s.txs[i].creates && HasWritten(s.txs[i]) ::
      s.txs[i].id in s.runLocks && s.runLocks[s.txs[i].id] == i
  }

  /** The columns no Update changes. */
  predicate SameCheck(a: Run, b: Run) {
    a.suite == b.suite && a.name == b.name && a.externalId == b.externalId
  }

  /** An Update's run exists and is the same check; a Create's run does not exist yet. */
  predicate IdFits(t: Tables, tx: Tx) {
    if tx.creates then HasWritten(tx) ==> tx.id !in t.runs && tx.id < t.nextRun
    else tx.pc != Ended ==> tx.id in t.runs && SameCheck(t.runs[tx.id], tx.run)
  }

  predicate RunConcluded(run: Run) {
    run.status == Completed ==> run.conclusion.Some?
  }

  ghost predicate Fits(s: State) {
    && IdsBelowNext(s.t) && CompletedAreConcluded(s.t)
    && (forall i | i in s.txs :: IdFits(s.t, s.txs[i]) && RunConcluded(s.txs[i].run))
  }

  /** Two Creates never got the same id. */
  ghost predicate IdsDiffer(s: State) {
    forall i, j | i in s.txs && j in s.txs && i != j && s.txs[i].creates && s.txs[j].creates
      && HasWritten(s.txs[i]) && HasWritten(s.txs[j]) :: s.txs[i].id != s.txs[j].id
  }

  /** The same rows of the suite in both. */
  ghost predicate SameSuite(a: map<int, Run>, b: map<int, Run>, k: SuiteKey) {
    && (forall id | id in a && a[id].suite == k :: id in b && b[id] == a[id])
    && (forall id | id in b && b[id].suite == k :: id in a && a[id] == b[id])
  }

  predicate HasListed(tx: Tx) {
    tx.pc == Listed || tx.pc == Stored
  }

  /** The rows after some writes. */
  function Applied(runs: map<int, Run>, writes: seq<Write>): map<int, Run>
    decreases |writes|
  {
    if writes == [] then runs
    else
      var last := writes[|writes| - 1];
      Applied(runs, writes[..|writes| - 1])[last.id := last.run]
  }

  /** Rows are only added, and stay in their suite. */
  ghost predicate Grown(a: map<int, Run>, b: map<int, Run>) {
    forall id | id in a :: id in b && b[id].suite == a[id].suite
  }

  /** A listing of concluded rows, and the writes to its suite that came after it: all to other runs,
      and together with the listing they give the suite as it is. */
  ghost predicate Missed(runs: map<int, Run>, tx: Tx, writes: seq<Write>) {
    && (forall id | id in tx.seen :: RunConcluded(tx.seen[id]))
    && Grown(tx.seen, runs) && SameSuite(Applied(tx.seen, writes), runs, tx.run.suite)
    && (forall w | w in writes :: w.run.suite == tx.run.suite && w.id != tx.id && RunConcluded(w.run))
  }

  ghost predicate ListingHolds(s: State, i: TxId)
    requires i in s.txs
  {
    var tx := s.txs[i];
    var log := LogOf(s, tx.run.suite);
    HasListed(tx) ==> tx.derived == Seen(tx.seen, tx) && tx.at <= |log| && Missed(s.t.runs, tx, log[tx.at..])
  }

  ghost predicate ListingsHold(s: State) {
    forall i | i in s.txs :: ListingHolds(s, i)
  }

  /** A Create that has listed is fresh: nobody else could commit to its suite. */
  ghost predicate CreatesFresh(s: State) {
    forall i | i in s.txs && s.txs[i].creates && HasListed(s.txs[i]) :: Fresh(s, i)
  }

  ghost predicate Inv(s: State) {
    SuitesHeld(s) && RunsHeld(s) && Fits(s) && IdsDiffer(s) && ListingsHold(s) && CreatesFresh(s)
  }

  /** Steps that change one transaction and no committed run, and free or take only its own locks. */
  ghost predicate OwnStep(s: State, r: State, i: TxId) {
    && i in r.txs && r.txs.Keys == s.txs.Keys + {i} && (forall j | j in s.txs && j != i :: r.txs[j] == s.txs[j])
    && r.t.runs == s.t.runs && r.t.nextRun >= s.t.nextRun && r.log == s.log
    && (forall k | k in s.suiteLocks && s.suiteLocks[k] != i :: k in r.suiteLocks && r.suiteLocks[k] == s.suiteLocks[k])
    && (forall k | k in s.runLocks && s.runLocks[k] != i :: k in r.runLocks && r.runLocks[k] == s.runLocks[k])
  }

  /** What the changed transaction itself must meet afterwards. */
  ghost predicate OwnFits(r: State, i: TxId)
    requires i in r.txs
  {
    var tx := r.txs[i];
    && IdFits(r.t, tx) && RunConcluded(tx.run) && ListingHolds(r, i)
    && (HoldsSuite(tx) ==> tx.run.suite in r.suiteLocks && r.suiteLocks[tx.run.suite] == i)
    && (!tx.creates && HasWritten(tx) ==> tx.id in r.runLocks && r.runLocks[tx.id] == i)
    && (tx.creates && HasListed(tx) ==> Fresh(r, i))
    && (forall j | j in r.txs && j != i && r.txs[j].creates && HasWritten(r.txs[j]) && tx.creates && HasWritten(tx) ::
          r.txs[j].id != tx.id)
  }

  lemma OwnStepKeepsLocks(s: State, r: State, i: TxId)
    requires Inv(s) && OwnStep(s, r, i) && OwnFits(r, i)
    ensures SuitesHeld(r) && RunsHeld(r) && IdsDiffer(r) && CreatesFresh(r)
  {
    hide ListingHolds, Fits, IdFits, RunConcluded;
  }

  lemma OwnStepKeeps(s: State, r: State, i: TxId)
    requires Inv(s) && OwnStep(s, r, i) && OwnFits(r, i)
    ensures Inv(r)
  {
    OwnStepKeepsLocks(s, r, i);
    hide Missed, Seen, SuitesHeld, RunsHeld, IdsDiffer, CreatesFresh;
    forall j | j in r.txs ensures ListingHolds(r, j) && IdFits(r.t, r.txs[j]) && RunConcluded(r.txs[j].run) {
      assert j != i ==> ListingHolds(s, j);
    }
    assert IdsBelowNext(r.t) && CompletedAreConcluded(r.t);
  }

  lemma BegunKeeps(s: State, i: TxId, tx: Tx)
    requires Inv(s) && i !in s.txs && tx.pc == Begun && RunConcluded(tx.run) && IdFits(s.t, tx)
    ensures Inv(Set(s, i, tx))
  {
    hide Missed, Seen;
    OwnStepKeeps(s, Set(s, i, tx), i);
  }

  lemma BeginKeeps(s: State, a: Action)
    requires Inv(s) && Enabled(s, a) && (a.BeginCreate? || a.BeginUpdate?)
    ensures Inv(Next(s, a))
  {
    if a.BeginCreate? {
      ValidatedIsConcluded(a.create);
    } else {
      ResolvedIsConcluded(s.t.runs[a.update.run], a.update);
    }
    hide ValidateCreate, ResolveUpdate, HasExternal, Inv;
    BegunKeeps(s, a.tx, Next(s, a).txs[a.tx]);
  }

  lemma LockKeeps(s: State, i: TxId)
    requires Inv(s) && Enabled(s, LockSuite(i))
    ensures Inv(Next(s, LockSuite(i)))
  {
    hide Seen, Missed;
    OwnStepKeeps(s, Next(s, LockSuite(i)), i);
  }

  lemma StoreKeeps(s: State, i: TxId)
    requires Inv(s) && Enabled(s, StoreRollup(i))
    ensures Inv(Next(s, StoreRollup(i)))
  {
    assert ListingHolds(s, i);
    hide Seen, Missed;
    OwnStepKeeps(s, Next(s, StoreRollup(i)), i);
  }

  lemma WriteKeeps(s: State, i: TxId)
    requires Inv(s) && Enabled(s, WriteRow(i))
    ensures Inv(Next(s, WriteRow(i)))
  {
    OwnStepKeeps(s, Next(s, WriteRow(i)), i);
  }

  lemma ListKeeps(s: State, i: TxId)
    requires Inv(s) && Enabled(s, ListRuns(i))
    ensures Inv(Next(s, ListRuns(i)))
  {
    hide RollupOf, RunsIn;
    OwnStepKeeps(s, Next(s, ListRuns(i)), i);
  }

  lemma RollbackKeeps(s: State, i: TxId)
    requires Inv(s) && Enabled(s, Rollback(i))
    ensures Inv(Next(s, Rollback(i)))
  {
    OwnStepKeeps(s, Next(s, Rollback(i)), i);
  }

  /** A commit finds its run where the transaction left it: absent, or in the same suite. */
  lemma CommitFits(s: State, i: TxId)
    requires Inv(s) && Enabled(s, Commit(i))
    ensures var tx := s.txs[i]; tx.id in s.t.runs ==> s.t.runs[tx.id].suite == tx.run.suite
    ensures Fits(Next(s, Commit(i)))
  {
    var r, tx := Next(s, Commit(i)), s.txs[i];
    assert IdFits(s.t, tx);
    forall j | j in r.txs ensures IdFits(r.t, r.txs[j]) && RunConcluded(r.txs[j].run) {
      assert IdFits(s.t, s.txs[j]) && RunConcluded(s.txs[j].run);
    }
    assert IdsBelowNext(r.t) && CompletedAreConcluded(r.t);
  }

  lemma AppliedOneMore(runs: map<int, Run>, writes: seq<Write>, w: Write)
    ensures Applied(runs, writes + [w]) == Applied(runs, writes)[w.id := w.run]
  {
    assert (writes + [w])[..|writes|] == writes;
  }

  lemma MissedOneMore(runs: map<int, Run>, tx: Tx, writes: seq<Write>, w: Write)
    requires Missed(runs, tx, writes) && w.run.suite == tx.run.suite && w.id != tx.id && RunConcluded(w.run)
    requires w.id in runs ==> runs[w.id].suite == w.run.suite
    ensures Missed(runs[w.id := w.run], tx, writes + [w])
  {
    AppliedOneMore(tx.seen, writes, w);
    hide Applied, RunConcluded;
  }

  lemma OtherSuiteMissed(runs: map<int, Run>, tx: Tx, writes: seq<Write>, w: Write)
    requires Missed(runs, tx, writes) && w.run.suite != tx.run.suite
    requires w.id in runs ==> runs[w.id].suite == w.run.suite
    ensures Missed(runs[w.id := w.run], tx, writes)
  {
    hide Applied, RunConcluded;
  }

  lemma CommitsToAnotherRun(s: State, i: TxId, j: TxId)
    requires Inv(s) && Enabled(s, Commit(i)) && j in s.txs && j != i && HasListed(s.txs[j])
    requires s.txs[j].run.suite == s.txs[i].run.suite
    ensures s.txs[i].id != s.txs[j].id
  {
    hide ListingsHold;
    assert IdFits(s.t, s.txs[i]) && IdFits(s.t, s.txs[j]);
    assert HoldsSuite(s.txs[i]);
  }

  lemma CommitLogs(s: State, i: TxId, k: SuiteKey)
    requires Enabled(s, Commit(i))
    ensures var r, tx := Next(s, Commit(i)), s.txs[i];
      && LogOf(r, k) == LogOf(s, k) + (if k == tx.run.suite then [Write(tx.id, tx.run)] else [])
      && r.t.runs == s.t.runs[tx.id := tx.run]
      && r.txs == s.txs[i := tx.(pc := Ended)]
  {
  }

  /** It outdates the listings of its own suite and of no other. */
  lemma CommitOutdates(s: State, i: TxId, j: TxId)
    requires Inv(s) && Enabled(s, Commit(i)) && j in s.txs && j != i
    ensures j in Next(s, Commit(i)).txs && ListingHolds(Next(s, Commit(i)), j)
    ensures s.txs[j].run.suite != s.txs[i].run.suite ==> (Fresh(Next(s, Commit(i)), j) <==> Fresh(s, j))
  {
    CommitFits(s, i);
    var tx, other := s.txs[i], s.txs[j];
    assert ListingHolds(s, j) && RunConcluded(tx.run);
    CommitLogs(s, i, other.run.suite);
    hide Inv, Seen, Missed, RunConcluded, Next, LogOf;
    var w, log := Write(tx.id, tx.run), LogOf(s, other.run.suite);
    if HasListed(other) {
      if other.run.suite != tx.run.suite {
        OtherSuiteMissed(s.t.runs, other, log[other.at..], w);
      } else {
        CommitsToAnotherRun(s, i, j);
        MissedOneMore(s.t.runs, other, log[other.at..], w);
        assert (log + [w])[other.at..] == log[other.at..] + [w];
      }
    }
  }

  lemma CommitKeepsLocks(s: State, i: TxId)
    requires Inv(s) && Enabled(s, Commit(i))
    ensures var r := Next(s, Commit(i)); SuitesHeld(r) && RunsHeld(r) && IdsDiffer(r)
  {
    hide ListingHolds, Fits;
  }

  lemma CommitKeeps(s: State, i: TxId)
    requires Inv(s) && Enabled(s, Commit(i))
    ensures Inv(Next(s, Commit(i)))
  {
    var r := Next(s, Commit(i));
    CommitFits(s, i);
    CommitKeepsLocks(s, i);
    hide ListingHolds, Fits, RunsHeld, IdsDiffer;
    forall j | j in r.txs ensures ListingHolds(r, j) {
      if j != i {
        CommitOutdates(s, i, j);
      } else {
        EndedHasNoListing(r, i);
      }
    }
    forall j | j in r.txs && r.txs[j].creates && HasListed(r.txs[j]) ensures Fresh(r, j) {
      CommitOutdates(s, i, j);
      assert HoldsSuite(s.txs[i]) && HoldsSuite(s.txs[j]);
    }
  }

  lemma EndedHasNoListing(r: State, i: TxId)
    requires i in r.txs && r.txs[i].pc == Ended
    ensures ListingHolds(r, i)
  {
  }

  lemma StepKeeps(s: State, a: Action)
    requires Inv(s) && Enabled(s, a)
    ensures Inv(Next(s, a))
  {
    hide Inv, Enabled, Next;
    match a
    case LockSuite(i) => LockKeeps(s, i);
    case StoreRollup(i) => StoreKeeps(s, i);
    case WriteRow(i) => WriteKeeps(s, i);
    case ListRuns(i) => ListKeeps(s, i);
    case Commit(i) => CommitKeeps(s, i);
    case Rollback(i) => RollbackKeeps(s, i);
    case _ => BeginKeeps(s, a);
  }

  lemma {:induction false} RunKeeps(s: State, actions: seq<Action>)
    requires Inv(s) && IsRun(s, actions)
    ensures Inv(After(s, actions))
    decreases |actions|
  {
    hide Inv, Enabled, Next;
    if actions != [] {
      StepKeeps(s, actions[0]);
      RunKeeps(Next(s, actions[0]), actions[1..]);
    }
  }

  /** Some interleaving ends in this state. */
  ghost predicate Reached(s: State) {
    exists actions :: IsRun(START, actions) && After(START, actions) == s
  }

  lemma ReachedKeeps(s: State)
    requires Reached(s)
    ensures Inv(s)
  {
    var actions :| IsRun(START, actions) && After(START, actions) == s;
    assert Inv(START);
    RunKeeps(START, actions);
  }

  // ----- schedules that store what is there

  lemma SameSuiteSameRuns(a: map<int, Run>, b: map<int, Run>, id: int, run: Run)
    requires SameSuite(a, b, run.suite)
    ensures RunsIn(a[id := run], run.suite) == RunsIn(b[id := run], run.suite)
  {
    var left, right := a[id := run], b[id := run];
    assert forall j | j in left && left[j].suite == run.suite :: j in right && right[j] == left[j];
    assert forall j | j in right && right[j].suite == run.suite :: j in left && left[j] == right[j];
  }

  ghost predicate StoredFresh(s: State) {
    forall i | i in s.txs && s.txs[i].pc == Stored :: Fresh(s, i)
  }

  lemma FreshCommit(s: State, i: TxId)
    requires Inv(s) && Enabled(s, Commit(i)) && Fresh(s, i) && RollupsAgree(s.t)
    ensures RollupsAgree(Next(s, Commit(i)).t)
  {
    var tx := s.txs[i];
    assert ListingHolds(s, i);
    assert LogOf(s, tx.run.suite)[tx.at..] == [];
    SameSuiteSameRuns(tx.seen, s.t.runs, tx.id, tx.run);
    CommitFits(s, i);
    WriteKeepsRollups(s.t, tx.id, tx.run);
    hide Inv, RollupOf, RunsIn, RollupsAgree;
    RollupsReadTables(WriteRun(s.t, tx.id, tx.run), Next(s, Commit(i)).t);
  }

  lemma CommitLeavesFresh(s: State, i: TxId)
    requires Inv(s) && Enabled(s, Commit(i)) && StoredFresh(s)
    ensures StoredFresh(Next(s, Commit(i)))
  {
    var r := Next(s, Commit(i));
    hide RunsHeld, Fits, IdsDiffer, ListingsHold, ListingHolds, CreatesFresh;
    forall j | j in r.txs && r.txs[j].pc == Stored ensures Fresh(r, j) {
      CommitOutdates(s, i, j);
      assert HoldsSuite(s.txs[i]) && HoldsSuite(s.txs[j]);
    }
  }

  lemma OtherStepsTouchOne(s: State, a: Action)
    requires Enabled(s, a) && !a.Commit?
    ensures var r := Next(s, a);
      && r.log == s.log && a.tx in r.txs && r.txs == s.txs[a.tx := r.txs[a.tx]]
      && (At(r, a.tx, Stored) ==> a.StoreRollup? && a.tx in s.txs && r.txs[a.tx] == s.txs[a.tx].(pc := Stored))
  {
    hide ValidateCreate, ResolveUpdate, Seen;
  }

  lemma FreshStays(s: State, a: Action)
    requires Inv(s) && Enabled(s, a) && StoredFresh(s) && (a.StoreRollup? ==> Fresh(s, a.tx))
    ensures StoredFresh(Next(s, a))
  {
    if a.Commit? {
      CommitLeavesFresh(s, a.tx);
    } else {
      OtherStepsTouchOne(s, a);
      hide Inv, Enabled, Next;
    }
  }

  lemma {:induction false} OrderlyKeeps(s: State, actions: seq<Action>)
    requires Inv(s) && StoredFresh(s) && RollupsAgree(s.t) && IsRun(s, actions) && Orderly(s, actions)
    ensures RollupsAgree(After(s, actions).t)
    decreases |actions|
  {
    if actions != [] {
      var a := actions[0];
      StepKeeps(s, a);
      FreshStays(s, a);
      if a.Commit? {
        FreshCommit(s, a.tx);
      } else {
        RollupsReadTables(s.t, Next(s, a).t);
      }
      hide Inv, Enabled, Next, StoredFresh, RollupsAgree;
      OrderlyKeeps(Next(s, a), actions[1..]);
    }
  }

  /** In every interleaving in which no transaction lists before another's commit and stores after it,
      each stored suite is the rollup of its runs. */
  lemma OrderlyRunsAreRight(actions: seq<Action>)
    requires IsRun(START, actions) && Orderly(START, actions)
    ensures RollupsAgree(After(START, actions).t)
  {
    assert Inv(START) && RollupsAgree(START.t);
    OrderlyKeeps(START, actions);
  }

  /** A Create is never outdated: it locks its suite before it lists. */
  lemma CreatesAreNeverOutdated(s: State, i: TxId)
    requires Reached(s) && i in s.txs && s.txs[i].creates && HasListed(s.txs[i])
    ensures Fresh(s, i)
  {
    ReachedKeeps(s);
  }

  lemma CreatesOnly(s: State, a: Action)
    requires Inv(s) && Enabled(s, a) && !a.BeginUpdate? && forall i | i in s.txs :: s.txs[i].creates
    ensures forall i | i in Next(s, a).txs :: Next(s, a).txs[i].creates
    ensures a.StoreRollup? ==> Fresh(s, a.tx)
  {
    hide ListingsHold, Fits, ValidateCreate;
  }

  lemma {:induction false} CreatesAreOrderly(s: State, actions: seq<Action>)
    requires Inv(s) && IsRun(s, actions) && (forall a | a in actions :: !a.BeginUpdate?)
    requires forall i | i in s.txs :: s.txs[i].creates
    ensures Orderly(s, actions)
    decreases |actions|
  {
    if actions != [] {
      assert !actions[0].BeginUpdate?;
      StepKeeps(s, actions[0]);
      CreatesOnly(s, actions[0]);
      hide Inv, Enabled, Next;
      CreatesAreOrderly(Next(s, actions[0]), actions[1..]);
    }
  }

  /** So Creates alone, however they interleave, always leave the stored suites right. */
  lemma CreatesAloneAreRight(actions: seq<Action>)
    requires IsRun(START, actions) && forall a | a in actions :: !a.BeginUpdate?
    ensures RollupsAgree(After(START, actions).t)
  {
    assert Inv(START);
    CreatesAreOrderly(START, actions);
    OrderlyRunsAreRight(actions);
  }

  // ----- schedules that do not

  function StateOf(run: Run): Outcome {
    Outcome(run.status, run.conclusion)
  }

  /** The suite's states as the transaction listed them, its own write included. */
  function Listing(tx: Tx): set<Outcome> {
    RunsIn(tx.seen[tx.id := tx.run], tx.run.suite)
  }

  /** The suite's states once it has committed. */
  function Committed(s: State, i: TxId): set<Outcome>
    requires i in s.txs
  {
    var tx := s.txs[i];
    RunsIn(s.t.runs[tx.id := tx.run], tx.run.suite)
  }

  predicate StoresRight(s: State, i: TxId)
    requires Enabled(s, Commit(i))
  {
    var r, k := Next(s, Commit(i)), s.txs[i].run.suite;
    r.t.suites[k] == RollupOf(RunsIn(r.t.runs, k))
  }

  lemma StatesConcluded(runs: map<int, Run>, id: int, run: Run)
    requires (forall j | j in runs :: RunConcluded(runs[j])) && RunConcluded(run)
    ensures var states := RunsIn(runs[id := run], run.suite); StateOf(run) in states && Concluded(states)
  {
    assert id in runs[id := run];
  }

  lemma CommitStoresListing(s: State, i: TxId)
    requires Inv(s) && Enabled(s, Commit(i))
    ensures StoresRight(s, i) <==> RollupOf(Listing(s.txs[i])) == RollupOf(Committed(s, i))
    ensures Listing(s.txs[i]) != {} && Concluded(Listing(s.txs[i]))
    ensures Committed(s, i) != {} && Concluded(Committed(s, i))
  {
    var tx := s.txs[i];
    assert ListingHolds(s, i) && RunConcluded(tx.run);
    StatesConcluded(tx.seen, tx.id, tx.run);
    StatesConcluded(s.t.runs, tx.id, tx.run);
    hide RollupOf, RunsIn, Concluded;
  }

  /** A commit stores the right rollup exactly when the states it listed and those it leaves are both
      all completed and cover each other's conclusions, or neither and both or neither all queued. */
  lemma CommitIsRightIff(s: State, i: TxId)
    requires Reached(s) && Enabled(s, Commit(i))
    ensures var listed, there := Listing(s.txs[i]), Committed(s, i);
      StoresRight(s, i) <==>
        if AllCompleted(listed) then AllCompleted(there) && CoversAll(listed, there) && CoversAll(there, listed)
        else !AllCompleted(there) && (AllQueued(listed) <==> AllQueued(there))
  {
    ReachedKeeps(s);
    CommitStoresListing(s, i);
    hide *;
    SameRollupIff(Listing(s.txs[i]), Committed(s, i));
  }

  /** The states of the suite's other runs, the transaction's own write included. */
  function Others(tx: Tx, j: int): set<Outcome> {
    RunsIn((tx.seen - {j})[tx.id := tx.run], tx.run.suite)
  }

  lemma RunsOneMore(runs: map<int, Run>, j: int, run: Run)
    requires j !in runs
    ensures RunsIn(runs[j := run], run.suite) == RunsIn(runs, run.suite) + {StateOf(run)}
  {
    var more := runs[j := run];
    assert forall id | id in runs :: id in more && more[id] == runs[id];
    assert j in more;
  }

  /** One commit was missed: the two sets differ in that run's state. */
  lemma MissedOne(s: State, i: TxId)
    requires Inv(s) && Enabled(s, Commit(i))
    requires |LogOf(s, s.txs[i].run.suite)| == s.txs[i].at + 1
    ensures var tx := s.txs[i];
      var w := LogOf(s, tx.run.suite)[tx.at];
      && Committed(s, i) == Others(tx, w.id) + {StateOf(w.run)}
      && Listing(tx) == Others(tx, w.id) + (if w.id in tx.seen then {StateOf(tx.seen[w.id])} else {})
      && RunConcluded(w.run) && (w.id in tx.seen ==> RunConcluded(tx.seen[w.id]))
      && Others(tx, w.id) != {} && Concluded(Others(tx, w.id))
  {
    var tx := s.txs[i];
    var k := tx.run.suite;
    var w := LogOf(s, k)[tx.at];
    assert ListingHolds(s, i) && RunConcluded(tx.run);
    assert LogOf(s, k)[tx.at..] == [w];
    MissedOneRows(s.t.runs, tx, w);
    StatesConcluded(tx.seen - {w.id}, tx.id, tx.run);
  }

  lemma MissedOneRows(runs: map<int, Run>, tx: Tx, w: Write)
    requires Missed(runs, tx, [w])
    ensures RunsIn(runs[tx.id := tx.run], tx.run.suite) == Others(tx, w.id) + {StateOf(w.run)}
    ensures Listing(tx) == Others(tx, w.id) + (if w.id in tx.seen then {StateOf(tx.seen[w.id])} else {})
    ensures RunConcluded(w.run) && w.run.suite == tx.run.suite
  {
    var k, rest := tx.run.suite, (tx.seen - {w.id})[tx.id := tx.run];
    assert w in [w];
    assert Applied(tx.seen, [w]) == tx.seen[w.id := w.run] by { AppliedOneMore(tx.seen, [], w); assert [] + [w] == [w]; }
    SameSuiteSameRuns(tx.seen[w.id := w.run], runs, tx.id, tx.run);
    assert tx.seen[w.id := w.run][tx.id := tx.run] == rest[w.id := w.run];
    RunsOneMore(rest, w.id, w.run);
    if w.id in tx.seen {
      assert runs[w.id] == w.run && tx.seen[w.id].suite == k;
      assert tx.seen[tx.id := tx.run] == rest[w.id := tx.seen[w.id]];
      RunsOneMore(rest, w.id, tx.seen[w.id]);
    } else {
      assert tx.seen - {w.id} == tx.seen;
    }
  }

  /** With one commit missed, of an Update or of a Create, the stored rollup is right exactly when the
      other runs' rollup does not notice the change, or the addition. */
  lemma OneMissedIsRightIff(s: State, i: TxId)
    requires Reached(s) && Enabled(s, Commit(i)) && |LogOf(s, s.txs[i].run.suite)| == s.txs[i].at + 1
    ensures var tx := s.txs[i];
      var w := LogOf(s, tx.run.suite)[tx.at];
      StoresRight(s, i) <==>
        if w.id in tx.seen then Unnoticed(Others(tx, w.id), StateOf(tx.seen[w.id]), StateOf(w.run))
        else AdditionUnnoticed(Others(tx, w.id), StateOf(w.run))
  {
    ReachedKeeps(s);
    CommitStoresListing(s, i);
    MissedOne(s, i);
    var tx := s.txs[i];
    var w := LogOf(s, tx.run.suite)[tx.at];
    var others := Others(tx, w.id);
    hide Inv, Enabled, Reached, Committed, Listing, Others, StoresRight, RollupOf, Unnoticed, AdditionUnnoticed, LogOf;
    if w.id in tx.seen {
      UnnoticedIff(others, StateOf(tx.seen[w.id]), StateOf(w.run));
    } else {
      assert others + {} == others;
      AdditionUnnoticedIff(others, StateOf(w.run));
    }
  }

  // ----- external ids

  /** A commit keeps external ids unique exactly when it is an Update's, or a Create's whose retry has not
      committed since the lookup. */
  lemma CommitKeepsExternalIff(s: State, i: TxId)
    requires Reached(s) && Enabled(s, Commit(i)) && ExternalIdsUnique(s.t)
    ensures ExternalIdsUnique(Next(s, Commit(i)).t) <==> !s.txs[i].creates || !HasExternal(s.t, s.txs[i].run)
  {
    ReachedKeeps(s);
    var tx, r := s.txs[i], Next(s, Commit(i));
    assert IdFits(s.t, tx);
    hide Inv, Reached;
    assert tx.id in r.t.runs && r.t.runs[tx.id] == tx.run;
    assert forall j | j in s.t.runs && j != tx.id :: j in r.t.runs && r.t.runs[j] == s.t.runs[j];
    if tx.creates && HasExternal(s.t, tx.run) {
      var j :| j in s.t.runs && SameExternal(s.t.runs[j], tx.run);
      assert r.t.runs[j] == s.t.runs[j] && j != tx.id;
    }
  }

  // ----- runs that store a stale rollup

  lemma {:induction false} Extended(s: State, actions: seq<Action>, a: Action)
    requires IsRun(s, actions) && Enabled(After(s, actions), a)
    ensures IsRun(s, actions + [a]) && After(s, actions + [a]) == Next(After(s, actions), a)
    decreases |actions|
  {
    hide Enabled, Next;
    if actions == [] {
      assert [] + [a] == [a] && [a][1..] == [];
      assert IsRun(Next(s, a), []);
    } else {
      assert (actions + [a])[1..] == actions[1..] + [a];
      Extended(Next(s, actions[0]), actions[1..], a);
    }
  }

  lemma Then(s: State, a: Action) returns (r: State)
    requires Reached(s) && Enabled(s, a)
    ensures Reached(r) && r == Next(s, a)
  {
    var actions :| IsRun(START, actions) && After(START, actions) == s;
    Extended(START, actions, a);
    r := Next(s, a);
  }

  ghost predicate OnlyTx(s: State, r: State, i: TxId) {
    i in r.txs && r.txs == s.txs[i := r.txs[i]]
  }

  ghost predicate ListedRun(s: State, r: State, i: TxId, id: int, run: Run) {
    && OnlyTx(s, r, i) && At(r, i, Listed) && r.txs[i].id == id && r.txs[i].run == run
    && r.txs[i].derived == RollupOf(RunsIn(s.t.runs[id := run], run.suite))
  }

  /** A Create on a suite nobody has locked can go as far as its listing. */
  lemma CreateLists(s: State, i: TxId) returns (r: State)
    requires Reached(s) && At(s, i, Begun) && s.txs[i].creates && s.txs[i].run.suite !in s.suiteLocks
    ensures Reached(r) && ListedRun(s, r, i, s.t.nextRun, s.txs[i].run) && r.t == s.t.(nextRun := s.t.nextRun + 1)
    ensures r.suiteLocks == s.suiteLocks[s.txs[i].run.suite := i] && r.runLocks == s.runLocks
  {
    hide Reached, RollupOf, RunsIn;
    r := Then(s, LockSuite(i));
    r := Then(r, WriteRow(i));
    r := Then(r, ListRuns(i));
  }

  /** From its listing a transaction can go to its end once the suite's row is free. */
  lemma Commits(s: State, i: TxId) returns (r: State)
    requires Reached(s) && At(s, i, Listed) && LockFree(s.suiteLocks, s.txs[i].run.suite, i)
    ensures Reached(r) && OnlyTx(s, r, i)
    ensures r.suiteLocks == Without(s.suiteLocks[s.txs[i].run.suite := i], i) && r.runLocks == Without(s.runLocks, i)
    ensures var tx := s.txs[i];
      r.t == s.t.(runs := s.t.runs[tx.id := tx.run], suites := s.t.suites[tx.run.suite := tx.derived])
  {
    hide Reached;
    r := Then(s, StoreRollup(i));
    r := Then(r, Commit(i));
  }

  lemma CreateEnds(s: State, i: TxId) returns (r: State)
    requires Reached(s) && At(s, i, Begun) && s.txs[i].creates && s.txs[i].run.suite !in s.suiteLocks
    ensures Reached(r) && OnlyTx(s, r, i)
    ensures r.t == WriteRun(s.t, s.t.nextRun, s.txs[i].run).(nextRun := s.t.nextRun + 1)
    ensures r.suiteLocks == Without(s.suiteLocks, i) && r.runLocks == Without(s.runLocks, i)
  {
    hide Reached, RollupOf, RunsIn;
    var listed := CreateLists(s, i);
    r := Commits(listed, i);
  }

  lemma CreateBegins(s: State, i: TxId, p: CreateParams, run: Run) returns (r: State)
    requires Reached(s) && i !in s.txs && ValidateCreate(p) == Ok(run) && !HasExternal(s.t, run)
    ensures Reached(r) && OnlyTx(s, r, i) && At(r, i, Begun) && r.txs[i].creates && r.txs[i].run == run
    ensures r.t == s.t && r.suiteLocks == s.suiteLocks && r.runLocks == s.runLocks
  {
    hide ValidateCreate, HasExternal, Reached;
    r := Then(s, BeginCreate(i, p));
  }

  /** A Create on a suite nobody has locked can run through. */
  lemma CreateRuns(s: State, i: TxId, p: CreateParams, run: Run) returns (r: State)
    requires Reached(s) && i !in s.txs && ValidateCreate(p) == Ok(run) && !HasExternal(s.t, run)
    requires run.suite !in s.suiteLocks
    ensures Reached(r) && OnlyTx(s, r, i)
    ensures r.t == WriteRun(s.t, s.t.nextRun, run).(nextRun := s.t.nextRun + 1)
    ensures r.suiteLocks == Without(s.suiteLocks, i) && r.runLocks == Without(s.runLocks, i)
  {
    hide ValidateCreate, HasExternal, Reached, RollupOf, RunsIn;
    r := CreateBegins(s, i, p, run);
    r := CreateEnds(r, i);
  }

  /** An Update whose run nobody has locked can go as far as its listing. */
  lemma UpdateLists(s: State, i: TxId, p: UpdateParams, run: Run) returns (r: State)
    requires Reached(s) && i !in s.txs && p.run !in s.runLocks
    requires p.run in s.t.runs && ResolveUpdate(s.t.runs[p.run], p) == Ok(run)
    ensures Reached(r) && ListedRun(s, r, i, p.run, run) && r.t == s.t
    ensures r.suiteLocks == s.suiteLocks && r.runLocks == s.runLocks[p.run := i]
  {
    hide ResolveUpdate, Reached, RollupOf, RunsIn;
    r := Then(s, BeginUpdate(i, p));
    r := Then(r, WriteRow(i));
    r := Then(r, ListRuns(i));
  }

  const SUITE := SuiteKey(1, "abcdefg", "external")

  const NO_OUTPUT := Output("", "", "")

  const NEW_CHECK := CreateParams(1, "abcdefg", "", "a", "", "", None, None, "", NO_OUTPUT, "")

  const QUEUED_RUN := Run(SUITE, "a", Queued, None, None, None, "", NO_OUTPUT, None)

  const PASSED_RUN := QUEUED_RUN.(status := Completed, conclusion := Some(Success))

  function Passing(id: int): UpdateParams {
    UpdateParams(id, Some("completed"), Some("success"), None, None, None, None)
  }

  lemma NewCheckIsQueued()
    ensures ValidateCreate(NEW_CHECK) == Ok(QUEUED_RUN)
  {
    assert SpaceAtFront("abcdefg") == 0 && SpaceAtBack("abcdefg") == 0;
    assert SpaceAtFront("a") == 0 && SpaceAtBack("a") == 0;
  }

  lemma PassingPasses(id: int)
    ensures ResolveUpdate(QUEUED_RUN, Passing(id)) == Ok(PASSED_RUN)
  {
    StatusNameReads(Completed);
    assert SpaceAtFront("success") == 0 && SpaceAtBack("success") == 0;
  }

  lemma StartIsReached()
    ensures Reached(START)
  {
    assert IsRun(START, []) && After(START, []) == START;
  }

  lemma TwoQueued() returns (s: State)
    ensures Reached(s) && s.t.runs == map[1 := QUEUED_RUN, 2 := QUEUED_RUN] && s.t.suites.Keys == {SUITE}
    ensures s.suiteLocks == map[] && s.runLocks == map[] && s.txs.Keys == {1, 2}
  {
    NewCheckIsQueued();
    StartIsReached();
    hide ValidateCreate, RollupOf, RunsIn, Reached;
    s := CreateRuns(START, 1, NEW_CHECK, QUEUED_RUN);
    s := CreateRuns(s, 2, NEW_CHECK, QUEUED_RUN);
  }

  /** Two Updates complete the last runs of a suite; the suite stays stored as unfinished. */
  lemma OverlappingUpdatesLoseCompletion() returns (s: State)
    ensures Reached(s)
    ensures s.t.runs == map[1 := PASSED_RUN, 2 := PASSED_RUN]
    ensures s.t.suites == map[SUITE := Outcome(InProgress, None)]
    ensures RollupOf(RunsIn(s.t.runs, SUITE)) == Outcome(Completed, Some(Success))
  {
    PassingPasses(1);
    PassingPasses(2);
    hide ResolveUpdate, RollupOf, RunsIn, Reached;
    s := TwoQueued();
    MixedIsInProgress(s.t.runs[2 := PASSED_RUN], 1, 2);
    s := UpdateLists(s, 3, Passing(1), PASSED_RUN);
    s := UpdateLists(s, 4, Passing(2), PASSED_RUN);
    assert s.txs[4].derived == Outcome(InProgress, None);
    s := Commits(s, 3);
    s := Commits(s, 4);
    PassedIsPassed(s.t.runs);
  }

  lemma MixedIsInProgress(runs: map<int, Run>, i: int, j: int)
    requires i in runs && runs[i] == QUEUED_RUN && j in runs && runs[j] == PASSED_RUN
    ensures RollupOf(RunsIn(runs, SUITE)) == Outcome(InProgress, None)
  {
    assert StateOf(QUEUED_RUN) in RunsIn(runs, SUITE) && StateOf(PASSED_RUN) in RunsIn(runs, SUITE);
  }

  /** An Update lists before a Create commits and stores after it: the suite is stored as passed although
      the new run has not started. */
  lemma UpdateMissesCreate() returns (s: State)
    ensures Reached(s)
    ensures s.t.runs == map[1 := PASSED_RUN, 2 := QUEUED_RUN]
    ensures s.t.suites == map[SUITE := Outcome(Completed, Some(Success))]
    ensures RollupOf(RunsIn(s.t.runs, SUITE)) == Outcome(InProgress, None)
  {
    NewCheckIsQueued();
    PassingPasses(1);
    StartIsReached();
    hide ValidateCreate, ResolveUpdate, RollupOf, RunsIn, Reached;
    s := CreateRuns(START, 1, NEW_CHECK, QUEUED_RUN);
    PassedIsPassed(s.t.runs[1 := PASSED_RUN]);
    s := UpdateLists(s, 2, Passing(1), PASSED_RUN);
    assert s.txs[2].derived == Outcome(Completed, Some(Success));
    s := CreateRuns(s, 3, NEW_CHECK, QUEUED_RUN);
    s := Commits(s, 2);
    MixedIsInProgress(s.t.runs, 2, 1);
  }

  lemma PassedIsPassed(runs: map<int, Run>)
    requires 1 in runs && forall id | id in runs :: runs[id] == PASSED_RUN
    ensures RollupOf(RunsIn(runs, SUITE)) == Outcome(Completed, Some(Success))
  {
    assert StateOf(runs[1]) in RunsIn(runs, SUITE);
    assert RunsIn(runs, SUITE) == {StateOf(PASSED_RUN)};
    ConclusionIsTheirs(RunsIn(runs, SUITE));
  }

  /** A Create and its retry, both before the other commits, leave two runs with one external id. */
  lemma OverlappingRetryDuplicates() returns (s: State)
    ensures Reached(s) && !ExternalIdsUnique(s.t)
  {
    var p, run := NEW_CHECK.(externalId := "x"), QUEUED_RUN.(externalId := Some("x"));
    NewCheckIsQueued();
    StartIsReached();
    assert ValidateCreate(p) == Ok(run);
    hide ValidateCreate, Reached, RollupOf, RunsIn;
    s := CreateBegins(START, 1, p, run);
    s := CreateBegins(s, 2, p, run);
    s := CreateEnds(s, 1);
    s := CreateEnds(s, 2);
    assert 1 in s.t.runs && 2 in s.t.runs && SameExternal(s.t.runs[1], s.t.runs[2]);
  }
}
