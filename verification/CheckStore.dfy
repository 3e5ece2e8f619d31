/** The check tables under Create and Update: the stored suite columns stay the rollup of the
    suite's runs. */
module CheckStore {
  import opened Prelude
  import opened SearchText
  import opened CheckRollup

  datatype Output = Output(title: string, summary: string, text: string)

  datatype SuiteKey = SuiteKey(repo: int, headSha: string, appSlug: string)

  datatype Run = Run(
    suite: SuiteKey, name: string, status: Status, conclusion: Option<Conclusion>,
    startedAt: Option<int>, completedAt: Option<int>, detailsUrl: string, output: Output,
    externalId: Option<string>)

  /** Run ids are handed out in order; a suite is known by its unique key. */
  datatype Tables = Tables(runs: map<int, Run>, suites: map<SuiteKey, Outcome>, nextRun: int)

  datatype CheckError =
    | EmptyName | NameTooLong | ShortHeadSha | InvalidStatus | InvalidConclusion | CompletedNeedsConclusion
    | OutputTextTooLarge | OutputSummaryTooLarge | RunNotFound | DatabaseError

  datatype Result<T> = Ok(value: T) | Err(error: CheckError)

  const MAX_OUTPUT_TEXT_BYTES: int := 256 * 1024
  const MAX_OUTPUT_SUMMARY_BYTES: int := 64 * 1024

  function ParseStatus(s: string): Option<Status> {
    if s == "queued" then Some(Queued)
    else if s == "in_progress" then Some(InProgress)
    else if s == "completed" then Some(Completed)
    else if s == "pending" then Some(Pending)
    else None
  }

  function ParseConclusion(s: string): Option<Conclusion> {
    if s == "success" then Some(Success)
    else if s == "failure" then Some(Failure)
    else if s == "neutral" then Some(Neutral)
    else if s == "cancelled" then Some(Cancelled)
    else if s == "skipped" then Some(Skipped)
    else if s == "timed_out" then Some(TimedOut)
    else if s == "action_required" then Some(ActionRequired)
    else if s == "stale" then Some(Stale)
    else None
  }

  // ----- Create

  datatype CreateParams = CreateParams(
    repo: int, headSha: string, appSlug: string, name: string, status: string, conclusion: string,
    startedAt: Option<int>, completedAt: Option<int>, detailsUrl: string, output: Output, externalId: string)

  function OrDefault(s: string, default: string): string {
    if s == "" then default else s
  }

  /** Trim, apply defaults and bounds, and read the enums; the checks come in this order. */
  function ValidateCreate(p: CreateParams): Result<Run> {
    var name, headSha := TrimSpace(p.name), TrimSpace(p.headSha);
    var appSlug := OrDefault(TrimSpace(p.appSlug), "external");
    var status := ParseStatus(OrDefault(TrimSpace(p.status), "queued"));
    var conclusion := ParseConclusion(p.conclusion);
    if name == "" then Err(EmptyName)
    else if |name| > 200 then Err(NameTooLong)
    else if |headSha| < 7 || |headSha| > 64 then Err(ShortHeadSha)
    else if status.None? then Err(InvalidStatus)
    else if p.conclusion != "" && conclusion.None? then Err(InvalidConclusion)
    else if status == Some(Completed) && p.conclusion == "" then Err(CompletedNeedsConclusion)
    else if |p.output.text| > MAX_OUTPUT_TEXT_BYTES then Err(OutputTextTooLarge)
    else if |p.output.summary| > MAX_OUTPUT_SUMMARY_BYTES then Err(OutputSummaryTooLarge)
    else Ok(Run(SuiteKey(p.repo, headSha, appSlug), name, status.value, conclusion,
                p.startedAt, p.completedAt, p.detailsUrl, p.output,
                if p.externalId == "" then None else Some(p.externalId)))
  }

  /** The columns an external system's retry is recognised by. */
  predicate SameExternal(a: Run, b: Run) {
    && a.suite.repo == b.suite.repo && a.suite.headSha == b.suite.headSha && a.name == b.name
    && a.externalId.Some? && a.externalId == b.externalId
  }

  predicate HasExternal(t: Tables, run: Run) {
    exists id :: id in t.runs && SameExternal(t.runs[id], run)
  }

  /** The states of a suite's runs. */
  function RunsIn(runs: map<int, Run>, suite: SuiteKey): set<Outcome> {
    set id | id in runs && runs[id].suite == suite :: Outcome(runs[id].status, runs[id].conclusion)
  }

  /** Write a run and re-derive its suite. */
  function WriteRun(t: Tables, id: int, run: Run): Tables {
    var runs := t.runs[id := run];
    t.(runs := runs, suites := t.suites[run.suite := RollupOf(RunsIn(runs, run.suite))])
  }

  function AfterCreate(t: Tables, p: CreateParams, dbOk: bool): Tables {
    var run := ValidateCreate(p);
    if run.Err? || !dbOk || HasExternal(t, run.value) then t
    else WriteRun(t, t.nextRun, run.value).(nextRun := t.nextRun + 1)
  }

  // ----- Update

  /** A None field keeps its current value; times of None inside clear the column. */
  datatype UpdateParams = UpdateParams(
    run: int, status: Option<string>, conclusion: Option<string>, startedAt: Option<Option<int>>,
    completedAt: Option<Option<int>>, detailsUrl: Option<string>, output: Option<Output>)

  function Or<T>(given: Option<T>, current: T): T {
    if given.Some? then given.value else current
  }

  function ResolveUpdate(cur: Run, p: UpdateParams): Result<Run> {
    var status := if p.status.Some? then ParseStatus(TrimSpace(p.status.value)) else Some(cur.status);
    var given := if p.conclusion.Some? then TrimSpace(p.conclusion.value) else "";
    var conclusion := if p.conclusion.Some? then ParseConclusion(given) else cur.conclusion;
    if status.None? then Err(InvalidStatus)
    else if given != "" && conclusion.None? then Err(InvalidConclusion)
    else if status == Some(Completed) && conclusion.None? then Err(CompletedNeedsConclusion)
    else if p.output.Some? && |p.output.value.text| > MAX_OUTPUT_TEXT_BYTES then Err(OutputTextTooLarge)
    else if p.output.Some? && |p.output.value.summary| > MAX_OUTPUT_SUMMARY_BYTES then Err(OutputSummaryTooLarge)
    else Ok(cur.(status := status.value, conclusion := conclusion,
                 startedAt := Or(p.startedAt, cur.startedAt), completedAt := Or(p.completedAt, cur.completedAt),
                 detailsUrl := Or(p.detailsUrl, cur.detailsUrl), output := Or(p.output, cur.output)))
  }

  function AfterUpdate(t: Tables, p: UpdateParams, dbOk: bool): Tables {
    if p.run !in t.runs then t
    else
      var run := ResolveUpdate(t.runs[p.run], p);
      if run.Err? || !dbOk then t else WriteRun(t, p.run, run.value)
  }

  // ----- what every step keeps

  predicate CompletedAreConcluded(t: Tables) {
    forall id | id in t.runs && t.runs[id].status == Completed :: t.runs[id].conclusion.Some?
  }

  predicate RollupsAgree(t: Tables) {
    && (forall id | id in t.runs :: t.runs[id].suite in t.suites)
    && (forall k | k in t.suites :: t.suites[k] == RollupOf(RunsIn(t.runs, k)))
  }

  predicate IdsBelowNext(t: Tables) {
    forall id | id in t.runs :: id < t.nextRun
  }

  /** No two runs answer to the same external id. */
  predicate ExternalIdsUnique(t: Tables) {
    forall i, j | i in t.runs && j in t.runs && SameExternal(t.runs[i], t.runs[j]) :: i == j
  }

  predicate Valid(t: Tables) {
    CompletedAreConcluded(t) && RollupsAgree(t) && IdsBelowNext(t) && ExternalIdsUnique(t)
  }

  const EMPTY := Tables(map[], map[], 1)

  lemma OtherSuiteUnchanged(runs: map<int, Run>, id: int, run: Run, k: SuiteKey)
    requires k != run.suite && (id in runs ==> runs[id].suite == run.suite)
    ensures RunsIn(runs[id := run], k) == RunsIn(runs, k)
  {
    var more := runs[id := run];
    forall o | o in RunsIn(runs, k) ensures o in RunsIn(more, k) {
      var i :| i in runs && runs[i].suite == k && o == Outcome(runs[i].status, runs[i].conclusion);
      assert i in more && more[i] == runs[i];
    }
  }

  /** Writing a run in its own suite leaves the other suites' runs alone. */
  lemma WriteKeepsRollups(t: Tables, id: int, run: Run)
    requires RollupsAgree(t) && (id in t.runs ==> t.runs[id].suite == run.suite)
    ensures RollupsAgree(WriteRun(t, id, run))
  {
    hide RollupOf;
    var u := WriteRun(t, id, run);
    forall k | k in u.suites && k != run.suite ensures RunsIn(u.runs, k) == RunsIn(t.runs, k) {
      OtherSuiteUnchanged(t.runs, id, run, k);
    }
  }

  lemma ValidatedIsConcluded(p: CreateParams)
    requires ValidateCreate(p).Ok?
    ensures var run := ValidateCreate(p).value; run.status == Completed ==> run.conclusion.Some?
  {
    hide TrimSpace;
  }

  lemma ResolvedIsConcluded(cur: Run, p: UpdateParams)
    requires ResolveUpdate(cur, p).Ok?
    ensures var run := ResolveUpdate(cur, p).value;
      && (run.status == Completed ==> run.conclusion.Some?)
      && run.suite == cur.suite && run.name == cur.name && run.externalId == cur.externalId
  {
    hide TrimSpace, ParseStatus, ParseConclusion;
  }

  lemma CreateKeepsValid(t: Tables, p: CreateParams, dbOk: bool)
    requires Valid(t)
    ensures Valid(AfterCreate(t, p, dbOk))
  {
    hide RollupOf, ValidateCreate, RollupsAgree;
    var run := ValidateCreate(p);
    if run.Ok? && dbOk && !HasExternal(t, run.value) {
      ValidatedIsConcluded(p);
      WriteKeepsRollups(t, t.nextRun, run.value);
      RollupsReadTables(WriteRun(t, t.nextRun, run.value), AfterCreate(t, p, dbOk));
      assert forall id | id in t.runs :: !SameExternal(t.runs[id], run.value);
    }
  }

  lemma RollupsReadTables(t: Tables, u: Tables)
    requires RollupsAgree(t) && t.runs == u.runs && t.suites == u.suites
    ensures RollupsAgree(u)
  {
    hide RollupOf;
  }

  lemma UpdateKeepsValid(t: Tables, p: UpdateParams, dbOk: bool)
    requires Valid(t)
    ensures Valid(AfterUpdate(t, p, dbOk))
  {
    hide RollupOf, ResolveUpdate, RollupsAgree;
    if p.run in t.runs {
      var run := ResolveUpdate(t.runs[p.run], p);
      if run.Ok? && dbOk {
        ResolvedIsConcluded(t.runs[p.run], p);
        WriteKeepsRollups(t, p.run, run.value);
      }
    }
  }

  // ----- runs

  datatype Step = Create(create: CreateParams, createOk: bool) | Update(update: UpdateParams, updateOk: bool)

  function Do(t: Tables, step: Step): Tables {
    match step
    case Create(p, ok) => AfterCreate(t, p, ok)
    case Update(p, ok) => AfterUpdate(t, p, ok)
  }

  function After(t: Tables, steps: seq<Step>): Tables
    decreases |steps|
  {
    if steps == [] then t else After(Do(t, steps[0]), steps[1..])
  }

  lemma {:induction false} RunKeepsValid(t: Tables, steps: seq<Step>)
    requires Valid(t)
    ensures Valid(After(t, steps))
    decreases |steps|
  {
    hide Valid, AfterCreate, AfterUpdate;
    if steps != [] {
      match steps[0] {
        case Create(p, ok) => CreateKeepsValid(t, p, ok);
        case Update(p, ok) => UpdateKeepsValid(t, p, ok);
      }
      RunKeepsValid(Do(t, steps[0]), steps[1..]);
    }
  }

  /** After any run, each stored suite equals the rollup recomputed from its runs, and a completed
      suite's conclusion is that of one of its runs, never the fallback. */
  lemma StoredRollupsAreRecomputed(steps: seq<Step>, k: SuiteKey)
    requires k in After(EMPTY, steps).suites
    ensures var t := After(EMPTY, steps);
      && t.suites[k] == RollupOf(RunsIn(t.runs, k))
      && (t.suites[k].status == Completed ==>
            exists c :: t.suites[k].conclusion == Some(c) && Concludes(RunsIn(t.runs, k), c))
  {
    hide RollupOf;
    RunKeepsValid(EMPTY, steps);
    var t := After(EMPTY, steps);
    var runs := RunsIn(t.runs, k);
    CompletedMeans(runs);
    if t.suites[k].status == Completed {
      ConclusionIsTheirs(runs);
    }
  }

  /** A retried Create with an external id changes nothing the second time. */
  lemma RetriedCreateIsIdempotent(t: Tables, p: CreateParams)
    requires p.externalId != ""
    ensures AfterCreate(AfterCreate(t, p, true), p, true) == AfterCreate(t, p, true)
  {
    hide RollupOf, TrimSpace, RunsIn;
    var run, u := ValidateCreate(p), AfterCreate(t, p, true);
    if run.Ok? && !HasExternal(t, run.value) {
      assert t.nextRun in u.runs && SameExternal(u.runs[t.nextRun], run.value);
      assert HasExternal(u, run.value);
    }
  }

  /** Neither does a retried Update. */
  lemma RetriedUpdateIsIdempotent(t: Tables, p: UpdateParams)
    ensures AfterUpdate(AfterUpdate(t, p, true), p, true) == AfterUpdate(t, p, true)
  {
    hide RollupOf, TrimSpace, RunsIn, ParseStatus, ParseConclusion;
    if p.run in t.runs && ResolveUpdate(t.runs[p.run], p).Ok? {
      var run := ResolveUpdate(t.runs[p.run], p).value;
      assert ResolveUpdate(run, p) == Ok(run);
      assert t.runs[p.run := run][p.run := run] == t.runs[p.run := run];
    }
  }

  function StatusName(status: Status): string {
    match status
    case Queued => "queued"
    case InProgress => "in_progress"
    case Completed => "completed"
    case Pending => "pending"
  }

  function OnlyStatus(run: int, status: string): UpdateParams {
    UpdateParams(run, Some(status), None, None, None, None, None)
  }

  lemma StatusNameReads(status: Status)
    ensures ParseStatus(TrimSpace(StatusName(status))) == Some(status)
  {
    var name := StatusName(status);
    assert SpaceAtFront(name) == 0 && SpaceAtBack(name) == 0;
  }

  /** No order of statuses is enforced: any status may follow any other, and nothing else changes,
      exactly when a completed run is left with a conclusion. */
  lemma StatusMayMoveAnywhere(cur: Run, run: int, next: Status)
    ensures ResolveUpdate(cur, OnlyStatus(run, StatusName(next))) ==
      if next == Completed && cur.conclusion.None? then Err(CompletedNeedsConclusion) else Ok(cur.(status := next))
  {
    StatusNameReads(next);
    hide TrimSpace, ParseStatus, ParseConclusion;
  }

  // ----- the tables as an object

  class Store {
    var runs: map<int, Run>
    var suites: map<SuiteKey, Outcome>
    var nextRun: int

    ghost function View(): Tables
      reads this
    {
      Tables(runs, suites, nextRun)
    }

    constructor ()
      ensures View() == EMPTY
    {
      runs, suites, nextRun := map[], map[], 1;
    }

    /** The states of the suite's runs, in some order. */
    method ListRunsBySuite(suite: SuiteKey) returns (list: seq<Outcome>)
      ensures AsSet(list) == RunsIn(runs, suite)
    {
      list := [];
      var todo, seen := runs.Keys, {};
      while todo != {}
        invariant todo !! seen && todo + seen == runs.Keys
        invariant AsSet(list) == set id | id in seen && runs[id].suite == suite :: Outcome(runs[id].status, runs[id].conclusion)
        decreases |todo|
      {
        var id := Pick(todo);
        todo, seen := todo - {id}, seen + {id};
        if runs[id].suite == suite {
          ghost var before := list;
          list := list + [Outcome(runs[id].status, runs[id].conclusion)];
          assert AsSet(list) == AsSet(before) + {Outcome(runs[id].status, runs[id].conclusion)};
        }
      }
    }

    method RollupSuite(suite: SuiteKey)
      modifies this`suites
      ensures suites == old(suites)[suite := RollupOf(RunsIn(runs, suite))]
    {
      var list := ListRunsBySuite(suite);
      var derived := DeriveSuiteRollup(list);
      suites := suites[suite := derived];
    }

    method Create(p: CreateParams, dbOk: bool) returns (r: Result<int>)
      modifies this
      ensures View() == AfterCreate(old(View()), p, dbOk)
      ensures r.Ok? <==> ValidateCreate(p).Ok? && dbOk
      ensures ValidateCreate(p).Err? ==> r == Err(ValidateCreate(p).error)
      ensures r.Ok? ==> r.value in runs
      ensures r.Ok? ==> runs[r.value] == ValidateCreate(p).value || SameExternal(runs[r.value], ValidateCreate(p).value)
    {
      hide RollupOf, ValidateCreate, RunsIn;
      var checked := ValidateCreate(p);
      if checked.Err? { return Err(checked.error); }
      if !dbOk { return Err(DatabaseError); }
      var run := checked.value;
      if id :| id in runs && SameExternal(runs[id], run) {
        return Ok(id);
      }
      r := Ok(nextRun);
      runs := runs[nextRun := run];
      RollupSuite(run.suite);
      nextRun := nextRun + 1;
    }

    method Update(p: UpdateParams, dbOk: bool) returns (r: Result<int>)
      modifies this
      ensures View() == AfterUpdate(old(View()), p, dbOk)
      ensures r == if p.run !in old(runs) then Err(RunNotFound)
        else if ResolveUpdate(old(runs)[p.run], p).Err? then Err(ResolveUpdate(old(runs)[p.run], p).error)
        else if !dbOk then Err(DatabaseError) else Ok(p.run)
    {
      hide RollupOf, ResolveUpdate, RunsIn;
      if p.run !in runs { return Err(RunNotFound); }
      var run := ResolveUpdate(runs[p.run], p);
      if run.Err? { return Err(run.error); }
      if !dbOk { return Err(DatabaseError); }
      ResolvedIsConcluded(runs[p.run], p);
      runs := runs[p.run := run.value];
      RollupSuite(run.value.suite);
      return Ok(p.run);
    }
  }

  // ----- the required-checks gate

  predicate IsFor(run: Run, repo: int, headSha: string, name: string) {
    run.suite.repo == repo && run.suite.headSha == headSha && run.name == name
  }

  /** The most recently created run of the name on the commit. */
  predicate IsLatest(runs: map<int, Run>, repo: int, headSha: string, name: string, id: int) {
    && id in runs && IsFor(runs[id], repo, headSha, name)
    && forall other | other in runs && IsFor(runs[other], repo, headSha, name) :: other <= id
  }

  predicate RunSatisfies(run: Run) {
    run.status == Completed && (run.conclusion == Some(Success) || run.conclusion == Some(Neutral))
  }

  ghost predicate Passes(runs: map<int, Run>, repo: int, headSha: string, name: string) {
    exists id :: IsLatest(runs, repo, headSha, name, id) && RunSatisfies(runs[id])
  }

  method LatestByName(runs: map<int, Run>, repo: int, headSha: string, name: string) returns (latest: Option<int>)
    ensures latest.Some? ==> IsLatest(runs, repo, headSha, name, latest.value)
    ensures latest.None? ==> forall id | id in runs :: !IsFor(runs[id], repo, headSha, name)
  {
    latest := None;
    var todo := runs.Keys;
    while todo != {}
      invariant todo <= runs.Keys
      invariant latest.Some? ==> latest.value in runs && IsFor(runs[latest.value], repo, headSha, name)
      invariant forall id | id in runs && id !in todo && IsFor(runs[id], repo, headSha, name) ::
        latest.Some? && id <= latest.value
      decreases |todo|
    {
      var id := Pick(todo);
      todo := todo - {id};
      if IsFor(runs[id], repo, headSha, name) && (latest.None? || latest.value < id) {
        latest := Some(id);
      }
    }
  }

  ghost function Failing(runs: map<int, Run>, repo: int, headSha: string, names: seq<string>): seq<string> {
    if names == [] then []
    else
      var last := names[|names| - 1];
      Failing(runs, repo, headSha, names[..|names| - 1])
      + (if headSha != "" && Passes(runs, repo, headSha, last) then [] else [last])
  }

  lemma {:induction false} FailingMeans(runs: map<int, Run>, repo: int, headSha: string, names: seq<string>, n: string)
    ensures n in Failing(runs, repo, headSha, names) <==>
      n in names && !(headSha != "" && Passes(runs, repo, headSha, n))
  {
    hide Passes;
    if names != [] {
      FailingMeans(runs, repo, headSha, names[..|names| - 1], n);
      assert names == names[..|names| - 1] + [names[|names| - 1]];
    }
  }

  lemma {:induction false} AllFailWithoutHead(runs: map<int, Run>, repo: int, headSha: string, names: seq<string>)
    requires headSha == ""
    ensures Failing(runs, repo, headSha, names) == names
  {
    hide Passes;
    if names != [] {
      var rest, last := names[..|names| - 1], names[|names| - 1];
      AllFailWithoutHead(runs, repo, headSha, rest);
      assert names == rest + [last];
      assert Failing(runs, repo, headSha, names) == Failing(runs, repo, headSha, rest) + [last];
    }
  }

  /** The missing names are those whose latest run on the commit has not completed with success or
      neutral, in the order they are required; the gate opens exactly when there are none. */
  method EvaluateRequiredChecks(runs: map<int, Run>, repo: int, headSha: string, names: seq<string>,
                                lookupOk: string -> bool)
    returns (satisfied: bool, missing: seq<string>, ok: bool)
    ensures ok ==> missing == Failing(runs, repo, headSha, names)
    ensures ok ==> (satisfied <==> forall n | n in names :: headSha != "" && Passes(runs, repo, headSha, n))
    ensures !ok ==> !satisfied && exists n | n in names :: !lookupOk(n)
  {
    if names == [] { return true, [], true; }
    if headSha == "" {
      AllFailWithoutHead(runs, repo, headSha, names);
      assert names[0] in names;
      return false, names, true;
    }
    missing := [];
    for i := 0 to |names|
      invariant missing == Failing(runs, repo, headSha, names[..i])
    {
      hide Failing;
      if !lookupOk(names[i]) { return false, [], false; }
      var latest := LatestByName(runs, repo, headSha, names[i]);
      AddFailing(runs, repo, headSha, names, i);
      if latest.None? {
        missing := missing + [names[i]];
      } else if !RunSatisfies(runs[latest.value]) {
        missing := missing + [names[i]];
      }
    }
    assert names[..|names|] == names;
    satisfied, ok := missing == [], true;
    forall n ensures n in missing <==> n in names && !Passes(runs, repo, headSha, n) {
      FailingMeans(runs, repo, headSha, names, n);
    }
    if missing != [] {
      assert missing[0] in missing;
    }
  }

  lemma AddFailing(runs: map<int, Run>, repo: int, headSha: string, names: seq<string>, i: nat)
    requires i < |names| && headSha != ""
    ensures Failing(runs, repo, headSha, names[..i + 1]) ==
      Failing(runs, repo, headSha, names[..i]) + (if Passes(runs, repo, headSha, names[i]) then [] else [names[i]])
  {
    assert names[..i + 1][..i] == names[..i];
  }
}
