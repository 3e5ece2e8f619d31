/** What the checks mean for a caller: when the gate opens, which runs are accepted and which are retries. */
module CheckGate {
  import opened Prelude
  import opened SearchText
  import opened CheckRollup
  import opened CheckStore
  import opened CheckOverlap

  // ----- the gate

  /** A required name passes when, among its runs on the commit, the one created last has completed with
      success or neutral. */
  lemma PassesIff(runs: map<int, Run>, repo: int, headSha: string, name: string)
    ensures Passes(runs, repo, headSha, name) <==>
      exists id | id in runs ::
        && runs[id].suite.repo == repo && runs[id].suite.headSha == headSha && runs[id].name == name
        && runs[id].status == Completed && (runs[id].conclusion == Some(Success) || runs[id].conclusion == Some(Neutral))
        && forall other | other in runs && other > id ::
             runs[other].suite.repo != repo || runs[other].suite.headSha != headSha || runs[other].name != name
  {
    if id :| IsLatest(runs, repo, headSha, name, id) && RunSatisfies(runs[id]) {
      forall other | other in runs && other > id ensures !IsFor(runs[other], repo, headSha, name) {
      }
    }
    forall id | id in runs && IsFor(runs[id], repo, headSha, name)
      ensures IsLatest(runs, repo, headSha, name, id) <==>
        forall other | other in runs && other > id :: !IsFor(runs[other], repo, headSha, name)
    {
    }
  }

  /** The newest run of a name on a commit decides alone: a write that is or stays the newest opens or closes
      the gate by its own state, any other leaves it as it was. */
  lemma NewestDecides(runs: map<int, Run>, id: int, run: Run)
    requires id in runs ==> SameCheck(runs[id], run)
    ensures var repo, headSha, name := run.suite.repo, run.suite.headSha, run.name;
      Passes(runs[id := run], repo, headSha, name) <==>
        if exists other | other in runs && other > id ::
             runs[other].suite.repo == repo && runs[other].suite.headSha == headSha && runs[other].name == name
        then Passes(runs, repo, headSha, name)
        else run.status == Completed && (run.conclusion == Some(Success) || run.conclusion == Some(Neutral))
  {
    var repo, headSha, name := run.suite.repo, run.suite.headSha, run.name;
    var after := runs[id := run];
    hide RunSatisfies;
    if newer :| newer in runs && newer > id && IsFor(runs[newer], repo, headSha, name) {
      NewerKeepsLatest(runs, id, run, newer);
    } else {
      assert IsLatest(after, repo, headSha, name, id);
      LatestIsUnique(after, repo, headSha, name, id);
    }
    assert RunSatisfies(run) <==> run.status == Completed && (run.conclusion == Some(Success) || run.conclusion == Some(Neutral))
      by { SatisfiesMeans(run); }
  }

  lemma SatisfiesMeans(run: Run)
    ensures RunSatisfies(run) <==> run.status == Completed && (run.conclusion == Some(Success) || run.conclusion == Some(Neutral))
  {
  }

  lemma LatestIsUnique(runs: map<int, Run>, repo: int, headSha: string, name: string, id: int)
    requires IsLatest(runs, repo, headSha, name, id)
    ensures Passes(runs, repo, headSha, name) <==> RunSatisfies(runs[id])
  {
    hide RunSatisfies;
    assert forall other | IsLatest(runs, repo, headSha, name, other) :: other == id;
  }

  lemma NewerKeepsLatest(runs: map<int, Run>, id: int, run: Run, newer: int)
    requires newer in runs && newer > id && (id in runs ==> SameCheck(runs[id], run))
    requires IsFor(runs[newer], run.suite.repo, run.suite.headSha, run.name)
    ensures var repo, headSha, name := run.suite.repo, run.suite.headSha, run.name;
      Passes(runs[id := run], repo, headSha, name) <==> Passes(runs, repo, headSha, name)
  {
    var repo, headSha, name := run.suite.repo, run.suite.headSha, run.name;
    var after := runs[id := run];
    hide RunSatisfies;
    forall other ensures IsLatest(after, repo, headSha, name, other) <==> IsLatest(runs, repo, headSha, name, other) {
      if IsLatest(after, repo, headSha, name, other) || IsLatest(runs, repo, headSha, name, other) {
        assert newer in after && newer <= other;
        assert forall x | x in runs && x != id :: x in after && after[x] == runs[x];
        assert forall x | x in after && x != id :: x in runs;
      }
    }
    assert forall x | x in runs && x != id :: after[x] == runs[x];
    assert forall other | IsLatest(runs, repo, headSha, name, other) :: other >= newer;
  }

  /** Other names, and other commits, do not notice. */
  lemma OthersDoNotNotice(runs: map<int, Run>, id: int, run: Run, repo: int, headSha: string, name: string)
    requires id in runs ==> SameCheck(runs[id], run)
    requires run.suite.repo != repo || run.suite.headSha != headSha || run.name != name
    ensures Passes(runs[id := run], repo, headSha, name) <==> Passes(runs, repo, headSha, name)
  {
    var after := runs[id := run];
    forall other ensures IsLatest(after, repo, headSha, name, other) <==> IsLatest(runs, repo, headSha, name, other) {
      assert forall x | x in runs && x != id :: x in after && after[x] == runs[x];
      assert forall x | x in after && x != id :: x in runs;
    }
    assert forall other | IsLatest(runs, repo, headSha, name, other) :: other != id && after[other] == runs[other];
  }

  /** So a new run of a required name that has not passed yet closes the gate. */
  lemma NewRunClosesGate(t: Tables, p: CreateParams)
    requires Valid(t) && ValidateCreate(p).Ok? && !HasExternal(t, ValidateCreate(p).value)
    ensures var run := ValidateCreate(p).value;
      Passes(AfterCreate(t, p, true).runs, run.suite.repo, run.suite.headSha, run.name) <==>
        run.status == Completed && (run.conclusion == Some(Success) || run.conclusion == Some(Neutral))
  {
    hide ValidateCreate, HasExternal, Passes, RollupOf, RunsIn;
    var run := ValidateCreate(p).value;
    assert forall id | id in t.runs :: id < t.nextRun;
    NewestDecides(t.runs, t.nextRun, run);
  }

  // ----- which runs are accepted

  function ConclusionName(c: Conclusion): string {
    match c
    case Success => "success"
    case Failure => "failure"
    case Neutral => "neutral"
    case Cancelled => "cancelled"
    case Skipped => "skipped"
    case TimedOut => "timed_out"
    case ActionRequired => "action_required"
    case Stale => "stale"
  }

  /** A text is read as a status, or as a conclusion, exactly when it is its name. */
  lemma NamesAreRead(text: string, status: Status, c: Conclusion)
    ensures ParseStatus(text) == Some(status) <==> text == StatusName(status)
    ensures ParseConclusion(text) == Some(c) <==> text == ConclusionName(c)
  {
  }

  /** A new run is accepted exactly when its trimmed name has 1 to 200 bytes, its trimmed commit 7 to 64, its
      status (queued when blank) and its conclusion, if any, are names, a completed one has a conclusion, and
      text and summary have at most 256 and 64 KiB. It then has what was given. */
  lemma CreateAcceptedIff(p: CreateParams, status: Status)
    requires OrDefault(TrimSpace(p.status), "queued") == StatusName(status)
    ensures ValidateCreate(p).Ok? <==>
      && 1 <= |TrimSpace(p.name)| <= 200 && 7 <= |TrimSpace(p.headSha)| <= 64
      && (p.conclusion == "" || exists c :: p.conclusion == ConclusionName(c))
      && (status == Completed ==> p.conclusion != "")
      && |p.output.text| <= 262144 && |p.output.summary| <= 65536
    ensures ValidateCreate(p).Ok? ==>
      var run := ValidateCreate(p).value;
      && run.name == TrimSpace(p.name) && run.status == status
      && run.suite.repo == p.repo && run.suite.headSha == TrimSpace(p.headSha)
      && run.suite.appSlug == (if TrimSpace(p.appSlug) == "" then "external" else TrimSpace(p.appSlug))
      && (if p.conclusion == "" then run.conclusion.None?
          else run.conclusion.Some? && p.conclusion == ConclusionName(run.conclusion.value))
      && (if p.externalId == "" then run.externalId.None? else run.externalId == Some(p.externalId))
      && run.output == p.output && run.startedAt == p.startedAt && run.completedAt == p.completedAt
  {
    NamesAreRead(OrDefault(TrimSpace(p.status), "queued"), status, Success);
    var c := ParseConclusion(p.conclusion);
    if c.Some? {
      NamesAreRead(p.conclusion, status, c.value);
    }
    forall d ensures p.conclusion == ConclusionName(d) ==> c == Some(d) {
      NamesAreRead(p.conclusion, status, d);
    }
    hide TrimSpace, ParseStatus, ParseConclusion, ConclusionName, StatusName;
  }

  /** A status text that names no status is refused. */
  lemma OtherStatusRefused(p: CreateParams)
    requires forall status :: OrDefault(TrimSpace(p.status), "queued") != StatusName(status)
    ensures ValidateCreate(p).Err?
  {
    var text := OrDefault(TrimSpace(p.status), "queued");
    if ParseStatus(text).Some? {
      NamesAreRead(text, ParseStatus(text).value, Success);
    }
    hide TrimSpace, ParseStatus, ParseConclusion, StatusName;
  }

  /** An accepted Create adds one run exactly when no run of the repository, commit and name has its external
      id, or it has none; otherwise nothing changes. */
  lemma CreateAddsIff(t: Tables, p: CreateParams)
    requires ValidateCreate(p).Ok? && IdsBelowNext(t)
    ensures var run, u := ValidateCreate(p).value, AfterCreate(t, p, true);
      if run.externalId.Some?
         && exists id | id in t.runs ::
              && t.runs[id].suite.repo == run.suite.repo && t.runs[id].suite.headSha == run.suite.headSha
              && t.runs[id].name == run.name && t.runs[id].externalId == run.externalId
      then u == t
      else t.nextRun !in t.runs && u.runs == t.runs[t.nextRun := run] && u.nextRun > t.nextRun
  {
    hide ValidateCreate, RollupOf, RunsIn;
    var run := ValidateCreate(p).value;
    if id :| id in t.runs && SameExternal(t.runs[id], run) {
      assert HasExternal(t, run);
    }
  }

  /** An Update whose texts are names, or a blank conclusion, sets what it is given and keeps the rest, unless a
      completed run would have no conclusion or a text is too long. */
  lemma UpdateSets(cur: Run, p: UpdateParams, status: Status, conclusion: Option<Conclusion>)
    requires if p.status.Some? then TrimSpace(p.status.value) == StatusName(status) else status == cur.status
    requires if p.conclusion.None? then conclusion == cur.conclusion
      else TrimSpace(p.conclusion.value) == if conclusion.Some? then ConclusionName(conclusion.value) else ""
    ensures var long := p.output.Some? && (|p.output.value.text| > 262144 || |p.output.value.summary| > 65536);
      && (ResolveUpdate(cur, p).Ok? <==> !(status == Completed && conclusion.None?) && !long)
      && (ResolveUpdate(cur, p).Ok? ==>
            var run := ResolveUpdate(cur, p).value;
            && run.suite == cur.suite && run.name == cur.name && run.externalId == cur.externalId
            && run.status == status && run.conclusion == conclusion
            && run.startedAt == (if p.startedAt.Some? then p.startedAt.value else cur.startedAt)
            && run.completedAt == (if p.completedAt.Some? then p.completedAt.value else cur.completedAt)
            && run.detailsUrl == (if p.detailsUrl.Some? then p.detailsUrl.value else cur.detailsUrl)
            && run.output == (if p.output.Some? then p.output.value else cur.output))
  {
    if p.status.Some? {
      NamesAreRead(TrimSpace(p.status.value), status, Success);
    }
    if p.conclusion.Some? && conclusion.Some? {
      NamesAreRead(TrimSpace(p.conclusion.value), status, conclusion.value);
    }
    BlankIsNoConclusion();
    hide TrimSpace, ParseStatus, ParseConclusion, ConclusionName, StatusName;
  }

  lemma BlankIsNoConclusion()
    ensures ParseConclusion("").None? && forall c :: ConclusionName(c) != ""
  {
  }
}
