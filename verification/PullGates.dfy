/** The steps behind every merge: which answers a run has heard before a Merge commits. */
module PullGates {
  import opened Prelude
  import opened PullProtocol

  /** The state before step i. */
  ghost function StateAt(key: LockKeyOf, s: State, steps: seq<Step>, i: nat): State
    requires IsRun(key, s, steps) && i <= |steps|
    decreases i
  {
    if i == 0 then s else StateAt(key, Do(key, s, steps[0]), steps[1..], i - 1)
  }

  function Stage(pc: MergePc): int {
    match pc
    case Waiting => 0
    case RowLocked => 1
    case OpenSeen => 2
    case CleanSeen => 3
    case Reviewed => 4
    case Checked => 5
    case GitMerged => 6
    case Done => -1
  }

  /** The Merge holds this row of this pull request and has come at least so far. */
  predicate Past(s: State, id: TxId, p: PrId, row: Pr, stage: int) {
    id in s.merges && s.merges[id].pr == p && s.merges[id].row == row && Stage(s.merges[id].pc) >= stage
  }

  /** The step by which a Merge comes to a stage, the answer it carries and the row it finds. */
  ghost predicate Enters(s: State, step: Step, id: TxId, p: PrId, row: Pr, stage: int) {
    if stage == 1 then step == LockRow(id) && p in s.prs && s.prs[p] == row && !row.merged
    else if stage == 2 then step == ReadIssue(id) && p in s.prs && s.prs[p].open
    else if stage == 3 then
      step.ProbeAncestor? && step.id == id && row.clean
      && (row.headOid == "" || row.baseOid == "" || step.answer != Some(true))
    else if stage == 4 then step == ReviewGate(id, true)
    else if stage == 5 then step == ChecksGate(id, true)
    else step == PerformMerge(id)
  }

  lemma StageIsEntered(key: LockKeyOf, s: State, step: Step, id: TxId, p: PrId, row: Pr, stage: int)
    requires Enabled(key, s, step) && 1 <= stage <= 6
    requires Past(Do(key, s, step), id, p, row, stage) && !Past(s, id, p, row, stage)
    ensures Enters(s, step, id, p, row, stage)
  {
    if !MergeEnabled(s, step) {
      RestKeepsMerges(key, s, step);
    } else {
      MergeStepEnters(s, step, id, p, row, stage);
    }
  }

  lemma RestKeepsMerges(key: LockKeyOf, s: State, step: Step)
    requires Enabled(key, s, step) && !MergeEnabled(s, step)
    ensures Do(key, s, step).merges == s.merges
  {
  }

  lemma MergeStepEnters(s: State, step: Step, id: TxId, p: PrId, row: Pr, stage: int)
    requires MergeEnabled(s, step) && 1 <= stage <= 6
    requires Past(MergeDo(s, step), id, p, row, stage) && !Past(s, id, p, row, stage)
    ensures Enters(s, step, id, p, row, stage)
  {
    MergeStepTouchesOne(s, step);
  }

  /** Where a Merge has come, a step of the run has brought it. */
  lemma {:induction false} StageWasEntered(key: LockKeyOf, s: State, steps: seq<Step>, id: TxId, p: PrId, row: Pr, stage: int)
    returns (i: nat)
    requires IsRun(key, s, steps) && 1 <= stage <= 6
    requires Past(After(key, s, steps), id, p, row, stage) && !Past(s, id, p, row, stage)
    ensures i < |steps| && Enters(StateAt(key, s, steps, i), steps[i], id, p, row, stage)
    decreases |steps|
  {
    hide Enabled, Do, Enters, Past;
    var t := Do(key, s, steps[0]);
    if Past(t, id, p, row, stage) {
      StageIsEntered(key, s, steps[0], id, p, row, stage);
      i := 0;
    } else {
      var j := StageWasEntered(key, t, steps[1..], id, p, row, stage);
      i := j + 1;
    }
  }

  /** Before a Merge commits, in every interleaving, the run has: locked the row when it was unmerged and
      clean, with the head and base it has now; seen it open; not heard that the head is in the base,
      unless an object id was missing; and heard yes from the review gate and from the checks gate. */
  lemma EveryMergePassedItsGates(key: LockKeyOf, steps: seq<Step>, id: TxId)
    requires IsRun(key, INIT, steps) && Enabled(key, After(key, INIT, steps), CommitMerge(id))
    ensures var s := After(key, INIT, steps);
      var p := s.merges[id].pr;
      && (exists i | 0 <= i < |steps| ::
            var r := StateAt(key, INIT, steps, i);
            && steps[i] == LockRow(id) && p in r.prs && !r.prs[p].merged && r.prs[p].clean
            && r.prs[p].headOid == s.prs[p].headOid && r.prs[p].baseOid == s.prs[p].baseOid)
      && (exists i | 0 <= i < |steps| ::
            var r := StateAt(key, INIT, steps, i);
            steps[i] == ReadIssue(id) && p in r.prs && r.prs[p].open)
      && (exists i | 0 <= i < |steps| ::
            && steps[i].ProbeAncestor? && steps[i].id == id
            && (s.prs[p].headOid == "" || s.prs[p].baseOid == "" || steps[i].answer != Some(true)))
      && ReviewGate(id, true) in steps && ChecksGate(id, true) in steps
  {
    hide *;
    var row := MergedRow(key, steps, id);
    var p := After(key, INIT, steps).merges[id].pr;
    var lock := CommitEntered(key, steps, id, row, 1);
    var open := CommitEntered(key, steps, id, row, 2);
    var ancestor := CommitEntered(key, steps, id, row, 3);
    var review := CommitEntered(key, steps, id, row, 4);
    var checks := CommitEntered(key, steps, id, row, 5);
    EntersMeans(StateAt(key, INIT, steps, lock), steps[lock], id, p, row);
    EntersMeans(StateAt(key, INIT, steps, open), steps[open], id, p, row);
    EntersMeans(StateAt(key, INIT, steps, ancestor), steps[ancestor], id, p, row);
    EntersMeans(StateAt(key, INIT, steps, review), steps[review], id, p, row);
    EntersMeans(StateAt(key, INIT, steps, checks), steps[checks], id, p, row);
    assert steps[review] in steps && steps[checks] in steps;
  }

  lemma MergedRow(key: LockKeyOf, steps: seq<Step>, id: TxId) returns (row: Pr)
    requires IsRun(key, INIT, steps) && Enabled(key, After(key, INIT, steps), CommitMerge(id))
    ensures var s := After(key, INIT, steps);
      && id in s.merges && row == s.merges[id].row && s.merges[id].pr in s.prs
      && row.headOid == s.prs[s.merges[id].pr].headOid && row.baseOid == s.prs[s.merges[id].pr].baseOid
  {
    CommitMergesWhatWasChecked(key, steps, id);
    hide IsRun, After;
    row := After(key, INIT, steps).merges[id].row;
  }

  lemma CommitEntered(key: LockKeyOf, steps: seq<Step>, id: TxId, row: Pr, stage: int) returns (i: nat)
    requires IsRun(key, INIT, steps) && Enabled(key, After(key, INIT, steps), CommitMerge(id)) && 1 <= stage <= 5
    requires id in After(key, INIT, steps).merges && row == After(key, INIT, steps).merges[id].row
    ensures i < |steps| && Enters(StateAt(key, INIT, steps, i), steps[i], id, After(key, INIT, steps).merges[id].pr, row, stage)
  {
    hide IsRun, After, Enters, StateAt;
    var s := After(key, INIT, steps);
    assert Past(s, id, s.merges[id].pr, row, stage) && !Past(INIT, id, s.merges[id].pr, row, stage);
    i := StageWasEntered(key, INIT, steps, id, s.merges[id].pr, row, stage);
  }

  lemma EntersMeans(r: State, step: Step, id: TxId, p: PrId, row: Pr)
    ensures Enters(r, step, id, p, row, 1) ==>
      step == LockRow(id) && p in r.prs && !r.prs[p].merged && r.prs[p].headOid == row.headOid && r.prs[p].baseOid == row.baseOid
    ensures Enters(r, step, id, p, row, 1) ==> r.prs[p].clean == row.clean
    ensures Enters(r, step, id, p, row, 2) ==> step == ReadIssue(id) && p in r.prs && r.prs[p].open
    ensures Enters(r, step, id, p, row, 3) ==>
      step.ProbeAncestor? && step.id == id && row.clean
      && (row.headOid == "" || row.baseOid == "" || step.answer != Some(true))
    ensures Enters(r, step, id, p, row, 4) ==> step == ReviewGate(id, true)
    ensures Enters(r, step, id, p, row, 5) ==> step == ChecksGate(id, true)
  {
  }

  // ----- what every pull request merges

  predicate TwoBranches(b: Branches) {
    b.base != "" && b.head != "" && b.base != b.head
  }

  ghost predicate BranchesDiffer(s: State) {
    && (forall i | i in s.creates :: TwoBranches(s.creates[i].branches) && s.creates[i].baseOid != s.creates[i].headOid)
    && (forall p | p in s.prs :: TwoBranches(s.prs[p].branches))
  }

  ghost predicate NewOnesDiffer(s: State, t: State) {
    forall p | p in t.prs && p !in s.prs :: t.prs[p].baseOid != t.prs[p].headOid
  }

  lemma StepKeepsBranches(key: LockKeyOf, s: State, step: Step)
    requires BranchesDiffer(s) && Enabled(key, s, step)
    ensures BranchesDiffer(Do(key, s, step)) && NewOnesDiffer(s, Do(key, s, step))
  {
    hide BranchesDiffer, NewOnesDiffer, CreateDo, MergeDo;
    if CreateEnabled(key, s, step) {
      CreateStepKeepsBranches(key, s, step);
    } else if MergeEnabled(s, step) {
      MergeStepKeepsBranches(s, step);
    } else {
      RestKeepsBranches(key, s, step);
    }
  }

  lemma CreateStepKeepsBranches(key: LockKeyOf, s: State, step: Step)
    requires BranchesDiffer(s) && CreateEnabled(key, s, step)
    ensures BranchesDiffer(CreateDo(key, s, step)) && NewOnesDiffer(s, CreateDo(key, s, step))
  {
    hide OpenOn;
  }

  lemma RestKeepsBranches(key: LockKeyOf, s: State, step: Step)
    requires BranchesDiffer(s) && Enabled(key, s, step) && (step.Close? || step.Update?)
    ensures BranchesDiffer(Do(key, s, step)) && NewOnesDiffer(s, Do(key, s, step))
  {
  }

  lemma MergeStepKeepsBranches(s: State, step: Step)
    requires MergeEnabled(s, step)
    requires BranchesDiffer(s)
    ensures BranchesDiffer(MergeDo(s, step)) && NewOnesDiffer(s, MergeDo(s, step))
  {
    MergeStepOnlyCloses(s, step);
    hide MergeDo;
  }

  lemma {:induction false} RunKeepsBranches(key: LockKeyOf, s: State, steps: seq<Step>)
    requires BranchesDiffer(s) && IsRun(key, s, steps)
    ensures BranchesDiffer(After(key, s, steps))
    decreases |steps|
  {
    hide BranchesDiffer, Enabled, Do;
    if steps != [] {
      StepKeepsBranches(key, s, steps[0]);
      RunKeepsBranches(key, Do(key, s, steps[0]), steps[1..]);
    }
  }

  /** In every interleaving each pull request has two named branches that differ, and one that a step adds
      starts with two different commits. */
  lemma EveryPullHasTwoBranches(key: LockKeyOf, steps: seq<Step>, step: Step)
    requires IsRun(key, INIT, steps) && Enabled(key, After(key, INIT, steps), step)
    ensures var s := After(key, INIT, steps);
      var t := Do(key, s, step);
      && (forall p | p in t.prs :: t.prs[p].branches.base != "" && t.prs[p].branches.head != ""
            && t.prs[p].branches.base != t.prs[p].branches.head)
      && (forall p | p in t.prs && p !in s.prs :: t.prs[p].baseOid != t.prs[p].headOid)
  {
    RunKeepsBranches(key, INIT, steps);
    StepKeepsBranches(key, After(key, INIT, steps), step);
    hide IsRun, After, Enabled, Do;
  }
}
