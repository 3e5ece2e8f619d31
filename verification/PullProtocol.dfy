/** Concurrent pull-request Create and Merge transactions over the committed rows: Create takes an
    advisory lock on a hash of the branches, Merge locks the row. Any number of both run at once,
    beside plain closes and branch or mergeability updates. */
module PullProtocol {
  import opened Prelude

  type PrId = int
  type TxId = int
  type Oid = string

  datatype Branches = Branches(repo: int, base: string, head: string)

  datatype Pr = Pr(branches: Branches, open: bool, merged: bool, clean: bool, headOid: Oid, baseOid: Oid)

  datatype CreatePc = Begun | KeyLocked | ProbedNone | Inserted | Ended
  datatype CreateTx = CreateTx(branches: Branches, pc: CreatePc, baseOid: Oid, headOid: Oid)

  datatype AncestorAnswer = NotAsked | ProbeFailed | NotAncestor | IsAncestor

  /** What the gates answered so far. */
  datatype Evidence = Evidence(sawOpen: bool, ancestor: AncestorAnswer, clean: bool, review: bool, checks: bool)

  const NO_EVIDENCE := Evidence(false, NotAsked, false, false, false)

  datatype MergePc = Waiting | RowLocked | OpenSeen | CleanSeen | Reviewed | Checked | GitMerged | Done
  datatype MergeTx = MergeTx(pr: PrId, pc: MergePc, row: Pr, evidence: Evidence)

  /** A committed merge, with the object ids it wrote into the row. */
  datatype MergeRecord = MergeRecord(pr: PrId, headOid: Oid, baseOid: Oid, evidence: Evidence)

  datatype State = State(
    prs: map<PrId, Pr>,              // committed rows
    creates: map<TxId, CreateTx>,
    merges: map<TxId, MergeTx>,
    keyLocks: map<int, TxId>,        // advisory locks
    rowLocks: map<PrId, TxId>,
    merged: seq<MergeRecord>)

  const INIT := State(map[], map[], map[], map[], map[], [])

  datatype Step =
    // Create
    | BeginCreate(id: TxId, branches: Branches, baseOid: Oid, headOid: Oid)
    | LockKey(id: TxId)
    | ProbeDuplicate(id: TxId)
    | Insert(id: TxId)
    | CommitCreate(id: TxId, pr: PrId)
    | RollbackCreate(id: TxId)
    // Merge
    | BeginMerge(id: TxId, pr: PrId)
    | LockRow(id: TxId)
    | ReadIssue(id: TxId)
    | ProbeAncestor(id: TxId, answer: Option<bool>)
    | ReviewGate(id: TxId, satisfied: bool)
    | ChecksGate(id: TxId, satisfied: bool)
    | PerformMerge(id: TxId)
    | CommitMerge(id: TxId)
    | RollbackMerge(id: TxId)
    // the rest of the system
    | Close(pr: PrId)
    | Update(pr: PrId, clean: bool, headOid: Oid, baseOid: Oid)

  /** createLockKey is any function of the branches: nothing rests on it being injective. */
  type LockKeyOf = Branches -> int

  // ----- Create

  predicate CreateAt(s: State, id: TxId, pc: CreatePc) {
    id in s.creates && s.creates[id].pc == pc
  }

  predicate OpenOn(s: State, b: Branches) {
    exists p :: p in s.prs && s.prs[p].open && s.prs[p].branches == b
  }

  function EndCreate(s: State, id: TxId): State
    requires id in s.creates
  {
    s.(creates := s.creates[id := s.creates[id].(pc := Ended)],
       keyLocks := map k | k in s.keyLocks && s.keyLocks[k] != id :: s.keyLocks[k])
  }

  predicate CreateEnabled(key: LockKeyOf, s: State, step: Step) {
    match step
    case BeginCreate(id, b, baseOid, headOid) =>
      id !in s.creates && b.base != "" && b.head != "" && b.base != b.head && baseOid != headOid
    case LockKey(id) => CreateAt(s, id, Begun) && key(s.creates[id].branches) !in s.keyLocks
    case ProbeDuplicate(id) => CreateAt(s, id, KeyLocked)
    case Insert(id) => CreateAt(s, id, ProbedNone)
    case CommitCreate(id, pr) => CreateAt(s, id, Inserted) && pr !in s.prs
    case RollbackCreate(id) => id in s.creates && !CreateAt(s, id, Ended)
    case _ => false
  }

  function CreateDo(key: LockKeyOf, s: State, step: Step): State
    requires CreateEnabled(key, s, step)
  {
    match step
    case BeginCreate(id, b, baseOid, headOid) => s.(creates := s.creates[id := CreateTx(b, Begun, baseOid, headOid)])
    case LockKey(id) =>
      s.(creates := s.creates[id := s.creates[id].(pc := KeyLocked)],
         keyLocks := s.keyLocks[key(s.creates[id].branches) := id])
    case ProbeDuplicate(id) =>
      if OpenOn(s, s.creates[id].branches) then EndCreate(s, id)
      else s.(creates := s.creates[id := s.creates[id].(pc := ProbedNone)])
    case Insert(id) => s.(creates := s.creates[id := s.creates[id].(pc := Inserted)])
    case CommitCreate(id, pr) =>
      var tx := s.creates[id];
      EndCreate(s, id).(prs := s.prs[pr := Pr(tx.branches, true, false, false, tx.headOid, tx.baseOid)])
    case RollbackCreate(id) => EndCreate(s, id)
  }

  // ----- Merge

  predicate MergeAt(s: State, id: TxId, pc: MergePc) {
    id in s.merges && s.merges[id].pc == pc
  }

  function EndMerge(s: State, id: TxId): State
    requires id in s.merges
  {
    s.(merges := s.merges[id := s.merges[id].(pc := Done)],
       rowLocks := map p | p in s.rowLocks && s.rowLocks[p] != id :: s.rowLocks[p])
  }

  function Advance(s: State, id: TxId, pc: MergePc, evidence: Evidence): State
    requires id in s.merges
  {
    s.(merges := s.merges[id := s.merges[id].(pc := pc, evidence := evidence)])
  }

  predicate MergeEnabled(s: State, step: Step) {
    match step
    case BeginMerge(id, pr) => id !in s.merges
    case LockRow(id) => MergeAt(s, id, Waiting) && s.merges[id].pr in s.prs && s.merges[id].pr !in s.rowLocks
    case ReadIssue(id) => MergeAt(s, id, RowLocked)
    case ProbeAncestor(id, answer) => MergeAt(s, id, OpenSeen)
    case ReviewGate(id, satisfied) => MergeAt(s, id, CleanSeen)
    case ChecksGate(id, satisfied) => MergeAt(s, id, Reviewed)
    case PerformMerge(id) => MergeAt(s, id, Checked)
    case CommitMerge(id) => MergeAt(s, id, GitMerged) && s.merges[id].pr in s.prs
    case RollbackMerge(id) => id in s.merges && !MergeAt(s, id, Done)
    case _ => false
  }

  function Ancestor(row: Pr, answer: Option<bool>): AncestorAnswer {
    if row.headOid == "" || row.baseOid == "" then NotAsked
    else if answer.None? then ProbeFailed
    else if answer.value then IsAncestor else NotAncestor
  }

  function MergeDo(s: State, step: Step): State
    requires MergeEnabled(s, step)
  {
    match step
    case BeginMerge(id, pr) =>
      s.(merges := s.merges[id := MergeTx(pr, Waiting, Pr(Branches(0, "", ""), false, false, false, "", ""), NO_EVIDENCE)])
    case LockRow(id) =>
      var row := s.prs[s.merges[id].pr];
      if row.merged then EndMerge(s, id)
      else
        s.(merges := s.merges[id := s.merges[id].(pc := RowLocked, row := row)],
           rowLocks := s.rowLocks[s.merges[id].pr := id])
    case ReadIssue(id) =>
      if s.merges[id].pr in s.prs && s.prs[s.merges[id].pr].open then
        Advance(s, id, OpenSeen, s.merges[id].evidence.(sawOpen := true))
      else EndMerge(s, id)
    case ProbeAncestor(id, answer) =>
      var tx := s.merges[id];
      var ancestor := Ancestor(tx.row, answer);
      if ancestor == IsAncestor || !tx.row.clean then EndMerge(s, id)
      else Advance(s, id, CleanSeen, tx.evidence.(ancestor := ancestor, clean := tx.row.clean))
    case ReviewGate(id, satisfied) =>
      if satisfied then Advance(s, id, Reviewed, s.merges[id].evidence.(review := satisfied)) else EndMerge(s, id)
    case ChecksGate(id, satisfied) =>
      if satisfied then Advance(s, id, Checked, s.merges[id].evidence.(checks := satisfied)) else EndMerge(s, id)
    case PerformMerge(id) => Advance(s, id, GitMerged, s.merges[id].evidence)
    case CommitMerge(id) =>
      var tx := s.merges[id];
      EndMerge(s, id).(
        prs := s.prs[tx.pr := s.prs[tx.pr].(open := false, merged := true, clean := true)],
        merged := s.merged + [MergeRecord(tx.pr, tx.row.headOid, tx.row.baseOid, tx.evidence)])
    case RollbackMerge(id) => EndMerge(s, id)
  }

  // ----- all steps

  /** Closing touches the issue row; updates of the pull-request row wait for its lock. */
  predicate Enabled(key: LockKeyOf, s: State, step: Step) {
    match step
    case Close(pr) => pr in s.prs
    case Update(pr, _, _, _) => pr in s.prs && pr !in s.rowLocks
    case _ => CreateEnabled(key, s, step) || MergeEnabled(s, step)
  }

  function Do(key: LockKeyOf, s: State, step: Step): State
    requires Enabled(key, s, step)
  {
    match step
    case Close(pr) => s.(prs := s.prs[pr := s.prs[pr].(open := false)])
    case Update(pr, clean, headOid, baseOid) =>
      s.(prs := s.prs[pr := s.prs[pr].(clean := clean, headOid := headOid, baseOid := baseOid)])
    case _ => if CreateEnabled(key, s, step) then CreateDo(key, s, step) else MergeDo(s, step)
  }

  ghost predicate IsRun(key: LockKeyOf, s: State, steps: seq<Step>)
    decreases |steps|
  {
    steps == [] || (Enabled(key, s, steps[0]) && IsRun(key, Do(key, s, steps[0]), steps[1..]))
  }

  ghost function After(key: LockKeyOf, s: State, steps: seq<Step>): State
    requires IsRun(key, s, steps)
    decreases |steps|
  {
    if steps == [] then s else After(key, Do(key, s, steps[0]), steps[1..])
  }

  // ----- what every step keeps about open pull requests

  predicate HoldsKey(pc: CreatePc) {
    pc == KeyLocked || pc == ProbedNone || pc == Inserted
  }

  predicate SawNone(pc: CreatePc) {
    pc == ProbedNone || pc == Inserted
  }

  /** A Create between lock and end holds the key of its branches. */
  ghost predicate KeysHeld(key: LockKeyOf, s: State) {
    forall i | i in s.creates && HoldsKey(s.creates[i].pc) ::
      key(s.creates[i].branches) in s.keyLocks && s.keyLocks[key(s.creates[i].branches)] == i
  }

  /** What a Create has probed still holds. */
  ghost predicate ProbesHold(s: State) {
    forall i, p | i in s.creates && SawNone(s.creates[i].pc) && p in s.prs && s.prs[p].open ::
      s.prs[p].branches != s.creates[i].branches
  }

  /** At most one open pull request for each repository, base and head. */
  ghost predicate UniqueOpen(s: State) {
    forall p, q | p in s.prs && q in s.prs && s.prs[p].open && s.prs[q].open && s.prs[p].branches == s.prs[q].branches ::
      p == q
  }

  ghost predicate CreateInv(key: LockKeyOf, s: State) {
    KeysHeld(key, s) && ProbesHold(s) && UniqueOpen(s)
  }

  /** Steps that neither open a pull request nor touch a Create keep what Creates rely on. */
  ghost predicate OnlyCloses(s: State, t: State) {
    && t.creates == s.creates && t.keyLocks == s.keyLocks && t.prs.Keys == s.prs.Keys
    && (forall p | p in t.prs :: t.prs[p].branches == s.prs[p].branches && (t.prs[p].open ==> s.prs[p].open))
  }

  lemma ClosingKeepsCreateInv(key: LockKeyOf, s: State, t: State)
    requires CreateInv(key, s) && OnlyCloses(s, t)
    ensures CreateInv(key, t)
  {
  }

  lemma EndCreateKeeps(key: LockKeyOf, s: State, id: TxId)
    requires CreateInv(key, s) && id in s.creates
    ensures CreateInv(key, EndCreate(s, id))
  {
  }

  lemma CommitCreateKeeps(key: LockKeyOf, s: State, id: TxId, pr: PrId)
    requires CreateInv(key, s) && CreateEnabled(key, s, CommitCreate(id, pr))
    ensures CreateInv(key, CreateDo(key, s, CommitCreate(id, pr)))
  {
    EndCreateKeeps(key, s, id);
    var t := CreateDo(key, s, CommitCreate(id, pr));
    forall i, p | i in t.creates && SawNone(t.creates[i].pc) && p in t.prs && t.prs[p].open
      ensures t.prs[p].branches != t.creates[i].branches
    {
      if p == pr {
        assert i != id && s.keyLocks[key(s.creates[i].branches)] == i;
        assert s.keyLocks[key(s.creates[id].branches)] == id;
      }
    }
  }

  lemma CreateStepKeeps(key: LockKeyOf, s: State, step: Step)
    requires CreateInv(key, s) && CreateEnabled(key, s, step)
    ensures CreateInv(key, CreateDo(key, s, step))
  {
    match step
    case ProbeDuplicate(id) =>
      EndCreateKeeps(key, s, id);
      if !OpenOn(s, s.creates[id].branches) {
        assert forall p | p in s.prs && s.prs[p].open :: s.prs[p].branches != s.creates[id].branches;
      }
    case CommitCreate(id, pr) => CommitCreateKeeps(key, s, id, pr);
    case RollbackCreate(id) => EndCreateKeeps(key, s, id);
    case _ =>
  }

  // ----- what every step keeps about merges

  predicate HoldsRow(pc: MergePc) {
    pc != Waiting && pc != Done
  }

  /** A Merge between lock and end holds the row, which is unmerged and as it was read. */
  ghost predicate RowHeld(s: State, i: TxId)
    requires i in s.merges
  {
    var tx := s.merges[i];
    HoldsRow(tx.pc) ==>
      && tx.pr in s.prs && tx.pr in s.rowLocks && s.rowLocks[tx.pr] == i
      && !s.prs[tx.pr].merged && !tx.row.merged
      && tx.row.headOid == s.prs[tx.pr].headOid && tx.row.baseOid == s.prs[tx.pr].baseOid
  }

  /** Only an object id that is missing excuses the ancestor question. */
  predicate AncestorPasses(e: Evidence, headOid: Oid, baseOid: Oid) {
    e.ancestor != IsAncestor && (e.ancestor == NotAsked ==> headOid == "" || baseOid == "")
  }

  /** How far a Merge got tells what the gates answered. */
  predicate EvidenceAt(tx: MergeTx) {
    && (tx.pc.OpenSeen? || tx.pc.CleanSeen? || tx.pc.Reviewed? || tx.pc.Checked? || tx.pc.GitMerged? ==>
          tx.evidence.sawOpen)
    && (tx.pc.CleanSeen? || tx.pc.Reviewed? || tx.pc.Checked? || tx.pc.GitMerged? ==>
          tx.evidence.clean && AncestorPasses(tx.evidence, tx.row.headOid, tx.row.baseOid))
    && (tx.pc.Reviewed? || tx.pc.Checked? || tx.pc.GitMerged? ==> tx.evidence.review)
    && (tx.pc.Checked? || tx.pc.GitMerged? ==> tx.evidence.checks)
  }

  /** A committed merge passed every gate. */
  predicate Justified(r: MergeRecord) {
    && r.evidence.sawOpen && r.evidence.clean && r.evidence.review && r.evidence.checks
    && AncestorPasses(r.evidence, r.headOid, r.baseOid)
  }

  ghost predicate MergesHold(s: State) {
    forall i | i in s.merges :: RowHeld(s, i) && EvidenceAt(s.merges[i])
  }

  ghost predicate RecordsHold(s: State) {
    && (forall k | 0 <= k < |s.merged| ::
          Justified(s.merged[k]) && s.merged[k].pr in s.prs && s.prs[s.merged[k].pr].merged && !s.prs[s.merged[k].pr].open)
    && (forall j, k | 0 <= j < k < |s.merged| :: s.merged[j].pr != s.merged[k].pr)
    && (forall p | p in s.prs && s.prs[p].merged :: exists k :: 0 <= k < |s.merged| && s.merged[k].pr == p)
  }

  /** Steps that leave the merges, their locks and the locked rows alone. */
  ghost predicate LeavesMerges(s: State, t: State) {
    && t.merges == s.merges && t.rowLocks == s.rowLocks && t.merged == s.merged && s.prs.Keys <= t.prs.Keys
    && (forall p | p in s.prs :: t.prs[p].merged == s.prs[p].merged && (t.prs[p].open ==> s.prs[p].open))
    && (forall p | p in t.prs && p !in s.prs :: !t.prs[p].merged)
    && (forall p | p in s.prs && p in s.rowLocks ::
          t.prs[p].headOid == s.prs[p].headOid && t.prs[p].baseOid == s.prs[p].baseOid)
  }

  lemma LeavingKeepsMerges(s: State, t: State)
    requires MergesHold(s) && RecordsHold(s) && LeavesMerges(s, t)
    ensures MergesHold(t) && RecordsHold(t)
  {
  }

  lemma EndMergeKeeps(s: State, id: TxId)
    requires MergesHold(s) && RecordsHold(s) && id in s.merges
    ensures MergesHold(EndMerge(s, id)) && RecordsHold(EndMerge(s, id))
  {
    var t := EndMerge(s, id);
    forall i | i in t.merges ensures RowHeld(t, i) && EvidenceAt(t.merges[i]) {
      assert RowHeld(s, i) && EvidenceAt(s.merges[i]);
    }
  }

  lemma AdvanceKeeps(s: State, id: TxId, pc: MergePc, evidence: Evidence)
    requires MergesHold(s) && RecordsHold(s) && id in s.merges && HoldsRow(s.merges[id].pc)
    requires EvidenceAt(s.merges[id].(pc := pc, evidence := evidence))
    ensures MergesHold(Advance(s, id, pc, evidence)) && RecordsHold(Advance(s, id, pc, evidence))
  {
    var t := Advance(s, id, pc, evidence);
    forall i | i in t.merges ensures RowHeld(t, i) && EvidenceAt(t.merges[i]) {
      assert RowHeld(s, i) && EvidenceAt(s.merges[i]);
    }
  }

  lemma LockRowKeeps(s: State, id: TxId)
    requires MergesHold(s) && RecordsHold(s) && MergeEnabled(s, LockRow(id))
    ensures MergesHold(MergeDo(s, LockRow(id))) && RecordsHold(MergeDo(s, LockRow(id)))
  {
    if s.prs[s.merges[id].pr].merged {
      EndMergeKeeps(s, id);
    } else {
      var t := MergeDo(s, LockRow(id));
      forall i | i in t.merges ensures RowHeld(t, i) && EvidenceAt(t.merges[i]) {
        assert RowHeld(s, i) && EvidenceAt(s.merges[i]);
      }
    }
  }

  lemma CommitMergeKeepsRows(s: State, id: TxId)
    requires MergesHold(s) && MergeEnabled(s, CommitMerge(id))
    ensures MergesHold(MergeDo(s, CommitMerge(id)))
  {
    var t := MergeDo(s, CommitMerge(id));
    assert RowHeld(s, id);
    forall i | i in t.merges ensures RowHeld(t, i) && EvidenceAt(t.merges[i]) {
      assert RowHeld(s, i) && EvidenceAt(s.merges[i]);
    }
  }

  lemma CommitMergeKeepsRecords(s: State, id: TxId)
    requires MergesHold(s) && RecordsHold(s) && MergeEnabled(s, CommitMerge(id))
    ensures RecordsHold(MergeDo(s, CommitMerge(id)))
  {
    assert RowHeld(s, id) && EvidenceAt(s.merges[id]);
    hide MergesHold;
    var t, pr, n := MergeDo(s, CommitMerge(id)), s.merges[id].pr, |s.merged|;
    assert t.merged[n].pr == pr && Justified(t.merged[n]);
    assert forall k | 0 <= k < n :: t.merged[k] == s.merged[k] && s.merged[k].pr != pr;
    forall p | p in t.prs && t.prs[p].merged ensures exists k :: 0 <= k < |t.merged| && t.merged[k].pr == p {
      if p != pr {
        var k :| 0 <= k < n && s.merged[k].pr == p;
        assert t.merged[k].pr == p;
      }
    }
  }

  lemma MergeStepKeeps(s: State, step: Step)
    requires MergesHold(s) && RecordsHold(s) && MergeEnabled(s, step)
    ensures MergesHold(MergeDo(s, step)) && RecordsHold(MergeDo(s, step))
  {
    match step
    case BeginMerge(id, pr) =>
      var t := MergeDo(s, step);
      forall i | i in t.merges ensures RowHeld(t, i) && EvidenceAt(t.merges[i]) {
        assert i != id ==> RowHeld(s, i) && EvidenceAt(s.merges[i]);
      }
    case LockRow(id) => LockRowKeeps(s, id);
    case CommitMerge(id) =>
      CommitMergeKeepsRows(s, id);
      CommitMergeKeepsRecords(s, id);
    case RollbackMerge(id) => EndMergeKeeps(s, id);
    case _ => GateKeeps(s, step);
  }

  lemma GateKeeps(s: State, step: Step)
    requires MergesHold(s) && RecordsHold(s) && MergeEnabled(s, step)
    requires step.ReadIssue? || step.ProbeAncestor? || step.ReviewGate? || step.ChecksGate? || step.PerformMerge?
    ensures MergesHold(MergeDo(s, step)) && RecordsHold(MergeDo(s, step))
  {
    var id := step.id;
    EndMergeKeeps(s, id);
    var tx := s.merges[id];
    assert EvidenceAt(tx);
    if MergeDo(s, step) != EndMerge(s, id) {
      var next := MergeDo(s, step).merges[id];
      AdvanceKeeps(s, id, next.pc, next.evidence);
    }
  }

  // ----- both together

  ghost predicate Inv(key: LockKeyOf, s: State) {
    CreateInv(key, s) && MergesHold(s) && RecordsHold(s)
  }

  lemma CreateStepLeavesMerges(key: LockKeyOf, s: State, step: Step)
    requires CreateEnabled(key, s, step)
    ensures LeavesMerges(s, CreateDo(key, s, step))
  {
  }

  lemma MergeStepOnlyCloses(s: State, step: Step)
    requires MergeEnabled(s, step)
    ensures OnlyCloses(s, MergeDo(s, step))
  {
    hide Ancestor;
  }

  lemma StepKeeps(key: LockKeyOf, s: State, step: Step)
    requires Inv(key, s) && Enabled(key, s, step)
    ensures Inv(key, Do(key, s, step))
  {
    hide CreateInv, MergesHold, RecordsHold, CreateDo, MergeDo, LeavesMerges, OnlyCloses;
    if CreateEnabled(key, s, step) {
      CreateStepKeeps(key, s, step);
      CreateStepLeavesMerges(key, s, step);
      LeavingKeepsMerges(s, CreateDo(key, s, step));
    } else if MergeEnabled(s, step) {
      MergeStepKeeps(s, step);
      MergeStepOnlyCloses(s, step);
      ClosingKeepsCreateInv(key, s, MergeDo(s, step));
    } else {
      OtherStepKeeps(key, s, step);
    }
  }

  lemma OtherStepKeeps(key: LockKeyOf, s: State, step: Step)
    requires Inv(key, s) && Enabled(key, s, step) && (step.Close? || step.Update?)
    ensures Inv(key, Do(key, s, step))
  {
    hide CreateInv, MergesHold, RecordsHold;
    var t := Do(key, s, step);
    ClosingKeepsCreateInv(key, s, t);
    LeavingKeepsMerges(s, t);
  }

  lemma {:induction false} RunKeeps(key: LockKeyOf, s: State, steps: seq<Step>)
    requires Inv(key, s) && IsRun(key, s, steps)
    ensures Inv(key, After(key, s, steps))
    decreases |steps|
  {
    hide Inv, Enabled, Do;
    if steps != [] {
      StepKeeps(key, s, steps[0]);
      RunKeeps(key, Do(key, s, steps[0]), steps[1..]);
    }
  }

  /** In every interleaving, with any lock-key function, no two open pull requests share
      repository, base and head. */
  lemma AtMostOneOpen(key: LockKeyOf, steps: seq<Step>, p: PrId, q: PrId)
    requires IsRun(key, INIT, steps)
    requires var s := After(key, INIT, steps);
      p in s.prs && q in s.prs && s.prs[p].open && s.prs[q].open && s.prs[p].branches == s.prs[q].branches
    ensures p == q
  {
    RunKeeps(key, INIT, steps);
  }

  /** In every interleaving, each pull request is merged at most once, is merged exactly when a
      Merge committed, and each commit saw it open and clean, its head not in base, and both
      gates satisfied. */
  lemma MergesAtMostOnceAndOnlyWhenAllowed(key: LockKeyOf, steps: seq<Step>)
    requires IsRun(key, INIT, steps)
    ensures var s := After(key, INIT, steps);
      && (forall k | 0 <= k < |s.merged| :: Justified(s.merged[k]))
      && (forall j, k | 0 <= j < k < |s.merged| :: s.merged[j].pr != s.merged[k].pr)
      && (forall p | p in s.prs :: s.prs[p].merged <==> exists k :: 0 <= k < |s.merged| && s.merged[k].pr == p)
  {
    RunKeeps(key, INIT, steps);
  }

  /** The head and base a commit records are those of the row at that moment, and are the ones
      the gates were asked about: the row could not move in between. */
  lemma CommitMergesWhatWasChecked(key: LockKeyOf, steps: seq<Step>, id: TxId)
    requires IsRun(key, INIT, steps) && Enabled(key, After(key, INIT, steps), CommitMerge(id))
    ensures var s := After(key, INIT, steps);
      var tx := s.merges[id];
      && s.prs[tx.pr].headOid == tx.row.headOid && s.prs[tx.pr].baseOid == tx.row.baseOid
      && !s.prs[tx.pr].merged && (forall k | 0 <= k < |s.merged| :: s.merged[k].pr != tx.pr)
  {
    RunKeeps(key, INIT, steps);
    assert RowHeld(After(key, INIT, steps), id);
  }

  // ----- merges on disk

  /** The step moves the base branch on disk for the pull request. */
  predicate MovesBase(s: State, step: Step, p: PrId) {
    step.PerformMerge? && step.id in s.merges && s.merges[step.id].pr == p
  }

  /** The step rolls back a Merge of the pull request that had moved it. */
  predicate Loses(s: State, step: Step, p: PrId) {
    step.RollbackMerge? && MergeAt(s, step.id, GitMerged) && s.merges[step.id].pr == p
  }

  function One(b: bool): nat {
    if b then 1 else 0
  }

  ghost function DiskMerges(key: LockKeyOf, s: State, steps: seq<Step>, p: PrId): nat
    requires IsRun(key, s, steps)
    decreases |steps|
  {
    if steps == [] then 0
    else One(MovesBase(s, steps[0], p)) + DiskMerges(key, Do(key, s, steps[0]), steps[1..], p)
  }

  ghost function LostMerges(key: LockKeyOf, s: State, steps: seq<Step>, p: PrId): nat
    requires IsRun(key, s, steps)
    decreases |steps|
  {
    if steps == [] then 0
    else One(Loses(s, steps[0], p)) + LostMerges(key, Do(key, s, steps[0]), steps[1..], p)
  }

  /** A Merge of the pull request has moved the base and not ended. */
  ghost predicate InFlight(s: State, p: PrId) {
    exists i :: MergeAt(s, i, GitMerged) && s.merges[i].pr == p
  }

  predicate IsMerged(s: State, p: PrId) {
    p in s.prs && s.prs[p].merged
  }

  /** Of the Merges of one pull request only the one that locks its row can be in flight. */
  lemma InFlightIff(s: State, i: TxId, p: PrId)
    requires MergesHold(s) && i in s.merges && HoldsRow(s.merges[i].pc) && s.merges[i].pr == p
    ensures InFlight(s, p) <==> s.merges[i].pc == GitMerged
  {
    assert RowHeld(s, i);
    if j :| MergeAt(s, j, GitMerged) && s.merges[j].pr == p {
      assert RowHeld(s, j);
    }
  }

  lemma InFlightElsewhere(s: State, t: State, i: TxId, p: PrId)
    requires i in t.merges && t.merges == s.merges[i := t.merges[i]]
    requires MergeAt(s, i, GitMerged) ==> s.merges[i].pr != p
    requires MergeAt(t, i, GitMerged) ==> t.merges[i].pr != p
    ensures InFlight(s, p) <==> InFlight(t, p)
  {
    if j :| MergeAt(s, j, GitMerged) && s.merges[j].pr == p {
      assert MergeAt(t, j, GitMerged);
    }
    if j :| MergeAt(t, j, GitMerged) && t.merges[j].pr == p {
      assert MergeAt(s, j, GitMerged);
    }
  }

  /** A step of a Merge changes no other Merge, and only PerformMerge starts a flight. */
  lemma MergeStepTouchesOne(s: State, step: Step)
    requires MergeEnabled(s, step)
    ensures var t, id := MergeDo(s, step), step.id;
      && id in t.merges && t.merges == s.merges[id := t.merges[id]]
      && (MergeAt(t, id, GitMerged) ==> step.PerformMerge? && id in s.merges && t.merges[id].pr == s.merges[id].pr)
  {
    hide Ancestor;
  }

  /** Only CommitMerge merges a row. */
  lemma OnlyCommitMerges(s: State, step: Step, q: PrId)
    requires MergeEnabled(s, step)
    requires step.CommitMerge? ==> s.merges[step.id].pr != q
    ensures IsMerged(MergeDo(s, step), q) == IsMerged(s, q)
  {
    hide Ancestor;
  }

  /** What a step adds on disk is recorded, lost or in flight. */
  ghost predicate Balances(s: State, t: State, step: Step, p: PrId) {
    One(InFlight(s, p)) + One(IsMerged(s, p)) + One(MovesBase(s, step, p)) ==
    One(InFlight(t, p)) + One(IsMerged(t, p)) + One(Loses(s, step, p))
  }

  lemma GitMergeBalances(s: State, id: TxId, p: PrId)
    requires MergesHold(s) && MergeEnabled(s, PerformMerge(id)) && s.merges[id].pr == p
    ensures Balances(s, MergeDo(s, PerformMerge(id)), PerformMerge(id), p)
  {
    InFlightIff(s, id, p);
    var t := MergeDo(s, PerformMerge(id));
    assert MergeAt(t, id, GitMerged) && t.merges[id].pr == p;
    hide MergesHold;
  }

  lemma MergeEndBalances(s: State, step: Step, p: PrId)
    requires MergesHold(s) && MergeEnabled(s, step) && (step.CommitMerge? || step.RollbackMerge?)
    requires MergeAt(s, step.id, GitMerged) && s.merges[step.id].pr == p
    ensures Balances(s, MergeDo(s, step), step, p)
  {
    var t, id := MergeDo(s, step), step.id;
    assert RowHeld(s, id) && InFlight(s, p);
    assert !InFlight(t, p) by {
      if j :| MergeAt(t, j, GitMerged) && t.merges[j].pr == p {
        assert RowHeld(s, j);
      }
    }
    hide MergesHold;
  }

  lemma OtherMergeBalances(s: State, step: Step, p: PrId)
    requires MergeEnabled(s, step) && !MovesBase(s, step, p)
    requires MergeAt(s, step.id, GitMerged) ==> s.merges[step.id].pr != p
    ensures Balances(s, MergeDo(s, step), step, p)
  {
    MergeStepTouchesOne(s, step);
    OnlyCommitMerges(s, step, p);
    hide InFlight, MergeDo, MergeEnabled;
    InFlightElsewhere(s, MergeDo(s, step), step.id, p);
  }

  lemma StepBalances(key: LockKeyOf, s: State, step: Step, p: PrId)
    requires Inv(key, s) && Enabled(key, s, step)
    ensures Balances(s, Do(key, s, step), step, p)
  {
    hide CreateInv, MergesHold, RecordsHold, Balances, MergeDo, CreateDo;
    if !MergeEnabled(s, step) {
      RestBalances(key, s, step, p);
    } else if step.PerformMerge? && s.merges[step.id].pr == p {
      GitMergeBalances(s, step.id, p);
    } else if MergeAt(s, step.id, GitMerged) && s.merges[step.id].pr == p {
      MergeEndBalances(s, step, p);
    } else {
      OtherMergeBalances(s, step, p);
    }
  }

  lemma RestBalances(key: LockKeyOf, s: State, step: Step, p: PrId)
    requires Enabled(key, s, step) && !MergeEnabled(s, step)
    ensures Balances(s, Do(key, s, step), step, p)
  {
    var t := Do(key, s, step);
    assert t.merges == s.merges && IsMerged(t, p) == IsMerged(s, p);
    hide Do, IsMerged;
    assert InFlight(t, p) <==> InFlight(s, p) by {
      assert forall i :: MergeAt(t, i, GitMerged) <==> MergeAt(s, i, GitMerged);
    }
  }

  lemma {:induction false} DiskIsAccountedFrom(key: LockKeyOf, s: State, steps: seq<Step>, p: PrId)
    requires Inv(key, s) && IsRun(key, s, steps)
    ensures var t := After(key, s, steps);
      One(InFlight(s, p)) + One(IsMerged(s, p)) + DiskMerges(key, s, steps, p) ==
      One(InFlight(t, p)) + One(IsMerged(t, p)) + LostMerges(key, s, steps, p)
    decreases |steps|
  {
    hide Inv, Enabled, Do, InFlight, IsMerged, MovesBase, Loses;
    if steps != [] {
      StepKeeps(key, s, steps[0]);
      StepBalances(key, s, steps[0], p);
      DiskIsAccountedFrom(key, Do(key, s, steps[0]), steps[1..], p);
    }
  }

  /** In every interleaving, the merges of a pull request on disk are the recorded one, those whose
      transaction rolled back afterwards and one that may be in flight. With none in flight, it is merged
      on disk and not recorded exactly when one was lost and none recorded, and merged on disk more than
      once exactly when two were lost, or one lost and one recorded. */
  lemma DiskIsAccounted(key: LockKeyOf, steps: seq<Step>, p: PrId)
    requires IsRun(key, INIT, steps)
    ensures var s, lost, disk := After(key, INIT, steps), LostMerges(key, INIT, steps, p), DiskMerges(key, INIT, steps, p);
      && disk == One(IsMerged(s, p)) + lost + One(InFlight(s, p))
      && (!InFlight(s, p) ==>
            && (disk > 0 && !IsMerged(s, p) <==> lost > 0 && !IsMerged(s, p))
            && (disk > 1 <==> lost > 1 || (lost > 0 && IsMerged(s, p))))
  {
    assert Inv(key, INIT) && !InFlight(INIT, p);
    DiskIsAccountedFrom(key, INIT, steps, p);
  }

  // ----- reopening and changing the base take no lock

  /** Reopening reads that the pull request is not merged and writes later, without looking again. */
  function ReopenWrite(s: State, p: PrId): State
    requires p in s.prs
  {
    s.(prs := s.prs[p := s.prs[p].(open := true)])
  }

  function SetBase(s: State, p: PrId, base: string, baseOid: Oid): State
    requires p in s.prs
  {
    s.(prs := s.prs[p := s.prs[p].(branches := s.prs[p].branches.(base := base), baseOid := baseOid)])
  }

  /** The branches are taken: another open pull request has them, or a Create has found them free. */
  ghost predicate Taken(s: State, b: Branches, except: PrId) {
    || (exists q :: q in s.prs && q != except && s.prs[q].open && s.prs[q].branches == b)
    || (exists i :: i in s.creates && SawNone(s.creates[i].pc) && s.creates[i].branches == b)
  }

  lemma OpeningKeepsIff(key: LockKeyOf, s: State, p: PrId, row: Pr)
    requires CreateInv(key, s) && p in s.prs
    ensures CreateInv(key, s.(prs := s.prs[p := row])) <==> row.open ==> !Taken(s, row.branches, p)
  {
    var t := s.(prs := s.prs[p := row]);
    if row.open && !Taken(s, row.branches, p) {
      forall i, q | i in t.creates && SawNone(t.creates[i].pc) && q in t.prs && t.prs[q].open
        ensures t.prs[q].branches != t.creates[i].branches
      {
        assert q != p ==> s.prs[q].open;
      }
    } else if row.open {
      if q :| q in s.prs && q != p && s.prs[q].open && s.prs[q].branches == row.branches {
        assert t.prs[q] == s.prs[q] && t.prs[p] == row;
        assert !UniqueOpen(t);
      } else {
        var i :| i in s.creates && SawNone(s.creates[i].pc) && s.creates[i].branches == row.branches;
        assert i in t.creates && p in t.prs && t.prs[p].open;
        assert !ProbesHold(t);
      }
    }
  }

  /** The write keeps what Create promises exactly when the branches are free, and everything exactly when
      also the pull request has not been merged since it was read. */
  lemma ReopenKeepsIff(key: LockKeyOf, s: State, p: PrId)
    requires Inv(key, s) && p in s.prs
    ensures CreateInv(key, ReopenWrite(s, p)) <==> !Taken(s, s.prs[p].branches, p)
    ensures Inv(key, ReopenWrite(s, p)) <==> !s.prs[p].merged && !Taken(s, s.prs[p].branches, p)
  {
    var t := ReopenWrite(s, p);
    OpeningKeepsIff(key, s, p, s.prs[p].(open := true));
    hide CreateInv, Taken;
    forall i | i in t.merges ensures RowHeld(t, i) && EvidenceAt(t.merges[i]) {
      assert RowHeld(s, i) && EvidenceAt(s.merges[i]);
    }
    hide MergesHold;
    if s.prs[p].merged {
      var k :| 0 <= k < |s.merged| && s.merged[k].pr == p;
      assert t.merged[k].pr == p && t.prs[p].open;
    }
  }

  /** Moving to another base keeps it exactly when the pull request is closed or the new branches
      are free. */
  lemma SetBaseKeepsIff(key: LockKeyOf, s: State, p: PrId, base: string, baseOid: Oid)
    requires CreateInv(key, s) && p in s.prs
    ensures CreateInv(key, SetBase(s, p, base, baseOid))
      <==> s.prs[p].open ==> !Taken(s, s.prs[p].branches.(base := base), p)
  {
    hide CreateInv, Taken;
    OpeningKeepsIff(key, s, p, SetBase(s, p, base, baseOid).prs[p]);
  }

  // ----- runs that end in a duplicate

  /** One Create from start to commit. */
  function CreateSteps(id: TxId, pr: PrId, b: Branches, baseOid: Oid, headOid: Oid): seq<Step> {
    [BeginCreate(id, b, baseOid, headOid), LockKey(id), ProbeDuplicate(id), Insert(id), CommitCreate(id, pr)]
  }

  function Created(s: State, id: TxId, pr: PrId, b: Branches, baseOid: Oid, headOid: Oid): State {
    s.(creates := s.creates[id := CreateTx(b, Ended, baseOid, headOid)],
       prs := s.prs[pr := Pr(b, true, false, false, headOid, baseOid)])
  }

  predicate Creatable(b: Branches, baseOid: Oid, headOid: Oid) {
    b.base != "" && b.head != "" && b.base != b.head && baseOid != headOid
  }

  lemma StepRuns(key: LockKeyOf, s: State, step: Step, rest: seq<Step>)
    requires Enabled(key, s, step) && IsRun(key, Do(key, s, step), rest)
    ensures IsRun(key, s, [step] + rest) && After(key, s, [step] + rest) == After(key, Do(key, s, step), rest)
  {
    hide Enabled, Do;
    assert ([step] + rest)[1..] == rest;
  }

  /** Undisturbed and with the branches free, a Create commits. */
  lemma CreateRuns(key: LockKeyOf, s: State, id: TxId, pr: PrId, b: Branches, baseOid: Oid, headOid: Oid, rest: seq<Step>)
    requires s.keyLocks == map[] && id !in s.creates && pr !in s.prs && !OpenOn(s, b) && Creatable(b, baseOid, headOid)
    requires IsRun(key, Created(s, id, pr, b, baseOid, headOid), rest)
    ensures var steps := CreateSteps(id, pr, b, baseOid, headOid) + rest;
      IsRun(key, s, steps) && After(key, s, steps) == After(key, Created(s, id, pr, b, baseOid, headOid), rest)
  {
    hide Do, Enabled, IsRun, After;
    var s1 := s.(creates := s.creates[id := CreateTx(b, Begun, baseOid, headOid)]);
    var s2 := s1.(creates := s.creates[id := CreateTx(b, KeyLocked, baseOid, headOid)], keyLocks := map[key(b) := id]);
    var s3 := s2.(creates := s.creates[id := CreateTx(b, ProbedNone, baseOid, headOid)]);
    var s4 := s3.(creates := s.creates[id := CreateTx(b, Inserted, baseOid, headOid)]);
    var s5 := Created(s, id, pr, b, baseOid, headOid);
    assert OpenOn(s2, b) == OpenOn(s, b);
    Starts(key, s, id, b, baseOid, headOid, s1, s2);
    Ends(key, s2, id, pr, s2.creates[id]);
    assert s2.creates[id := CreateTx(b, ProbedNone, baseOid, headOid)] == s3.creates;
    assert s2.creates[id := CreateTx(b, Inserted, baseOid, headOid)] == s4.creates;
    assert s2.creates[id := CreateTx(b, Ended, baseOid, headOid)] == s5.creates;
    hide OpenOn, Created, Creatable;
    var r4 := [CommitCreate(id, pr)] + rest;
    var r3 := [Insert(id)] + r4;
    var r2 := [ProbeDuplicate(id)] + r3;
    var r1 := [LockKey(id)] + r2;
    StepRuns(key, s4, CommitCreate(id, pr), rest);
    StepRuns(key, s3, Insert(id), r4);
    StepRuns(key, s2, ProbeDuplicate(id), r3);
    StepRuns(key, s1, LockKey(id), r2);
    StepRuns(key, s, BeginCreate(id, b, baseOid, headOid), r1);
    assert CreateSteps(id, pr, b, baseOid, headOid) + rest == [BeginCreate(id, b, baseOid, headOid)] + r1;
  }

  lemma CreateStepIs(key: LockKeyOf, s: State, step: Step)
    requires CreateEnabled(key, s, step)
    ensures Enabled(key, s, step) && Do(key, s, step) == CreateDo(key, s, step)
  {
  }

  lemma Starts(key: LockKeyOf, s: State, id: TxId, b: Branches, baseOid: Oid, headOid: Oid, s1: State, s2: State)
    requires s.keyLocks == map[] && id !in s.creates && Creatable(b, baseOid, headOid)
    requires s1 == s.(creates := s.creates[id := CreateTx(b, Begun, baseOid, headOid)])
    requires s2 == s1.(creates := s.creates[id := CreateTx(b, KeyLocked, baseOid, headOid)], keyLocks := map[key(b) := id])
    ensures Enabled(key, s, BeginCreate(id, b, baseOid, headOid)) && Do(key, s, BeginCreate(id, b, baseOid, headOid)) == s1
    ensures Enabled(key, s1, LockKey(id)) && Do(key, s1, LockKey(id)) == s2
  {
    hide Enabled, Do;
    CreateStepIs(key, s, BeginCreate(id, b, baseOid, headOid));
    CreateStepIs(key, s1, LockKey(id));
  }

  lemma Ends(key: LockKeyOf, s2: State, id: TxId, pr: PrId, tx: CreateTx)
    requires CreateAt(s2, id, KeyLocked) && tx == s2.creates[id] && s2.keyLocks == map[key(tx.branches) := id]
    requires pr !in s2.prs && !OpenOn(s2, tx.branches)
    ensures var s3 := s2.(creates := s2.creates[id := tx.(pc := ProbedNone)]);
      var s4 := s2.(creates := s2.creates[id := tx.(pc := Inserted)]);
      var row := Pr(tx.branches, true, false, false, tx.headOid, tx.baseOid);
      var s5 := s2.(creates := s2.creates[id := tx.(pc := Ended)], keyLocks := map[], prs := s2.prs[pr := row]);
      && Enabled(key, s2, ProbeDuplicate(id)) && Do(key, s2, ProbeDuplicate(id)) == s3
      && Enabled(key, s3, Insert(id)) && Do(key, s3, Insert(id)) == s4
      && Enabled(key, s4, CommitCreate(id, pr)) && Do(key, s4, CommitCreate(id, pr)) == s5
  {
    hide Enabled, Do, OpenOn;
    var s3 := s2.(creates := s2.creates[id := tx.(pc := ProbedNone)]);
    var s4 := s2.(creates := s2.creates[id := tx.(pc := Inserted)]);
    CreateStepIs(key, s2, ProbeDuplicate(id));
    CreateStepIs(key, s3, Insert(id));
    CreateStepIs(key, s4, CommitCreate(id, pr));
    assert s3.creates[id := tx.(pc := Inserted)] == s4.creates;
    assert s4.creates[id := tx.(pc := Ended)] == s2.creates[id := tx.(pc := Ended)];
    assert EndCreate(s4, id).keyLocks == map[];
  }

  /** Create, close, create again, and reopen the first: two open pull requests on the same branches. */
  lemma ReopenCanDuplicate(key: LockKeyOf, b: Branches, baseOid: Oid, headOid: Oid)
    requires Creatable(b, baseOid, headOid)
    ensures var steps := CreateSteps(1, 1, b, baseOid, headOid) + ([Close(1)] + (CreateSteps(2, 2, b, baseOid, headOid) + []));
      && IsRun(key, INIT, steps) && 1 in After(key, INIT, steps).prs
      && !After(key, INIT, steps).prs[1].merged && !UniqueOpen(ReopenWrite(After(key, INIT, steps), 1))
  {
    var s1 := Created(INIT, 1, 1, b, baseOid, headOid);
    var s2 := s1.(prs := s1.prs[1 := s1.prs[1].(open := false)]);
    var s3 := Created(s2, 2, 2, b, baseOid, headOid);
    assert Enabled(key, s1, Close(1)) && Do(key, s1, Close(1)) == s2;
    assert !OpenOn(s2, b);
    var again := CreateSteps(2, 2, b, baseOid, headOid) + [];
    CreateRuns(key, s2, 2, 2, b, baseOid, headOid, []);
    StepRuns(key, s1, Close(1), again);
    CreateRuns(key, INIT, 1, 1, b, baseOid, headOid, [Close(1)] + again);
    var t := ReopenWrite(s3, 1);
    assert t.prs[1].open && t.prs[2].open && t.prs[1].branches == t.prs[2].branches;
  }

  /** Create from one head to two bases, and move the second to the first base. */
  lemma SetBaseCanDuplicate(key: LockKeyOf, b: Branches, other: string, baseOid: Oid, headOid: Oid)
    requires Creatable(b, baseOid, headOid) && other != "" && other != b.head && other != b.base
    ensures var steps := CreateSteps(1, 1, b, baseOid, headOid) + (CreateSteps(2, 2, b.(base := other), baseOid, headOid) + []);
      && IsRun(key, INIT, steps) && 2 in After(key, INIT, steps).prs
      && !UniqueOpen(SetBase(After(key, INIT, steps), 2, b.base, baseOid))
  {
    var c := b.(base := other);
    var s1 := Created(INIT, 1, 1, b, baseOid, headOid);
    var s2 := Created(s1, 2, 2, c, baseOid, headOid);
    assert c.base != b.base && !OpenOn(s1, c);
    CreateRuns(key, s1, 2, 2, c, baseOid, headOid, []);
    CreateRuns(key, INIT, 1, 1, b, baseOid, headOid, CreateSteps(2, 2, c, baseOid, headOid) + []);
    var t := SetBase(s2, 2, b.base, baseOid);
    assert t.prs[1].open && t.prs[2].open && t.prs[1].branches == t.prs[2].branches;
  }

  // ----- a reopening that races a Merge

  /** Some interleaving leads from one state to the other. */
  ghost predicate Leads(key: LockKeyOf, s: State, t: State) {
    exists steps :: IsRun(key, s, steps) && After(key, s, steps) == t
  }

  lemma {:induction false} Extended(key: LockKeyOf, s: State, steps: seq<Step>, step: Step)
    requires IsRun(key, s, steps) && Enabled(key, After(key, s, steps), step)
    ensures IsRun(key, s, steps + [step]) && After(key, s, steps + [step]) == Do(key, After(key, s, steps), step)
    decreases |steps|
  {
    hide Enabled, Do;
    if steps == [] {
      assert [] + [step] == [step] && [step][1..] == [];
      assert IsRun(key, Do(key, s, step), []);
    } else {
      assert (steps + [step])[1..] == steps[1..] + [step];
      Extended(key, Do(key, s, steps[0]), steps[1..], step);
    }
  }

  lemma Then(key: LockKeyOf, s: State, t: State, step: Step) returns (u: State)
    requires Leads(key, s, t) && Enabled(key, t, step)
    ensures Leads(key, s, u) && u == Do(key, t, step)
  {
    var steps :| IsRun(key, s, steps) && After(key, s, steps) == t;
    Extended(key, s, steps, step);
    u := Do(key, t, step);
  }

  lemma ThenMerge(key: LockKeyOf, s: State, t: State, step: Step) returns (u: State)
    requires Leads(key, s, t) && MergeEnabled(t, step)
    ensures Leads(key, s, u) && u == MergeDo(t, step)
  {
    hide Leads;
    assert Enabled(key, t, step) && Do(key, t, step) == MergeDo(t, step);
    u := Then(key, s, t, step);
  }

  lemma MergeLocks(key: LockKeyOf, s: State, id: TxId, p: PrId) returns (t: State)
    requires id !in s.merges && p in s.prs && p !in s.rowLocks && !s.prs[p].merged
    ensures Leads(key, s, t) && t.prs == s.prs && MergeAt(t, id, RowLocked)
    ensures t.merges[id].pr == p && t.merges[id].row == s.prs[p]
  {
    assert IsRun(key, s, []) && After(key, s, []) == s;
    hide Leads, IsRun, After;
    t := ThenMerge(key, s, s, BeginMerge(id, p));
    t := ThenMerge(key, s, t, LockRow(id));
  }

  lemma MergeGates(key: LockKeyOf, s: State, t: State, id: TxId, p: PrId) returns (u: State)
    requires Leads(key, s, t) && MergeAt(t, id, RowLocked) && t.merges[id].pr == p && t.merges[id].row.clean
    requires p in t.prs && t.prs[p].open
    ensures Leads(key, s, u) && u.prs == t.prs && MergeAt(u, id, CleanSeen) && u.merges[id].pr == p
  {
    hide Leads;
    u := ThenMerge(key, s, t, ReadIssue(id));
    u := ThenMerge(key, s, u, ProbeAncestor(id, Some(false)));
  }

  /** With every gate satisfied a Merge of an open, clean pull request can run through. */
  lemma MergeRuns(key: LockKeyOf, s: State, id: TxId, p: PrId) returns (t: State)
    requires id !in s.merges && p in s.prs && p !in s.rowLocks
    requires s.prs[p].open && s.prs[p].clean && !s.prs[p].merged
    ensures Leads(key, s, t) && p in t.prs && t.prs[p].merged && !t.prs[p].open
  {
    hide Leads;
    t := MergeLocks(key, s, id, p);
    t := MergeGates(key, s, t, id, p);
    t := ThenMerge(key, s, t, ReviewGate(id, true));
    t := ThenMerge(key, s, t, ChecksGate(id, true));
    t := ThenMerge(key, s, t, PerformMerge(id));
    t := ThenMerge(key, s, t, CommitMerge(id));
  }

  /** A reopening reads, a Merge runs through, and the write leaves a merged pull request open. */
  lemma ReopenCanFollowMerge(key: LockKeyOf, b: Branches, baseOid: Oid, headOid: Oid) returns (read: State, write: State)
    requires Creatable(b, baseOid, headOid)
    ensures Leads(key, INIT, read) && 1 in read.prs && !read.prs[1].merged
    ensures Leads(key, read, write) && 1 in write.prs
    ensures var row := ReopenWrite(write, 1).prs[1]; row.merged && row.open
  {
    var s := Created(INIT, 1, 1, b, baseOid, headOid);
    CreateRuns(key, INIT, 1, 1, b, baseOid, headOid, []);
    assert Leads(key, INIT, s);
    hide Leads, IsRun, After;
    read := Then(key, INIT, s, Update(1, true, headOid, baseOid));
    write := MergeRuns(key, read, 1, 1);
  }
}
