/** Check suites: the status and conclusion of a suite as an aggregate of its runs. */
module CheckRollup {
  import opened Prelude

  datatype Status = Queued | InProgress | Completed | Pending

  datatype Conclusion =
    | Success | Failure | Neutral | Cancelled | Skipped | TimedOut | ActionRequired | Stale

  /** The two derived columns, of a run as well as of a suite. */
  datatype Outcome = Outcome(status: Status, conclusion: Option<Conclusion>)

  const PRIORITY: seq<Conclusion> :=
    [Failure, TimedOut, Cancelled, ActionRequired, Success, Neutral, Skipped, Stale]

  function Rank(c: Conclusion): (i: nat)
    ensures i < |PRIORITY| && PRIORITY[i] == c
  {
    match c
    case Failure => 0
    case TimedOut => 1
    case Cancelled => 2
    case ActionRequired => 3
    case Success => 4
    case Neutral => 5
    case Skipped => 6
    case Stale => 7
  }

  // ----- what a rollup is, for a set of runs in no order

  predicate AllCompleted(runs: set<Outcome>) {
    forall r | r in runs :: r.status == Completed
  }

  predicate AllQueued(runs: set<Outcome>) {
    forall r | r in runs :: r.status == Queued
  }

  predicate Concludes(runs: set<Outcome>, c: Conclusion) {
    exists r :: r in runs && r.conclusion == Some(c)
  }

  /** The first conclusion of the priority list that some run has; neutral when no run has any. */
  function FirstConcluded(runs: set<Outcome>, i: nat): Conclusion
    requires i <= |PRIORITY|
    decreases |PRIORITY| - i
  {
    if i == |PRIORITY| then Neutral
    else if Concludes(runs, PRIORITY[i]) then PRIORITY[i]
    else FirstConcluded(runs, i + 1)
  }

  function RollupOf(runs: set<Outcome>): Outcome {
    if runs == {} || (!AllCompleted(runs) && AllQueued(runs)) then Outcome(Queued, None)
    else if !AllCompleted(runs) then Outcome(InProgress, None)
    else Outcome(Completed, Some(FirstConcluded(runs, 0)))
  }

  lemma {:induction false} FirstConcludedIs(runs: set<Outcome>, i: nat, best: nat)
    requires i <= best < |PRIORITY| && Concludes(runs, PRIORITY[best])
    requires forall c :: Concludes(runs, c) ==> best <= Rank(c)
    ensures FirstConcluded(runs, i) == PRIORITY[best]
    decreases best - i
  {
    if i < best {
      assert Rank(PRIORITY[i]) == i;
      FirstConcludedIs(runs, i + 1, best);
    }
  }

  lemma {:induction false} NothingConcluded(runs: set<Outcome>, i: nat)
    requires i <= |PRIORITY| && forall r | r in runs :: r.conclusion.None?
    ensures FirstConcluded(runs, i) == Neutral
    decreases |PRIORITY| - i
  {
    if i < |PRIORITY| {
      assert !Concludes(runs, PRIORITY[i]);
      NothingConcluded(runs, i + 1);
    }
  }

  // ----- the loops

  function AsSet(runs: seq<Outcome>): set<Outcome> {
    set r | r in runs
  }

  method ScanStatuses(runs: seq<Outcome>) returns (allCompleted: bool, anyMoved: bool)
    ensures allCompleted == AllCompleted(AsSet(runs))
    ensures anyMoved == !AllQueued(AsSet(runs))
  {
    allCompleted, anyMoved := true, false;
    for i := 0 to |runs|
      invariant allCompleted <==> forall k | 0 <= k < i :: runs[k].status == Completed
      invariant anyMoved <==> exists k | 0 <= k < i :: runs[k].status != Queued
    {
      if runs[i].status != Completed { allCompleted := false; }
      if runs[i].status != Queued { anyMoved := true; }
    }
    assert forall k | 0 <= k < |runs| :: runs[k] in AsSet(runs);
  }

  /** The least rank among the conclusions, or -1 when there is none. */
  method BestRank(runs: seq<Outcome>) returns (best: int)
    ensures -1 <= best < |PRIORITY|
    ensures best < 0 <==> forall r | r in AsSet(runs) :: r.conclusion.None?
    ensures best >= 0 ==> Concludes(AsSet(runs), PRIORITY[best])
    ensures forall c :: Concludes(AsSet(runs), c) ==> 0 <= best <= Rank(c)
  {
    best := -1;
    for i := 0 to |runs|
      invariant -1 <= best < |PRIORITY|
      invariant best < 0 <==> forall k | 0 <= k < i :: runs[k].conclusion.None?
      invariant best >= 0 ==> exists k | 0 <= k < i :: runs[k].conclusion == Some(PRIORITY[best])
      invariant forall k | 0 <= k < i && runs[k].conclusion.Some? :: 0 <= best <= Rank(runs[k].conclusion.value)
    {
      if runs[i].conclusion.None? { continue; }
      var idx := Rank(runs[i].conclusion.value);
      if best < 0 || idx < best { best := idx; }
    }
    forall k | 0 <= k < |runs| ensures runs[k] in AsSet(runs) {
    }
  }

  /** The rollup of the runs, whatever their order and however often a state repeats. */
  method DeriveSuiteRollup(runs: seq<Outcome>) returns (r: Outcome)
    ensures r == RollupOf(AsSet(runs))
  {
    if |runs| == 0 { return Outcome(Queued, None); }
    assert runs[0] in AsSet(runs);
    var allCompleted, anyMoved := ScanStatuses(runs);
    if !allCompleted {
      if anyMoved { return Outcome(InProgress, None); }
      return Outcome(Queued, None);
    }
    var best := BestRank(runs);
    if best < 0 {
      NothingConcluded(AsSet(runs), 0);
      return Outcome(Completed, Some(Neutral));
    }
    FirstConcludedIs(AsSet(runs), 0, best);
    return Outcome(Completed, Some(PRIORITY[best]));
  }

  /** A suite is completed exactly when it has runs and all are, and only then has a conclusion. */
  lemma CompletedMeans(runs: set<Outcome>)
    ensures RollupOf(runs).status == Completed <==> runs != {} && AllCompleted(runs)
    ensures RollupOf(runs).conclusion.Some? <==> RollupOf(runs).status == Completed
    ensures RollupOf(runs).status != Pending
  {
  }

  /** When completed runs carry conclusions, the aggregate is one of theirs and none of theirs has
      higher priority: the neutral fallback is not reached. */
  lemma ConclusionIsTheirs(runs: set<Outcome>)
    requires runs != {} && forall r | r in runs :: r.status == Completed && r.conclusion.Some?
    ensures exists c :: (
      RollupOf(runs).conclusion == Some(c) && Concludes(runs, c)
      && forall r | r in runs :: Rank(c) <= Rank(r.conclusion.value))
  {
    var r :| r in runs;
    var best := LeastRank(runs, r);
    FirstConcludedIs(runs, 0, best);
    assert Rank(PRIORITY[best]) == best;
  }

  /** The status: completed when there are runs and all are, queued when there are none or none has moved,
      in progress otherwise, pending never. */
  lemma StatusByRuns(runs: set<Outcome>)
    ensures RollupOf(runs).status == Completed <==> runs != {} && forall r | r in runs :: r.status == Completed
    ensures RollupOf(runs).status == Queued <==> forall r | r in runs :: r.status == Queued
    ensures RollupOf(runs).status == InProgress <==>
      (exists r | r in runs :: r.status != Completed) && (exists r | r in runs :: r.status != Queued)
    ensures RollupOf(runs).status != Completed ==> RollupOf(runs).conclusion == None
  {
    if r :| r in runs {
      assert r.status != Completed || r.status != Queued;
    }
  }

  /** The conclusion of completed runs, spelled out. Failure wins, then a timeout, a cancellation, a required
      action, success, neutral (also when no run has a conclusion), skipped, stale. */
  lemma ConclusionByRuns(runs: set<Outcome>)
    requires runs != {} && forall r | r in runs :: r.status == Completed
    ensures var has := (c: Conclusion) => exists r | r in runs :: r.conclusion == Some(c);
      var c := RollupOf(runs).conclusion;
      var notGreen := has(Failure) || has(TimedOut) || has(Cancelled) || has(ActionRequired);
      && (c == Some(Failure) <==> has(Failure))
      && (c == Some(TimedOut) <==> has(TimedOut) && !has(Failure))
      && (c == Some(Cancelled) <==> has(Cancelled) && !has(Failure) && !has(TimedOut))
      && (c == Some(ActionRequired) <==> notGreen && !has(Failure) && !has(TimedOut) && !has(Cancelled))
      && (c == Some(Success) <==> has(Success) && !notGreen)
      && (c == Some(Neutral) <==> !notGreen && !has(Success) && (has(Neutral) || (!has(Skipped) && !has(Stale))))
      && (c == Some(Skipped) <==> has(Skipped) && !notGreen && !has(Success) && !has(Neutral))
      && (c == Some(Stale) <==> has(Stale) && !notGreen && !has(Success) && !has(Neutral) && !has(Skipped))
  {
  }

  lemma {:induction false} LeastRank(runs: set<Outcome>, r: Outcome) returns (best: nat)
    requires r in runs && r.conclusion.Some?
    ensures best < |PRIORITY| && Concludes(runs, PRIORITY[best])
    ensures forall c :: Concludes(runs, c) ==> best <= Rank(c)
    decreases Rank(r.conclusion.value)
  {
    best := Rank(r.conclusion.value);
    if c :| Concludes(runs, c) && Rank(c) < best {
      var other :| other in runs && other.conclusion == Some(c);
      best := LeastRank(runs, other);
    }
  }

  // ----- when two sets of runs have the same rollup

  /** As the schema and the validation have it: completed runs carry a conclusion. */
  predicate Concluded(runs: set<Outcome>) {
    forall r | r in runs && r.status == Completed :: r.conclusion.Some?
  }

  predicate AtLeastAs(a: Outcome, b: Outcome) {
    a.conclusion.Some? && b.conclusion.Some? && Rank(a.conclusion.value) <= Rank(b.conclusion.value)
  }

  /** Some run of the set has a conclusion of the same or higher priority. */
  predicate Covers(runs: set<Outcome>, o: Outcome) {
    exists r | r in runs :: AtLeastAs(r, o)
  }

  predicate CoversAll(runs: set<Outcome>, others: set<Outcome>) {
    forall o | o in others :: Covers(runs, o)
  }

  /** The conclusion of highest priority in the set. */
  ghost predicate IsBest(runs: set<Outcome>, c: Conclusion) {
    Concludes(runs, c) && forall r | r in runs :: r.conclusion.Some? && Rank(c) <= Rank(r.conclusion.value)
  }

  lemma BestExists(runs: set<Outcome>) returns (c: Conclusion)
    requires runs != {} && AllCompleted(runs) && Concluded(runs)
    ensures IsBest(runs, c) && RollupOf(runs) == Outcome(Completed, Some(c))
  {
    ConclusionIsTheirs(runs);
    c :| RollupOf(runs).conclusion == Some(c) && Concludes(runs, c)
      && forall r | r in runs :: Rank(c) <= Rank(r.conclusion.value);
  }

  lemma BestIsUnique(runs: set<Outcome>, c: Conclusion, d: Conclusion)
    requires IsBest(runs, c) && IsBest(runs, d)
    ensures c == d
  {
    var x :| x in runs && x.conclusion == Some(c);
    var y :| y in runs && y.conclusion == Some(d);
    assert PRIORITY[Rank(c)] == c && PRIORITY[Rank(d)] == d;
  }

  lemma BestCovers(runs: set<Outcome>, c: Conclusion, o: Outcome)
    requires IsBest(runs, c) && o.conclusion.Some?
    ensures Covers(runs, o) <==> Rank(c) <= Rank(o.conclusion.value)
  {
    var x :| x in runs && x.conclusion == Some(c);
    if Rank(c) <= Rank(o.conclusion.value) {
      assert AtLeastAs(x, o);
    }
  }

  lemma CoversAllIff(a: set<Outcome>, c: Conclusion, b: set<Outcome>, d: Conclusion)
    requires IsBest(a, c) && IsBest(b, d)
    ensures CoversAll(a, b) <==> Rank(c) <= Rank(d)
  {
    var y :| y in b && y.conclusion == Some(d);
    BestCovers(a, c, y);
    forall o | o in b ensures Covers(a, o) <==> Rank(c) <= Rank(o.conclusion.value) {
      BestCovers(a, c, o);
    }
    hide Covers;
  }

  /** The rollups of two sets of runs are equal exactly when both are completed and cover each other,
      or neither is and both or neither are all queued. */
  lemma SameRollupIff(a: set<Outcome>, b: set<Outcome>)
    requires a != {} && b != {} && Concluded(a) && Concluded(b)
    ensures RollupOf(a) == RollupOf(b) <==>
      if AllCompleted(a) then AllCompleted(b) && CoversAll(a, b) && CoversAll(b, a)
      else !AllCompleted(b) && (AllQueued(a) <==> AllQueued(b))
  {
    hide CoversAll, Concluded;
    if AllCompleted(a) && AllCompleted(b) {
      var c := BestExists(a);
      var d := BestExists(b);
      CoversAllIff(a, c, b, d);
      CoversAllIff(b, d, a, c);
      assert PRIORITY[Rank(c)] == c && PRIORITY[Rank(d)] == d;
    }
  }

  /** Whether the rollup of the other runs takes no notice of one run changing its state. */
  predicate Unnoticed(others: set<Outcome>, was: Outcome, now: Outcome) {
    if !AllCompleted(others) then AllQueued(others) ==> (was.status == Queued <==> now.status == Queued)
    else
      && (was.status == Completed <==> now.status == Completed)
      && (was.status == Completed ==> was.conclusion == now.conclusion || (Covers(others, was) && Covers(others, now)))
  }

  /** The best of a set and one run more. */
  lemma BestOneMore(others: set<Outcome>, e: Conclusion, o: Outcome)
    requires IsBest(others, e) && o.status == Completed && o.conclusion.Some? && AllCompleted(others)
    ensures var c := if Rank(o.conclusion.value) < Rank(e) then o.conclusion.value else e;
      RollupOf(others + {o}) == Outcome(Completed, Some(c))
  {
    var all := others + {o};
    var c := if Rank(o.conclusion.value) < Rank(e) then o.conclusion.value else e;
    var x :| x in others && x.conclusion == Some(e);
    assert x in all && o in all;
    assert IsBest(all, c);
    var d := BestExists(all);
    BestIsUnique(all, c, d);
  }

  lemma StatusesOneMore(others: set<Outcome>, o: Outcome)
    ensures AllCompleted(others + {o}) <==> AllCompleted(others) && o.status == Completed
    ensures AllQueued(others + {o}) <==> AllQueued(others) && o.status == Queued
  {
    assert o in others + {o} && others <= others + {o};
  }

  lemma UnnoticedIff(others: set<Outcome>, was: Outcome, now: Outcome)
    requires others != {} && Concluded(others) && Concluded({was}) && Concluded({now})
    ensures RollupOf(others + {was}) == RollupOf(others + {now}) <==> Unnoticed(others, was, now)
  {
    assert was in {was} && now in {now};
    var some :| some in others;
    assert AllCompleted(others) ==> !AllQueued(others);
    StatusesOneMore(others, was);
    StatusesOneMore(others, now);
    if AllCompleted(others) && was.status == Completed && now.status == Completed {
      var e := BestExists(others);
      BestOneMore(others, e, was);
      BestOneMore(others, e, now);
      BestCovers(others, e, was);
      BestCovers(others, e, now);
      hide IsBest, RollupOf, Covers, AllCompleted, AllQueued, Concluded;
      assert PRIORITY[Rank(e)] == e;
    } else {
      hide Covers, Concluded;
      assert was in others + {was} && now in others + {now};
    }
  }

  /** Whether it takes no notice of one run more. */
  predicate AdditionUnnoticed(others: set<Outcome>, now: Outcome) {
    if !AllCompleted(others) then AllQueued(others) ==> now.status == Queued
    else now.status == Completed && Covers(others, now)
  }

  lemma AdditionUnnoticedIff(others: set<Outcome>, now: Outcome)
    requires others != {} && Concluded(others) && Concluded({now})
    ensures RollupOf(others) == RollupOf(others + {now}) <==> AdditionUnnoticed(others, now)
  {
    assert now in {now};
    var some :| some in others;
    assert AllCompleted(others) ==> !AllQueued(others);
    StatusesOneMore(others, now);
    if AllCompleted(others) && now.status == Completed {
      var e := BestExists(others);
      BestOneMore(others, e, now);
      BestCovers(others, e, now);
      hide IsBest, RollupOf, Covers, AllCompleted, AllQueued, Concluded;
      assert PRIORITY[Rank(e)] == e;
    } else {
      hide Covers, Concluded;
      assert now in others + {now};
    }
  }
}
