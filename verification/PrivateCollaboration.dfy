/** The private-collaboration gate: the plan's cap, the incremental check that counts only new
    users, and the facts that tie the increment to a full recount. */
module PrivateCollaboration {
  import opened Prelude
  import opened OrgData

  const FREE_LIMIT := 3

  datatype Error =
    | OrgIdRequired | OrgNotFound | LimitExceeded | ForeignKey | InvalidRole | NotAMember | LastOwner
    | InvitationNotFound | InvitationConsumed | InvitationExpired | UnauthorizedAcceptor | TeamNotFound | CrossOrgParent
    | SelfParent | NestingTooDeep | RepoNotFound | IdTaken

  datatype Usage = Usage(org: Id, count: int, limit: int, unlimited: bool)
  datatype Check = Check(allowed: bool, usage: Usage, added: int, wouldUse: int)
  datatype CheckResult = Checked(check: Check) | Failed(error: Error)

  /** Only a Team plan in good standing, or inside its grace period, lifts the cap. */
  predicate ActiveTeamBilling(now: int, billing: Billing) {
    billing.plan.TeamPlan?
    && match billing.status
       case Active => true
       case Trialing => true
       case PastDue => billing.graceUntil.Some? && now <= billing.graceUntil.value
       case OtherStatus => false
  }

  predicate Unlimited(db: Db, now: int, org: Id)
    requires org in db.orgs
  {
    ActiveTeamBilling(now, db.orgs[org])
  }

  function UsageOf(db: Db, now: int, org: Id): Usage
    requires org in db.orgs
  {
    var unlimited := Unlimited(db, now, org);
    Usage(org, |Collaborators(db, org)|, if unlimited then 0 else FREE_LIMIT, unlimited)
  }

  function Lookup(db: Db, org: Id): (error: Option<Error>)
    ensures error.None? && 0 !in db.orgs ==> org in db.orgs
  {
    if org == 0 then Some(OrgIdRequired) else if org !in db.orgs then Some(OrgNotFound) else None
  }

  /** The incremental check as a formula over sets: how many candidates are not yet counted. */
  function Expansion(db: Db, now: int, org: Id, candidates: set<Id>, anonymous: int): CheckResult {
    if Lookup(db, org).Some? then Failed(Lookup(db, org).value) else
    var usage := UsageOf(db, now, org);
    if usage.unlimited then Checked(Check(true, usage, 0, usage.count)) else
    var added := Max(0, anonymous) + |NewAmong(candidates, Collaborators(db, org))|;
    Checked(Check(added == 0 || usage.count + added <= usage.limit, usage, added, usage.count + added))
  }

  function Elements(s: seq<Id>): set<Id> {
    if s == [] then {} else Elements(s[..|s| - 1]) + {s[|s| - 1]}
  }

  /** Candidates that are real users and not counted yet. */
  function NewAmong(candidates: set<Id>, before: set<Id>): set<Id> {
    candidates - {0} - before
  }

  /** The users the loop has counted after a list of candidates, one candidate at a time. */
  ghost function Found(candidates: seq<Id>, before: set<Id>): set<Id> {
    if candidates == [] then {} else
    var found := Found(candidates[..|candidates| - 1], before);
    var user := candidates[|candidates| - 1];
    if user == 0 || user in before || user in found then found else found + {user}
  }

  lemma {:induction false} FoundIsNew(candidates: seq<Id>, before: set<Id>)
    ensures Found(candidates, before) == NewAmong(Elements(candidates), before)
  {
    if candidates != [] {
      FoundIsNew(candidates[..|candidates| - 1], before);
    }
  }

  /** The loop over the candidate list, duplicates and zero identifiers included. */
  method CountNew(before: set<Id>, candidates: seq<Id>, anonymous: int) returns (added: int)
    ensures added == Max(0, anonymous) + |NewAmong(Elements(candidates), before)|
  {
    var current := before;
    ghost var found: set<Id> := {};
    added := anonymous;
    if added < 0 {
      added := 0;
    }
    for i := 0 to |candidates|
      invariant found == Found(candidates[..i], before)
      invariant forall u :: u in current <==> u in before || u in found
      invariant added == Max(0, anonymous) + |found|
    {
      var user := candidates[i];
      assert candidates[..i + 1][..i] == candidates[..i];
      if user != 0 && user !in current {
        current := current + {user};
        found := found + {user};
        added := added + 1;
      }
    }
    assert candidates[..|candidates|] == candidates;
    FoundIsNew(candidates, before);
  }

  method CheckPrivateCollaborationExpansion(db: Db, now: int, org: Id, candidates: seq<Id>, anonymous: int)
    returns (result: CheckResult)
    ensures result == Expansion(db, now, org, Elements(candidates), anonymous)
  {
    if Lookup(db, org).Some? {
      return Failed(Lookup(db, org).value);
    }
    var usage := UsageOf(db, now, org);
    if usage.unlimited {
      return Checked(Check(true, usage, 0, usage.count));
    }
    var added := CountNew(Collaborators(db, org), candidates, anonymous);
    var allowed := true;
    if added != 0 && usage.count + added > usage.limit {
      allowed := false;
    }
    result := Checked(Check(allowed, usage, added, usage.count + added));
  }

  function Allowed(db: Db, now: int, org: Id): CheckResult {
    if org == 0 then Checked(Check(true, Usage(0, 0, 0, false), 0, 0))
    else if org !in db.orgs then Failed(OrgNotFound)
    else var usage := UsageOf(db, now, org); Checked(Check(true, usage, 0, usage.count))
  }

  function PrivateRepositoryCreation(db: Db, now: int, org: Id): CheckResult {
    if Lookup(db, org).Some? then Failed(Lookup(db, org).value) else
    var usage := UsageOf(db, now, org);
    if usage.unlimited then Checked(Check(true, usage, 0, usage.count))
    else if usage.count > usage.limit then Checked(Check(false, usage, 0, usage.count))
    else if usage.count > 0 then Checked(Check(true, usage, 0, usage.count))
    else Expansion(db, now, org, OwnerIds(db, org), 0)
  }

  function RepoPrivateVisibility(db: Db, now: int, org: Id, repo: Id): CheckResult {
    if Lookup(db, org).Some? then Failed(Lookup(db, org).value) else
    var usage := UsageOf(db, now, org);
    if !usage.unlimited && usage.count > usage.limit then Checked(Check(false, usage, 0, usage.count))
    else Expansion(db, now, org, RepoCandidates(db, org, repo), 0)
  }

  function OrgOwnerCheck(db: Db, now: int, org: Id, user: Id): CheckResult {
    if !HasPrivateRepos(db, org) then Allowed(db, now, org) else Expansion(db, now, org, {user}, 0)
  }

  /** A live repository's owning organization (0 for none) and whether it is private. */
  function RepoPrivateState(db: Db, repo: Id): (Id, bool) {
    if repo !in db.repos || db.repos[repo].deleted then (0, false)
    else if db.repos[repo].ownerOrg.None? then (0, db.repos[repo].isPrivate)
    else (db.repos[repo].ownerOrg.value, db.repos[repo].isPrivate)
  }

  function DirectCollaboratorCheck(db: Db, now: int, repo: Id, user: Id): CheckResult {
    var (org, isPrivate) := RepoPrivateState(db, repo);
    if org == 0 || !isPrivate then Allowed(db, now, org) else Expansion(db, now, org, {user}, 0)
  }

  function TeamMemberCheck(db: Db, now: int, team: Id, user: Id): CheckResult {
    if team !in db.teams then Allowed(db, now, 0)
    else if !TeamReachesPrivate(db, team) then Allowed(db, now, db.teams[team].org)
    else Expansion(db, now, db.teams[team].org, {user}, 0)
  }

  function TeamGrantCheck(db: Db, now: int, team: Id, repo: Id): CheckResult {
    var (org, isPrivate) := RepoPrivateState(db, repo);
    if org == 0 || !isPrivate then Allowed(db, now, org) else Expansion(db, now, org, GrantCandidates(db, team), 0)
  }

  /** The error a caller sees: a failed lookup, or the cap. */
  function Refusal(result: CheckResult): Option<Error> {
    match result
    case Failed(e) => Some(e)
    case Checked(c) => if c.allowed then None else Some(LimitExceeded)
  }

  // ----- what an allowed check promises

  /** The bound every step keeps for a limited organization. */
  ghost predicate Within(before: set<Id>, after: set<Id>) {
    |after| <= Max(FREE_LIMIT, |before|)
  }

  /** The count the check predicts is the size of the set with the candidates added. */
  lemma PredictionIsUnionSize(db: Db, now: int, org: Id, candidates: set<Id>)
    requires org in db.orgs && org != 0 && !Unlimited(db, now, org) && 0 !in Collaborators(db, org)
    ensures var r := Expansion(db, now, org, candidates, 0);
            r.Checked? && r.check.wouldUse == |Collaborators(db, org) + (candidates - {0})|
  {
    var current := Collaborators(db, org);
    var added := NewAmong(candidates, current);
    assert current + (candidates - {0}) == current + added;
  }

  lemma AllowedExpansionKeepsBound(db: Db, now: int, org: Id, candidates: set<Id>, after: set<Id>)
    requires org in db.orgs && org != 0 && !Unlimited(db, now, org)
    requires Refusal(Expansion(db, now, org, candidates, 0)).None?
    requires after <= Collaborators(db, org) + candidates && 0 !in after
    ensures Within(Collaborators(db, org), after)
  {
    hide Collaborators, Unlimited;
    var current := Collaborators(db, org);
    var added := NewAmong(candidates, current);
    if |added| == 0 {
      SubsetSize(after, current);
    } else {
      assert |current + added| == |current| + |added|;
      SubsetSize(after, current + added);
    }
  }

  /** On a limited organization the check allows exactly the expansions that stay within bounds. */
  lemma ExpansionAllowsIff(db: Db, now: int, org: Id, candidates: set<Id>)
    requires org in db.orgs && org != 0 && !Unlimited(db, now, org) && 0 !in candidates
    ensures Refusal(Expansion(db, now, org, candidates, 0)).None?
      <==> Within(Collaborators(db, org), Collaborators(db, org) + candidates)
  {
    hide Collaborators, Unlimited;
    var current := Collaborators(db, org);
    var added := NewAmong(candidates, current);
    assert current + candidates == current + added;
    assert |current + added| == |current| + |added|;
  }
}
