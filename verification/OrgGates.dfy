/** Which organizations the cap binds, whom it counts, and exactly when an operation is refused for it. */
module OrgGates {
  import opened Prelude
  import opened OrgData
  import opened PrivateCollaboration
  import opened OrgSteps
  import opened OrgTheorems

  // ----- which plans are capped

  /** On any plan but Team, and on Team without a subscription that is active, on trial, or past due
      inside its grace, no run makes the recount larger than three, or than it was. */
  lemma CappedPlansStayWithinThree(db: Db, steps: seq<Timed>, org: Id)
    requires Valid(db)
    requires forall k | 0 <= k < |steps| ::
      var now, orgs := steps[k].now, Run(db, steps[..k]).orgs;
      && org in orgs
      && (|| !orgs[org].plan.TeamPlan? || orgs[org].status.OtherStatus?
          || (orgs[org].status.PastDue? && (orgs[org].graceUntil.None? || orgs[org].graceUntil.value < now)))
    ensures |Collaborators(Run(db, steps), org)| <= Max(3, |Collaborators(db, org)|)
  {
    hide Valid, Apply, Collaborators, Run;
    forall k | 0 <= k < |steps| ensures Limited(Run(db, steps[..k]), steps[k].now, org) {
    }
    RunKeepsCap(db, steps, org);
  }

  /** The organization whose gate an operation passes through; 0 for none. */
  function GatedOrg(db: Db, op: Op): Id {
    match op
    case OnOrg(OpAddMember(org, _, _)) => org
    case OnOrg(OpChangeRole(org, _, _)) => org
    case OnOrg(OpAccept(id, _, _)) => if id in db.invitations then db.invitations[id].org else 0
    case OnTeam(OpAddTeamMember(team, _)) => if team in db.teams then db.teams[team].org else 0
    case OnTeam(OpGrant(_, repo)) => OwnerOrg(db, repo)
    case OnRepo(OpAddCollaborator(repo, _)) => OwnerOrg(db, repo)
    case OnRepo(OpCreateRepo(_, org, _)) => if org.Some? then org.value else 0
    case OnRepo(OpSetVisibility(repo, _)) => OwnerOrg(db, repo)
    case _ => 0
  }

  function OwnerOrg(db: Db, repo: Id): Id {
    if repo in db.repos && db.repos[repo].ownerOrg.Some? then db.repos[repo].ownerOrg.value else 0
  }

  // ----- who counts

  /** The users a recount finds: those who reach some live private repository of the organization as an
      owner, as a direct collaborator, or through a team of the organization or that team's parent. */
  lemma CountedIff(db: Db, org: Id, user: Id)
    ensures user in Collaborators(db, org) <==>
      exists repo | repo in db.repos ::
        && db.repos[repo].ownerOrg == Some(org) && db.repos[repo].isPrivate && !db.repos[repo].deleted
        && (|| ((org, user) in db.members && db.members[(org, user)].Owner?)
            || (repo, user) in db.collaborators
            || (exists team | team in db.teams ::
                  && (team, user) in db.teamMembers && db.teams[team].org == org
                  && ((team, repo) in db.grants || GrantedToParent(db, org, repo, team))))
  {
    CountedReaches(db, org, user);
    if repo :| Opens(db, org, repo, user) {
      ReacherCounts(db, org, repo, user);
    }
  }

  predicate GrantedToParent(db: Db, org: Id, repo: Id, team: Id)
    requires team in db.teams
  {
    var parent := db.teams[team].parent;
    parent.Some? && parent.value in db.teams && db.teams[parent.value].org == org && (parent.value, repo) in db.grants
  }

  ghost predicate Opens(db: Db, org: Id, repo: Id, user: Id) {
    && PrivateRepo(db, org, repo)
    && (|| ((org, user) in db.members && db.members[(org, user)].Owner?)
        || (repo, user) in db.collaborators
        || (exists team | team in db.teams ::
              && (team, user) in db.teamMembers && db.teams[team].org == org
              && ((team, repo) in db.grants || GrantedToParent(db, org, repo, team))))
  }

  lemma CountedReaches(db: Db, org: Id, user: Id)
    ensures user in Collaborators(db, org) ==> exists repo :: Opens(db, org, repo, user)
  {
    if user in TeamIds(db, org) {
      var m :| m in db.teamMembers && ReachingTeam(db, org, m.0) && m.1 == user;
      var team := m.0;
      assert m == (team, user);
      var source := if GrantingTeam(db, org, team) then team else db.teams[team].parent.value;
      var repo :| repo in db.repos && PrivateRepo(db, org, repo) && (source, repo) in db.grants;
      assert Opens(db, org, repo, user);
    } else if user in DirectIds(db, org) {
      var c :| c in db.collaborators && PrivateRepo(db, org, c.0) && c.1 == user;
      assert c == (c.0, user);
      assert Opens(db, org, c.0, user);
    } else if user in Collaborators(db, org) {
      var repo :| repo in db.repos && PrivateRepo(db, org, repo);
      assert Opens(db, org, repo, user);
    }
  }

  lemma ReacherCounts(db: Db, org: Id, repo: Id, user: Id)
    requires Opens(db, org, repo, user)
    ensures user in Collaborators(db, org)
  {
    if (org, user) in db.members && db.members[(org, user)].Owner? {
      assert HasPrivateRepos(db, org) && user in OwnerIds(db, org);
    } else if (repo, user) in db.collaborators {
      assert user in DirectIds(db, org);
    } else {
      var team :| team in db.teams && (team, user) in db.teamMembers && db.teams[team].org == org
        && ((team, repo) in db.grants || GrantedToParent(db, org, repo, team));
      assert (team, repo) in db.grants ==> GrantingTeam(db, org, team);
      assert GrantedToParent(db, org, repo, team) ==> GrantingTeam(db, org, db.teams[team].parent.value);
      assert ReachingTeam(db, org, team);
    }
  }

  // ----- exactly when the cap refuses

  /** Counting these users as well would take a limited organization past its bound. */
  ghost predicate Exceeds(db: Db, now: int, org: Id, users: set<Id>) {
    Limited(db, now, org) && |Collaborators(db, org) + (users - {0})| > Max(3, |Collaborators(db, org)|)
  }

  /** The invitation can still be accepted by this user. */
  predicate OpenFor(inv: Invitation, now: int, user: Id, ownsEmail: bool) {
    && inv.acceptedAt.None? && inv.declinedAt.None? && inv.canceledAt.None?
    && inv.expiresAt.Some? && now <= inv.expiresAt.value
    && (inv.targetUser.None? || inv.targetUser.value == user) && (inv.targetEmail.None? || ownsEmail)
  }

  ghost predicate OwnerExceeds(db: Db, now: int, org: Id, user: Id) {
    HasPrivateRepos(db, org) && Exceeds(db, now, org, {user})
  }

  /** What the cap forbids, operation by operation, over recounts. A new owner counts where there is a private
      repository, a team member where the team reaches one, a grant and a collaborator on a private one. A
      repository may not be made private, or created private, in an organization beyond the bound, nor where
      its users, or the owners of one that counts nobody yet, would take it there. */
  ghost predicate CapForbids(db: Db, now: int, op: Op) {
    match op
    case OnOrg(OpAddMember(org, user, role)) => role == "owner" && OwnerExceeds(db, now, org, user)
    case OnOrg(OpChangeRole(org, user, role)) =>
      role == "owner" && (org, user) in db.members && db.members[(org, user)].Member? && OwnerExceeds(db, now, org, user)
    case OnOrg(OpAccept(id, user, ownsEmail)) =>
      && id in db.invitations && OpenFor(db.invitations[id], now, user, ownsEmail)
      && db.invitations[id].role.Owner? && OwnerExceeds(db, now, db.invitations[id].org, user)
    case OnTeam(OpAddTeamMember(team, user)) =>
      && team in db.teams && ReachingTeam(db, db.teams[team].org, team)
      && Exceeds(db, now, db.teams[team].org, {user})
    case OnTeam(OpGrant(team, repo)) =>
      PrivateRepo(db, OwnerOrg(db, repo), repo) && Exceeds(db, now, OwnerOrg(db, repo), GrantCandidates(db, team))
    case OnRepo(OpAddCollaborator(repo, user)) =>
      PrivateRepo(db, OwnerOrg(db, repo), repo) && Exceeds(db, now, OwnerOrg(db, repo), {user})
    case OnRepo(OpSetVisibility(repo, isPrivate)) =>
      var org := OwnerOrg(db, repo);
      && repo in db.repos && !db.repos[repo].isPrivate && isPrivate && Limited(db, now, org)
      && |Collaborators(db, org) + RepoCandidates(db, org, repo)| > 3
    case OnRepo(OpCreateRepo(_, ownerOrg, isPrivate)) =>
      && ownerOrg.Some? && isPrivate && Limited(db, now, ownerOrg.value)
      && (|Collaborators(db, ownerOrg.value)| > 3
          || (Collaborators(db, ownerOrg.value) == {} && |OwnerIds(db, ownerOrg.value)| > 3))
    case _ => false
  }

  lemma ExpansionRefusedIff(db: Db, now: int, org: Id, users: set<Id>)
    requires Valid(db)
    ensures Refusal(Expansion(db, now, org, users, 0)) == Some(LimitExceeded) <==> Exceeds(db, now, org, users)
  {
    if Limited(db, now, org) {
      CountedUsersAreReal(db, org);
      assert org != 0;
      hide Valid, Collaborators, Unlimited, NewAmong;
      UnionSize(Collaborators(db, org), users);
    }
  }

  lemma UnionSize(current: set<Id>, users: set<Id>)
    requires 0 !in current
    ensures |current + (users - {0})| == |current| + |NewAmong(users, current)|
  {
    var added := NewAmong(users, current);
    assert current + (users - {0}) == current + added;
    assert |current + added| == |current| + |added|;
  }

  lemma OwnerRefusedIff(db: Db, now: int, org: Id, user: Id)
    requires Valid(db)
    ensures Refusal(OrgOwnerCheck(db, now, org, user)) == Some(LimitExceeded) <==> OwnerExceeds(db, now, org, user)
  {
    ExpansionRefusedIff(db, now, org, {user});
    hide Expansion, Exceeds, Valid;
  }

  lemma OrgRefusalIsExact(db: Db, now: int, op: OrgOp)
    requires Valid(db)
    ensures ApplyOrg(db, now, op).1 == Some(LimitExceeded) <==> CapForbids(db, now, OnOrg(op))
  {
    hide OrgOwnerCheck, OwnerExceeds, Valid, OwnerIds;
    forall org, user
      ensures Refusal(OrgOwnerCheck(db, now, org, user)) == Some(LimitExceeded) <==> OwnerExceeds(db, now, org, user)
    {
      OwnerRefusedIff(db, now, org, user);
    }
  }

  /** The two queries for a team's reach agree on one-level teams. */
  lemma ReachIff(db: Db, team: Id)
    requires Valid(db) && team in db.teams
    ensures TeamReachesPrivate(db, team) <==> ReachingTeam(db, db.teams[team].org, team)
  {
    var org := db.teams[team].org;
    assert TeamLinks(db.orgs, db.teams, team);
    if g :| g in db.grants && PrivateRepo(db, org, g.1) && (g.0 == team || Some(g.0) == db.teams[team].parent) {
      assert g == (g.0, g.1);
      assert GrantingTeam(db, org, g.0);
    }
    if ReachingTeam(db, org, team) {
      var source := if GrantingTeam(db, org, team) then team else db.teams[team].parent.value;
      var repo :| repo in db.repos && PrivateRepo(db, org, repo) && (source, repo) in db.grants;
      assert PrivateRepo(db, org, (source, repo).1);
    }
  }

  lemma TeamMemberRefusalIsExact(db: Db, now: int, team: Id, user: Id)
    requires Valid(db)
    ensures AddTeamMember(db, now, team, user).1 == Some(LimitExceeded) <==>
      CapForbids(db, now, OnTeam(OpAddTeamMember(team, user)))
  {
    if team in db.teams {
      ReachIff(db, team);
      ExpansionRefusedIff(db, now, db.teams[team].org, {user});
    }
    hide Valid, Expansion, Exceeds, TeamReachesPrivate, ReachingTeam;
  }

  lemma GrantRefusalIsExact(db: Db, now: int, team: Id, repo: Id)
    requires Valid(db)
    ensures GrantTeamRepoAccess(db, now, team, repo).1 == Some(LimitExceeded) <==>
      CapForbids(db, now, OnTeam(OpGrant(team, repo)))
  {
    ExpansionRefusedIff(db, now, OwnerOrg(db, repo), GrantCandidates(db, team));
    PrivateHasOwner(db, repo);
    assert 0 !in db.orgs;
    hide Valid, Expansion, Exceeds, GrantCandidates, PrivateRepo;
  }

  lemma TeamRefusalIsExact(db: Db, now: int, op: TeamOp)
    requires Valid(db)
    ensures ApplyTeam(db, now, op).1 == Some(LimitExceeded) <==> CapForbids(db, now, OnTeam(op))
  {
    match op
    case OpAddTeamMember(team, user) => TeamMemberRefusalIsExact(db, now, team, user);
    case OpGrant(team, repo) => GrantRefusalIsExact(db, now, team, repo);
    case OpCreateTeam(_, _, _) =>
    case OpRemoveTeamMember(_, _) =>
    case OpRevoke(_, _) =>
  }

  lemma PrivateHasOwner(db: Db, repo: Id)
    requires Valid(db)
    ensures PrivateRepo(db, OwnerOrg(db, repo), repo) <==>
      var (org, isPrivate) := RepoPrivateState(db, repo); org != 0 && isPrivate
    ensures RepoPrivateState(db, repo).0 == 0 || RepoPrivateState(db, repo).0 == OwnerOrg(db, repo)
  {
  }

  lemma VisibilityRefusedIff(db: Db, now: int, org: Id, repo: Id)
    requires Valid(db)
    ensures Refusal(RepoPrivateVisibility(db, now, org, repo)) == Some(LimitExceeded) <==>
      Limited(db, now, org) && |Collaborators(db, org) + RepoCandidates(db, org, repo)| > 3
  {
    CandidatesAreReal(db, org, repo);
    hide Valid, Expansion, Collaborators, RepoCandidates, Limited, Exceeds, RepoPrivateVisibility;
    var candidates := RepoCandidates(db, org, repo);
    ExpansionRefusedIff(db, now, org, candidates);
    SubsetSize(Collaborators(db, org), Collaborators(db, org) + candidates);
    VisibilityGate(db, now, org, repo);
  }

  lemma VisibilityGate(db: Db, now: int, org: Id, repo: Id)
    requires 0 !in db.orgs
    ensures var candidates := RepoCandidates(db, org, repo);
      && (Refusal(RepoPrivateVisibility(db, now, org, repo)) == Some(LimitExceeded) <==>
            || (Limited(db, now, org) && |Collaborators(db, org)| > 3)
            || Refusal(Expansion(db, now, org, candidates, 0)) == Some(LimitExceeded))
      && (Exceeds(db, now, org, candidates) <==>
            Limited(db, now, org) && |Collaborators(db, org) + (candidates - {0})| > Max(3, |Collaborators(db, org)|))
  {
    assert Lookup(db, org).Some? ==> Expansion(db, now, org, RepoCandidates(db, org, repo), 0) == Failed(Lookup(db, org).value);
    hide Expansion, Collaborators, RepoCandidates, Unlimited;
  }

  lemma CandidatesAreReal(db: Db, org: Id, repo: Id)
    requires Valid(db)
    ensures RepoCandidates(db, org, repo) - {0} == RepoCandidates(db, org, repo)
    ensures OwnerIds(db, org) - {0} == OwnerIds(db, org) && 0 !in db.orgs
  {
  }

  lemma CreationRefusedIff(db: Db, now: int, org: Id)
    requires Valid(db)
    ensures Refusal(PrivateRepositoryCreation(db, now, org)) == Some(LimitExceeded) <==>
      && Limited(db, now, org)
      && (|Collaborators(db, org)| > 3 || (Collaborators(db, org) == {} && |OwnerIds(db, org)| > 3))
  {
    ExpansionRefusedIff(db, now, org, OwnerIds(db, org));
    CandidatesAreReal(db, org, 0);
    hide Valid, Expansion, Collaborators, OwnerIds, Unlimited;
    assert Collaborators(db, org) == {} ==> Collaborators(db, org) + OwnerIds(db, org) == OwnerIds(db, org);
    assert |Collaborators(db, org)| == 0 <==> Collaborators(db, org) == {};
  }

  lemma CollaboratorRefusalIsExact(db: Db, now: int, repo: Id, user: Id)
    requires Valid(db)
    ensures AddCollaborator(db, now, repo, user).1 == Some(LimitExceeded) <==>
      CapForbids(db, now, OnRepo(OpAddCollaborator(repo, user)))
  {
    ExpansionRefusedIff(db, now, OwnerOrg(db, repo), {user});
    PrivateHasOwner(db, repo);
    assert 0 !in db.orgs;
    hide Valid, Expansion, Exceeds, PrivateRepo;
  }

  lemma VisibilityRefusalIsExact(db: Db, now: int, repo: Id, isPrivate: bool)
    requires Valid(db)
    ensures SetVisibility(db, now, repo, isPrivate).1 == Some(LimitExceeded) <==>
      CapForbids(db, now, OnRepo(OpSetVisibility(repo, isPrivate)))
  {
    VisibilityRefusedIff(db, now, OwnerOrg(db, repo), repo);
    assert 0 !in db.orgs;
    hide Valid, RepoPrivateVisibility, Collaborators, RepoCandidates, Unlimited;
  }

  lemma RepoRefusalIsExact(db: Db, now: int, op: RepoOp)
    requires Valid(db)
    ensures ApplyRepo(db, now, op).1 == Some(LimitExceeded) <==> CapForbids(db, now, OnRepo(op))
  {
    match op
    case OpAddCollaborator(repo, user) => CollaboratorRefusalIsExact(db, now, repo, user);
    case OpSetVisibility(repo, isPrivate) => VisibilityRefusalIsExact(db, now, repo, isPrivate);
    case OpCreateRepo(repo, ownerOrg, isPrivate) => CreateRefusalIsExact(db, now, repo, ownerOrg, isPrivate);
    case OpRemoveCollaborator(_, _) =>
    case OpSoftDelete(_) =>
  }

  lemma CreateRefusalIsExact(db: Db, now: int, repo: Id, ownerOrg: Option<Id>, isPrivate: bool)
    requires Valid(db)
    ensures CreateRepo(db, now, repo, ownerOrg, isPrivate).1 == Some(LimitExceeded) <==>
      CapForbids(db, now, OnRepo(OpCreateRepo(repo, ownerOrg, isPrivate)))
  {
    hide Valid, PrivateRepositoryCreation, Collaborators, OwnerIds, Unlimited;
    if ownerOrg.Some? {
      CreationRefusedIff(db, now, ownerOrg.value);
    }
  }

  /** No operation is refused for the cap without need: exactly those that CapForbids. */
  lemma CapRefusalIsExact(db: Db, now: int, op: Op)
    requires Valid(db)
    ensures Apply(db, now, op).1 == Some(LimitExceeded) <==> CapForbids(db, now, op)
  {
    hide CapForbids, Valid, ApplyOrg, ApplyTeam, ApplyRepo;
    match op
    case OnOrg(o) => OrgRefusalIsExact(db, now, o);
    case OnTeam(o) => TeamRefusalIsExact(db, now, o);
    case OnRepo(o) => RepoRefusalIsExact(db, now, o);
  }

  /** A Team plan that is active, on trial, or past due inside its grace is never refused for the cap. */
  lemma TeamPlansAreNotCapped(db: Db, now: int, op: Op)
    requires Valid(db)
    requires var org := GatedOrg(db, op);
      org in db.orgs ==>
        && db.orgs[org].plan.TeamPlan?
        && (|| db.orgs[org].status.Active? || db.orgs[org].status.Trialing?
            || (db.orgs[org].status.PastDue? && db.orgs[org].graceUntil.Some? && now <= db.orgs[org].graceUntil.value))
    ensures Apply(db, now, op).1 != Some(LimitExceeded)
  {
    CapRefusalIsExact(db, now, op);
    if CapForbids(db, now, op) {
      ForbiddenIsLimited(db, now, op);
      assert false;
    }
  }

  lemma ForbiddenIsLimited(db: Db, now: int, op: Op)
    requires CapForbids(db, now, op)
    ensures Limited(db, now, GatedOrg(db, op))
  {
    hide Limited, Collaborators, RepoCandidates, OwnerIds, GrantCandidates, HasPrivateRepos, ReachingTeam;
  }

  lemma OpenIff(inv: Invitation, now: int, user: Id, ownsEmail: bool)
    ensures AcceptGate(inv, now, user, ownsEmail).None? <==> OpenFor(inv, now, user, ownsEmail)
  {
  }

  lemma InsertedIff(db: Db, refusal: Option<Error>, org: Id, user: Id, role: Role)
    ensures var (after, error) := InsertMember(db, refusal, org, user, role);
      && (error.None? <==> refusal.None? && org in db.orgs && user in db.users)
      && (error.None? ==>
            && (org, user) in after.members
            && after.members[(org, user)] == if (org, user) in db.members then db.members[(org, user)] else role)
  {
  }

  /** An invitation is accepted exactly when it is open for the user, the rows it refers to exist, and its
      role does not exceed the cap; a new member then has that role. */
  lemma AcceptedIff(db: Db, now: int, id: Id, user: Id, ownsEmail: bool)
    requires Valid(db) && id in db.invitations
    ensures var inv, (after, error) := db.invitations[id], AcceptInvitation(db, now, id, user, ownsEmail);
      && (error.None? <==>
            && OpenFor(inv, now, user, ownsEmail) && inv.org in db.orgs && user in db.users
            && !(inv.role.Owner? && OwnerExceeds(db, now, inv.org, user)))
      && (error.None? ==>
            && (inv.org, user) in after.members
            && after.members[(inv.org, user)] == if (inv.org, user) in db.members then db.members[(inv.org, user)] else inv.role)
  {
    var inv := db.invitations[id];
    OpenIff(inv, now, user, ownsEmail);
    InsertedIff(db, OwnerGate(db, now, inv.org, user, inv.role), inv.org, user, inv.role);
    OwnerRefusedIff(db, now, inv.org, user);
    if inv.org in db.orgs {
      OwnerCheckErrors(db, now, inv.org, user);
    }
    hide OrgOwnerCheck, OwnerExceeds, Valid, AcceptGate, OpenFor, InsertMember;
  }

  lemma OwnerCheckErrors(db: Db, now: int, org: Id, user: Id)
    requires Valid(db) && org in db.orgs
    ensures var refusal := Refusal(OrgOwnerCheck(db, now, org, user)); refusal.None? || refusal == Some(LimitExceeded)
  {
    assert org != 0;
    hide Collaborators, HasPrivateRepos, Unlimited;
  }

  // ----- what removals leave

  /** A deleted repository opens to nobody, and every other one to whom it did. */
  lemma DeletedOpensToNobody(db: Db, repo: Id, org: Id, other: Id, user: Id)
    requires repo in db.repos
    ensures var after := SoftDelete(db, repo).0;
      && after.repos[repo].deleted && after.repos[repo].isPrivate == db.repos[repo].isPrivate
      && (Opens(after, org, other, user) <==> Opens(db, org, other, user) && other != repo)
  {
    var after := SoftDelete(db, repo).0;
    assert after.teams == db.teams && after.grants == db.grants && after.teamMembers == db.teamMembers;
    assert PrivateRepo(after, org, other) <==> PrivateRepo(db, org, other) && other != repo;
    forall team | team in db.teams
      ensures GrantedToParent(after, org, other, team) == GrantedToParent(db, org, other, team) {
    }
    hide PrivateRepo, GrantedToParent;
  }

  /** A removed collaborator has the repository no longer as one, and nobody else loses it. */
  lemma RemovedCollaboratorIsGone(db: Db, repo: Id, user: Id, pair: (Id, Id))
    ensures pair in RemoveCollaborator(db, repo, user).0.collaborators <==> pair in db.collaborators && pair != (repo, user)
  {
  }
}
