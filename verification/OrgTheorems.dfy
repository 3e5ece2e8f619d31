/** Whole-run theorems of the organization machine: the collaboration cap, the last-owner rule,
    and the exactness of the incremental prediction. */
module OrgTheorems {
  import opened Prelude
  import opened OrgData
  import opened PrivateCollaboration
  import opened OrgSteps

  // ----- every step keeps the schema

  lemma MemberRowsKeepValid(db: Db, refusal: Option<Error>, org: Id, user: Id, role: Role)
    requires Valid(db)
    ensures Valid(InsertMember(db, refusal, org, user, role).0)
    ensures (org, user) in db.members ==> Valid(UpdateRole(db, refusal, org, user, role).0)
  {}

  lemma NewOrgKeepsValid(db: Db, org: Id, creator: Id)
    requires Valid(db)
    ensures Valid(CreateOrg(db, org, creator).0)
  {
    var orgs := CreateOrg(db, org, creator).0.orgs;
    forall t | t in db.teams ensures TeamLinks(orgs, db.teams, t) {
      assert TeamLinks(db.orgs, db.teams, t);
    }
  }

  lemma NewTeamKeepsValid(db: Db, team: Id, org: Id, parent: Id)
    requires Valid(db)
    ensures Valid(CreateTeam(db, team, org, parent).0)
  {
    hide MembersLink, ReposLink;
    var teams := CreateTeam(db, team, org, parent).0.teams;
    forall t | t in teams ensures TeamLinks(db.orgs, teams, t) {
      if t in db.teams { assert TeamLinks(db.orgs, db.teams, t); }
    }
  }

  lemma PairRowsKeepValid(db: Db, refusal: Option<Error>, team: Id, user: Id, repo: Id)
    requires Valid(db)
    ensures Valid(InsertTeamMember(db, refusal, team, user).0)
    ensures Valid(InsertGrant(db, refusal, team, repo).0)
    ensures Valid(InsertCollaborator(db, refusal, repo, user).0)
  {}

  lemma RepoRowsKeepValid(db: Db, refusal: Option<Error>, repo: Id, owner: Option<Id>, isPrivate: bool)
    requires Valid(db)
    ensures Valid(InsertRepo(db, refusal, repo, owner, isPrivate).0)
    ensures repo in db.repos ==> Valid(UpdateVisibility(db, refusal, repo, isPrivate).0)
    ensures Valid(SoftDelete(db, repo).0)
  {}

  lemma BillingKeepsValid(db: Db, org: Id, billing: Billing)
    requires Valid(db)
    ensures Valid(SetBilling(db, org, billing).0)
  {
    var orgs := SetBilling(db, org, billing).0.orgs;
    forall t | t in db.teams ensures TeamLinks(orgs, db.teams, t) {
      assert TeamLinks(db.orgs, db.teams, t);
    }
  }

  lemma CountedUsersAreReal(db: Db, org: Id)
    requires Valid(db)
    ensures 0 !in Collaborators(db, org)
  {}

  // ----- how far each growing step can enlarge the counted set

  /** Tables that only shrink, and an unchanged team forest, count no new user. */
  lemma ShrinkingCountsNoMore(a: Db, b: Db, org: Id)
    requires a.teams == b.teams && b.teamMembers <= a.teamMembers && b.grants <= a.grants
    requires b.collaborators <= a.collaborators
    requires OwnerIds(b, org) <= OwnerIds(a, org)
    requires forall r | PrivateRepo(b, org, r) :: PrivateRepo(a, org, r)
    ensures Collaborators(b, org) <= Collaborators(a, org)
    ensures Within(Collaborators(a, org), Collaborators(b, org))
  {
    SubsetsOfParts(a, b, org);
    SubsetSize(Collaborators(b, org), Collaborators(a, org));
  }

  lemma SubsetsOfParts(a: Db, b: Db, org: Id)
    requires a.teams == b.teams && b.teamMembers <= a.teamMembers && b.grants <= a.grants
    requires b.collaborators <= a.collaborators
    requires OwnerIds(b, org) <= OwnerIds(a, org)
    requires forall r | PrivateRepo(b, org, r) :: PrivateRepo(a, org, r)
    ensures Collaborators(b, org) <= Collaborators(a, org)
  {
    forall t | GrantingTeam(b, org, t) ensures GrantingTeam(a, org, t) {}
    forall t | ReachingTeam(b, org, t) ensures ReachingTeam(a, org, t) {}
  }

  lemma NoPrivateRepoNoCollaborator(db: Db, org: Id)
    requires !HasPrivateRepos(db, org)
    ensures Collaborators(db, org) == {}
  {}

  lemma OwnerAdded(db: Db, org: Id, user: Id, at: Id)
    ensures var after := db.(members := db.members[(org, user) := Owner]);
            Collaborators(after, at) <= Collaborators(db, at) + (if at == org && HasPrivateRepos(db, org) then {user} else {})
  {
    var after := db.(members := db.members[(org, user) := Owner]);
    SameReposSameTeams(db, after, at);
  }

  /** The member table has no say in which teams and repositories count. */
  lemma SameReposSameTeams(a: Db, b: Db, org: Id)
    requires a.repos == b.repos && a.teams == b.teams && a.grants == b.grants
    ensures HasPrivateRepos(a, org) == HasPrivateRepos(b, org)
    ensures forall r :: PrivateRepo(a, org, r) == PrivateRepo(b, org, r)
    ensures forall t :: ReachingTeam(a, org, t) == ReachingTeam(b, org, t)
  {
    forall r ensures PrivateRepo(a, org, r) == PrivateRepo(b, org, r) {}
    forall t ensures GrantingTeam(a, org, t) == GrantingTeam(b, org, t) {}
    forall t ensures ReachingTeam(a, org, t) == ReachingTeam(b, org, t) {}
  }

  lemma TeamMemberAdded(db: Db, team: Id, user: Id, at: Id)
    requires team in db.teams
    ensures var after := db.(teamMembers := db.teamMembers + {(team, user)});
            Collaborators(after, at)
            <= Collaborators(db, at) + (if at == db.teams[team].org && TeamReachesPrivate(db, team) then {user} else {})
  {
    var after := db.(teamMembers := db.teamMembers + {(team, user)});
    SameReposSameTeams(db, after, at);
    if ReachingTeam(db, at, team) {
      var source := if GrantingTeam(db, at, team) then team else db.teams[team].parent.value;
      var repo :| repo in db.repos && PrivateRepo(db, at, repo) && (source, repo) in db.grants;
      assert PrivateRepo(db, at, (source, repo).1);
    }
  }

  lemma GrantAdded(db: Db, team: Id, repo: Id, at: Id)
    requires team in db.teams
    ensures var after := db.(grants := db.grants + {(team, repo)});
            Collaborators(after, at)
            <= Collaborators(db, at) + (if PrivateRepo(db, at, repo) then GrantCandidates(db, team) else {})
  {
    var after := db.(grants := db.grants + {(team, repo)});
    forall r ensures PrivateRepo(after, at, r) == PrivateRepo(db, at, r) {}
    forall t | GrantingTeam(after, at, t)
      ensures GrantingTeam(db, at, t) || (t == team && PrivateRepo(db, at, repo)) {}
    forall t | ReachingTeam(after, at, t)
      ensures ReachingTeam(db, at, t)
              || (PrivateRepo(db, at, repo) && (t == team || db.teams[t].parent == Some(team))) {}
  }

  lemma CollaboratorAdded(db: Db, repo: Id, user: Id, at: Id)
    ensures var after := db.(collaborators := db.collaborators + {(repo, user)});
            Collaborators(after, at) <= Collaborators(db, at) + (if PrivateRepo(db, at, repo) then {user} else {})
  {
    var after := db.(collaborators := db.collaborators + {(repo, user)});
    SameReposSameTeams(db, after, at);
  }

  /** A fresh repository has no collaborators and no grants: only the owners can be new. */
  lemma RepoAdded(db: Db, repo: Id, row: Repo, at: Id)
    requires Valid(db) && repo !in db.repos
    ensures var after := db.(repos := db.repos[repo := row]);
            Collaborators(after, at)
            <= Collaborators(db, at)
               + (if row.ownerOrg == Some(at) && row.isPrivate && !HasPrivateRepos(db, at) then OwnerIds(db, at) else {})
  {
    var after := db.(repos := db.repos[repo := row]);
    forall r | PrivateRepo(after, at, r) && r != repo ensures PrivateRepo(db, at, r) {}
    forall t | GrantingTeam(after, at, t) ensures GrantingTeam(db, at, t) {}
    forall t | ReachingTeam(after, at, t) ensures ReachingTeam(db, at, t) {}
  }

  /** Making a repository private counts exactly its candidates on top of the current set. */
  lemma VisibilityChanged(db: Db, repo: Id, at: Id)
    requires repo in db.repos && db.repos[repo].ownerOrg == Some(at)
    requires !db.repos[repo].isPrivate && !db.repos[repo].deleted
    ensures var after := db.(repos := db.repos[repo := db.repos[repo].(isPrivate := true)]);
            Collaborators(after, at) == Collaborators(db, at) + RepoCandidates(db, at, repo)
  {
    var after := db.(repos := db.repos[repo := db.repos[repo].(isPrivate := true)]);
    forall r ensures PrivateRepo(after, at, r) == (PrivateRepo(db, at, r) || r == repo) {}
    forall t ensures GrantingTeam(after, at, t) == (GrantingTeam(db, at, t) || GrantedTo(db, at, repo, t)) {
      assert PrivateRepo(after, at, repo);
    }
    assert HasPrivateRepos(after, at);
    assert OwnerIds(after, at) == OwnerIds(db, at);
  }

  // ----- the cap, one step at a time

  /** An organization whose plan caps private collaboration at this instant. */
  ghost predicate Limited(db: Db, now: int, org: Id) {
    org in db.orgs && !Unlimited(db, now, org)
  }

  lemma AfterGate(db: Db, now: int, at: Id, candidates: set<Id>, gated: bool, after: Db)
    requires Valid(db) && Valid(after) && Limited(db, now, at)
    requires gated ==> Refusal(Expansion(db, now, at, candidates, 0)).None?
    requires Collaborators(after, at) <= Collaborators(db, at) + (if gated then candidates else {})
    ensures Within(Collaborators(db, at), Collaborators(after, at))
  {
    hide Collaborators, Expansion;
    CountedUsersAreReal(after, at);
    if gated {
      AllowedExpansionKeepsBound(db, now, at, candidates, Collaborators(after, at));
    } else {
      SubsetSize(Collaborators(after, at), Collaborators(db, at));
    }
  }

  lemma OwnerStepBound(db: Db, now: int, org: Id, user: Id, at: Id)
    requires Valid(db) && Limited(db, now, at) && org in db.orgs && user in db.users
    requires Refusal(OrgOwnerCheck(db, now, org, user)).None?
    ensures var after := db.(members := db.members[(org, user) := Owner]);
            Within(Collaborators(db, at), Collaborators(after, at))
  {
    var after := db.(members := db.members[(org, user) := Owner]);
    OwnerAdded(db, org, user, at);
    AfterGate(db, now, at, {user}, at == org && HasPrivateRepos(db, org), after);
  }

  /** A member row written with a role that is no owner's, or deleted, counts no new user. */
  lemma MemberRowBound(db: Db, after: Db, at: Id)
    requires after == db.(members := after.members)
    requires forall m | m in after.members && after.members[m].Owner? :: m in db.members && db.members[m].Owner?
    ensures Within(Collaborators(db, at), Collaborators(after, at))
  {
    SameReposSameTeams(db, after, at);
    ShrinkingCountsNoMore(db, after, at);
  }

  lemma InsertBound(db: Db, now: int, org: Id, user: Id, role: Role, at: Id)
    requires Valid(db) && Limited(db, now, at)
    ensures var after := InsertMember(db, OwnerGate(db, now, org, user, role), org, user, role).0;
            Within(Collaborators(db, at), Collaborators(after, at))
  {
    var (after, error) := InsertMember(db, OwnerGate(db, now, org, user, role), org, user, role);
    if after != db {
      if role.Owner? { OwnerStepBound(db, now, org, user, at); } else { MemberRowBound(db, after, at); }
    }
  }

  lemma ChangeRoleBound(db: Db, now: int, org: Id, user: Id, role: string, at: Id)
    requires Valid(db) && Limited(db, now, at)
    ensures Within(Collaborators(db, at), Collaborators(ChangeRole(db, now, org, user, role).0, at))
  {
    var (after, error) := ChangeRole(db, now, org, user, role);
    if after != db {
      if db.members[(org, user)].Member? && ParseRole(role).value.Owner? {
        OwnerStepBound(db, now, org, user, at);
      } else {
        MemberRowBound(db, after, at);
      }
    }
  }

  lemma AcceptBound(db: Db, now: int, id: Id, acceptor: Id, owns: bool, at: Id)
    requires Valid(db) && Limited(db, now, at) && id in db.invitations
    ensures Within(Collaborators(db, at), Collaborators(AcceptInvitation(db, now, id, acceptor, owns).0, at))
  {
    var inv := db.invitations[id];
    var gate := OwnerGate(db, now, inv.org, acceptor, inv.role);
    InsertBound(db, now, inv.org, acceptor, inv.role, at);
    InvitationsDoNotCount(InsertMember(db, gate, inv.org, acceptor, inv.role), now, id, inv, at);
  }

  lemma InvitationsDoNotCount(inserted: Result, now: int, id: Id, inv: Invitation, at: Id)
    ensures |Collaborators(MarkAccepted(inserted, now, id, inv).0, at)| <= |Collaborators(inserted.0, at)|
  {
    var after := MarkAccepted(inserted, now, id, inv).0;
    SameReposSameTeams(inserted.0, after, at);
    SubsetsOfParts(inserted.0, after, at);
    SubsetSize(Collaborators(after, at), Collaborators(inserted.0, at));
  }

  lemma CreateOrgBound(db: Db, now: int, org: Id, creator: Id, at: Id)
    requires Valid(db) && Limited(db, now, at)
    ensures Within(Collaborators(db, at), Collaborators(CreateOrg(db, org, creator).0, at))
  {
    var after := CreateOrg(db, org, creator).0;
    if after != db {
      SameReposSameTeams(db, after, at);
      ShrinkingCountsNoMore(db, after, at);
    }
  }

  /** A fresh team has no members and no grants. */
  lemma TeamAdded(db: Db, team: Id, row: Team, at: Id)
    requires Valid(db) && team !in db.teams
    ensures Collaborators(db.(teams := db.teams[team := row]), at) <= Collaborators(db, at)
  {
    var after := db.(teams := db.teams[team := row]);
    forall r ensures PrivateRepo(after, at, r) == PrivateRepo(db, at, r) {}
    forall t | GrantingTeam(after, at, t) ensures GrantingTeam(db, at, t) {}
    forall t | ReachingTeam(after, at, t) && t != team ensures ReachingTeam(db, at, t) {}
  }

  lemma CreateTeamBound(db: Db, now: int, team: Id, org: Id, parent: Id, at: Id)
    requires Valid(db) && Limited(db, now, at)
    ensures Within(Collaborators(db, at), Collaborators(CreateTeam(db, team, org, parent).0, at))
  {
    hide Collaborators, Valid;
    var after := CreateTeam(db, team, org, parent).0;
    if after != db {
      TeamAdded(db, team, after.teams[team], at);
      SubsetSize(Collaborators(after, at), Collaborators(db, at));
    }
  }

  lemma AddTeamMemberBound(db: Db, now: int, team: Id, user: Id, at: Id)
    requires Valid(db) && Limited(db, now, at)
    ensures Within(Collaborators(db, at), Collaborators(AddTeamMember(db, now, team, user).0, at))
  {
    hide Within, Expansion;
    Unchanged(db, at);
    var after := AddTeamMember(db, now, team, user).0;
    if after != db {
      TeamMemberAdded(db, team, user, at);
      PairRowsKeepValid(db, None, team, user, 0);
      AfterGate(db, now, at, {user}, at == db.teams[team].org && TeamReachesPrivate(db, team), after);
    }
  }

  lemma GrantBound(db: Db, now: int, team: Id, repo: Id, at: Id)
    requires Valid(db) && Limited(db, now, at)
    ensures Within(Collaborators(db, at), Collaborators(GrantTeamRepoAccess(db, now, team, repo).0, at))
  {
    var after := GrantTeamRepoAccess(db, now, team, repo).0;
    if after != db {
      GrantAdded(db, team, repo, at);
      PairRowsKeepValid(db, None, team, 0, repo);
      AfterGate(db, now, at, GrantCandidates(db, team), PrivateRepo(db, at, repo), after);
    }
  }

  lemma AddCollaboratorBound(db: Db, now: int, repo: Id, user: Id, at: Id)
    requires Valid(db) && Limited(db, now, at)
    ensures Within(Collaborators(db, at), Collaborators(AddCollaborator(db, now, repo, user).0, at))
  {
    hide Within, Expansion;
    Unchanged(db, at);
    var after := AddCollaborator(db, now, repo, user).0;
    if after != db {
      CollaboratorAdded(db, repo, user, at);
      PairRowsKeepValid(db, None, 0, user, repo);
      AfterGate(db, now, at, {user}, PrivateRepo(db, at, repo), after);
    }
  }

  lemma RepoInsertBound(db: Db, now: int, refusal: Option<Error>, repo: Id, owner: Option<Id>, isPrivate: bool, at: Id)
    requires Valid(db) && Limited(db, now, at)
    requires owner == Some(at) && isPrivate && refusal.None? && !HasPrivateRepos(db, at)
             ==> Refusal(Expansion(db, now, at, OwnerIds(db, at), 0)).None?
    ensures Within(Collaborators(db, at), Collaborators(InsertRepo(db, refusal, repo, owner, isPrivate).0, at))
  {
    hide Collaborators, Within, Expansion;
    var (after, error) := InsertRepo(db, refusal, repo, owner, isPrivate);
    Unchanged(db, at);
    if error.None? {
      RepoAdded(db, repo, Repo(owner, isPrivate, false), at);
      RepoRowsKeepValid(db, refusal, repo, owner, isPrivate);
      AfterGate(db, now, at, OwnerIds(db, at), owner == Some(at) && isPrivate && !HasPrivateRepos(db, at), after);
    }
  }

  lemma CreateRepoBound(db: Db, now: int, repo: Id, owner: Option<Id>, isPrivate: bool, at: Id)
    requires Valid(db) && Limited(db, now, at)
    ensures Within(Collaborators(db, at), Collaborators(CreateRepo(db, now, repo, owner, isPrivate).0, at))
  {
    hide Within, Expansion;
    if !HasPrivateRepos(db, at) { NoPrivateRepoNoCollaborator(db, at); }
    var refusal := if owner.Some? && isPrivate then Refusal(PrivateRepositoryCreation(db, now, owner.value)) else None;
    RepoInsertBound(db, now, refusal, repo, owner, isPrivate, at);
  }

  lemma MadePrivateBound(db: Db, now: int, repo: Id, at: Id)
    requires Valid(db) && Limited(db, now, at)
    requires repo in db.repos && db.repos[repo].ownerOrg == Some(at)
    requires !db.repos[repo].isPrivate && !db.repos[repo].deleted
    requires Refusal(Expansion(db, now, at, RepoCandidates(db, at, repo), 0)).None?
    ensures var after := db.(repos := db.repos[repo := db.repos[repo].(isPrivate := true)]);
            Within(Collaborators(db, at), Collaborators(after, at))
  {
    var after := db.(repos := db.repos[repo := db.repos[repo].(isPrivate := true)]);
    assert Valid(after) by { RepoRowsKeepValid(db, None, repo, None, true); }
    CountedUsersAreReal(after, at);
    assert Collaborators(after, at) == Collaborators(db, at) + RepoCandidates(db, at, repo) by {
      VisibilityChanged(db, repo, at);
    }
    AllowedExpansionKeepsBound(db, now, at, RepoCandidates(db, at, repo), Collaborators(after, at));
  }

  lemma VisibilityRowBound(db: Db, now: int, refusal: Option<Error>, repo: Id, isPrivate: bool, at: Id)
    requires Valid(db) && Limited(db, now, at) && repo in db.repos && db.repos[repo].isPrivate != isPrivate
    requires isPrivate && db.repos[repo].ownerOrg == Some(at) && refusal.None?
             ==> Refusal(Expansion(db, now, at, RepoCandidates(db, at, repo), 0)).None?
    ensures Within(Collaborators(db, at), Collaborators(UpdateVisibility(db, refusal, repo, isPrivate).0, at))
  {
    hide Collaborators, Within, Expansion, RepoCandidates;
    Unchanged(db, at);
    if refusal.None? {
      if isPrivate && db.repos[repo].ownerOrg == Some(at) && !db.repos[repo].deleted {
        MadePrivateBound(db, now, repo, at);
      } else {
        RepoRowBound(db, repo, db.repos[repo].(isPrivate := isPrivate), at);
      }
    }
  }

  lemma SetVisibilityBound(db: Db, now: int, repo: Id, isPrivate: bool, at: Id)
    requires Valid(db) && Limited(db, now, at)
    ensures Within(Collaborators(db, at), Collaborators(SetVisibility(db, now, repo, isPrivate).0, at))
  {
    hide Collaborators, Within, Expansion, RepoCandidates;
    Unchanged(db, at);
    if repo in db.repos && db.repos[repo].isPrivate != isPrivate {
      var owner := db.repos[repo].ownerOrg;
      var refusal := if owner.Some? && isPrivate
                     then Refusal(RepoPrivateVisibility(db, now, owner.value, repo)) else None;
      VisibilityRowBound(db, now, refusal, repo, isPrivate, at);
    }
  }

  lemma RepoRowBound(db: Db, repo: Id, row: Repo, at: Id)
    requires repo in db.repos && row.ownerOrg == db.repos[repo].ownerOrg
    requires row.ownerOrg == Some(at) && row.isPrivate && !row.deleted ==> PrivateRepo(db, at, repo)
    ensures Within(Collaborators(db, at), Collaborators(db.(repos := db.repos[repo := row]), at))
  {
    var after := db.(repos := db.repos[repo := row]);
    forall r | PrivateRepo(after, at, r) ensures PrivateRepo(db, at, r) {}
    assert OwnerIds(after, at) == OwnerIds(db, at);
    ShrinkingCountsNoMore(db, after, at);
  }

  lemma RemovalsBound(db: Db, team: Id, user: Id, repo: Id, at: Id)
    ensures Within(Collaborators(db, at), Collaborators(RemoveTeamMember(db, team, user).0, at))
    ensures Within(Collaborators(db, at), Collaborators(RevokeTeamRepoAccess(db, team, repo).0, at))
    ensures Within(Collaborators(db, at), Collaborators(RemoveCollaborator(db, repo, user).0, at))
  {
    PairsRemoved(db, db.(teamMembers := db.teamMembers - {(team, user)}), at);
    PairsRemoved(db, db.(grants := db.grants - {(team, repo)}), at);
    PairsRemoved(db, db.(collaborators := db.collaborators - {(repo, user)}), at);
  }

  lemma PairsRemoved(db: Db, after: Db, at: Id)
    requires after == db.(teamMembers := after.teamMembers, grants := after.grants, collaborators := after.collaborators)
    requires after.teamMembers <= db.teamMembers && after.grants <= db.grants
    requires after.collaborators <= db.collaborators
    ensures Within(Collaborators(db, at), Collaborators(after, at))
  {
    forall r | PrivateRepo(after, at, r) ensures PrivateRepo(db, at, r) {}
    assert OwnerIds(after, at) == OwnerIds(db, at);
    ShrinkingCountsNoMore(db, after, at);
  }

  lemma RemoveMemberBound(db: Db, org: Id, user: Id, at: Id)
    ensures Within(Collaborators(db, at), Collaborators(RemoveMember(db, org, user).0, at))
  {
    MemberRowBound(db, RemoveMember(db, org, user).0, at);
  }

  lemma SoftDeleteBound(db: Db, repo: Id, at: Id)
    ensures Within(Collaborators(db, at), Collaborators(SoftDelete(db, repo).0, at))
  {
    if repo in db.repos { RepoRowBound(db, repo, db.repos[repo].(deleted := true), at); }
  }

  lemma SetBillingBound(db: Db, org: Id, billing: Billing, at: Id)
    ensures Within(Collaborators(db, at), Collaborators(SetBilling(db, org, billing).0, at))
  {
    var after := SetBilling(db, org, billing).0;
    SameReposSameTeams(db, after, at);
    ShrinkingCountsNoMore(db, after, at);
  }

  lemma Unchanged(db: Db, at: Id)
    ensures Within(Collaborators(db, at), Collaborators(db, at))
  {}

  lemma OrgStepKeepsCap(db: Db, now: int, op: OrgOp, at: Id)
    requires Valid(db) && Limited(db, now, at)
    ensures Within(Collaborators(db, at), Collaborators(ApplyOrg(db, now, op).0, at))
  {
    hide Collaborators, Within;
    match op
    case OpCreateOrg(org, creator) => CreateOrgBound(db, now, org, creator, at);
    case OpAddMember(org, user, role) =>
      var parsed := ParseRole(if role == "" then "member" else role);
      if parsed.Some? { InsertBound(db, now, org, user, parsed.value, at); } else { Unchanged(db, at); }
    case OpChangeRole(org, user, role) => ChangeRoleBound(db, now, org, user, role, at);
    case OpRemoveMember(org, user) => RemoveMemberBound(db, org, user, at);
    case OpAccept(id, acceptor, owns) =>
      if id in db.invitations { AcceptBound(db, now, id, acceptor, owns, at); } else { Unchanged(db, at); }
    case OpSetBilling(org, billing) => SetBillingBound(db, org, billing, at);
  }

  lemma TeamStepKeepsCap(db: Db, now: int, op: TeamOp, at: Id)
    requires Valid(db) && Limited(db, now, at)
    ensures Within(Collaborators(db, at), Collaborators(ApplyTeam(db, now, op).0, at))
  {
    hide Collaborators, Within;
    match op
    case OpCreateTeam(team, org, parent) => CreateTeamBound(db, now, team, org, parent, at);
    case OpAddTeamMember(team, user) => AddTeamMemberBound(db, now, team, user, at);
    case OpRemoveTeamMember(team, user) => RemovalsBound(db, team, user, 0, at);
    case OpGrant(team, repo) => GrantBound(db, now, team, repo, at);
    case OpRevoke(team, repo) => RemovalsBound(db, team, 0, repo, at);
  }

  lemma RepoStepKeepsCap(db: Db, now: int, op: RepoOp, at: Id)
    requires Valid(db) && Limited(db, now, at)
    ensures Within(Collaborators(db, at), Collaborators(ApplyRepo(db, now, op).0, at))
  {
    hide Collaborators, Within;
    match op
    case OpAddCollaborator(repo, user) => AddCollaboratorBound(db, now, repo, user, at);
    case OpRemoveCollaborator(repo, user) => RemovalsBound(db, 0, user, repo, at);
    case OpCreateRepo(repo, owner, isPrivate) => CreateRepoBound(db, now, repo, owner, isPrivate, at);
    case OpSetVisibility(repo, isPrivate) => SetVisibilityBound(db, now, repo, isPrivate, at);
    case OpSoftDelete(repo) => SoftDeleteBound(db, repo, at);
  }

  /** One step, any operation, any organization: no gated step passes the cap. */
  lemma StepKeepsCap(db: Db, now: int, op: Op, at: Id)
    requires Valid(db) && Limited(db, now, at)
    ensures Within(Collaborators(db, at), Collaborators(Apply(db, now, op).0, at))
  {
    hide Collaborators, Within;
    match op
    case OnOrg(o) => OrgStepKeepsCap(db, now, o, at);
    case OnTeam(o) => TeamStepKeepsCap(db, now, o, at);
    case OnRepo(o) => RepoStepKeepsCap(db, now, o, at);
  }

  lemma OrgStepKeepsValid(db: Db, now: int, op: OrgOp)
    requires Valid(db)
    ensures Valid(ApplyOrg(db, now, op).0)
  {
    match op
    case OpCreateOrg(org, creator) => NewOrgKeepsValid(db, org, creator);
    case OpAddMember(org, user, role) =>
      var parsed := ParseRole(if role == "" then "member" else role);
      if parsed.Some? {
        MemberRowsKeepValid(db, OwnerGate(db, now, org, user, parsed.value), org, user, parsed.value);
      }
    case OpChangeRole(org, user, role) =>
      var parsed := ParseRole(role);
      if parsed.Some? && (org, user) in db.members {
        var refusal := RoleChangeGate(db, now, org, user, db.members[(org, user)], parsed.value);
        MemberRowsKeepValid(db, refusal, org, user, parsed.value);
      }
    case OpRemoveMember(org, user) =>
    case OpAccept(id, acceptor, owns) =>
      if id in db.invitations {
        var inv := db.invitations[id];
        MemberRowsKeepValid(db, OwnerGate(db, now, inv.org, acceptor, inv.role), inv.org, acceptor, inv.role);
      }
    case OpSetBilling(org, billing) => BillingKeepsValid(db, org, billing);
  }

  lemma TeamStepKeepsValid(db: Db, now: int, op: TeamOp)
    requires Valid(db)
    ensures Valid(ApplyTeam(db, now, op).0)
  {
    match op
    case OpCreateTeam(team, org, parent) => NewTeamKeepsValid(db, team, org, parent);
    case OpAddTeamMember(team, user) =>
      PairRowsKeepValid(db, Refusal(TeamMemberCheck(db, now, team, user)), team, user, 0);
    case OpGrant(team, repo) =>
      PairRowsKeepValid(db, Refusal(TeamGrantCheck(db, now, team, repo)), team, 0, repo);
    case _ =>
  }

  lemma RepoStepKeepsValid(db: Db, now: int, op: RepoOp)
    requires Valid(db)
    ensures Valid(ApplyRepo(db, now, op).0)
  {
    match op
    case OpAddCollaborator(repo, user) =>
      PairRowsKeepValid(db, Refusal(DirectCollaboratorCheck(db, now, repo, user)), 0, user, repo);
    case OpRemoveCollaborator(repo, user) =>
    case OpCreateRepo(repo, owner, isPrivate) =>
      var refusal := if owner.Some? && isPrivate then Refusal(PrivateRepositoryCreation(db, now, owner.value)) else None;
      RepoRowsKeepValid(db, refusal, repo, owner, isPrivate);
    case OpSetVisibility(repo, isPrivate) => RepoRowsKeepValid(db, None, repo, None, isPrivate);
    case OpSoftDelete(repo) => RepoRowsKeepValid(db, None, repo, None, false);
  }

  lemma StepKeepsValid(db: Db, now: int, op: Op)
    requires Valid(db)
    ensures Valid(Apply(db, now, op).0)
  {
    match op
    case OnOrg(o) => OrgStepKeepsValid(db, now, o);
    case OnTeam(o) => TeamStepKeepsValid(db, now, o);
    case OnRepo(o) => RepoStepKeepsValid(db, now, o);
  }

  // ----- whole runs

  datatype Timed = Timed(now: int, op: Op)

  function Run(db: Db, steps: seq<Timed>): Db {
    if steps == [] then db else
    var last := steps[|steps| - 1];
    Apply(Run(db, steps[..|steps| - 1]), last.now, last.op).0
  }

  ghost predicate LimitedThroughout(db: Db, steps: seq<Timed>, org: Id) {
    forall k | 0 <= k < |steps| :: Limited(Run(db, steps[..k]), steps[k].now, org)
  }

  lemma {:induction false} RunKeepsValid(db: Db, steps: seq<Timed>)
    requires Valid(db)
    ensures Valid(Run(db, steps))
  {
    hide Valid, Apply;
    if steps != [] {
      var last := steps[|steps| - 1];
      RunKeepsValid(db, steps[..|steps| - 1]);
      StepKeepsValid(Run(db, steps[..|steps| - 1]), last.now, last.op);
    }
  }

  /** The cap: while an organization stays limited, no run of operations makes the recounted set
      of private collaborators larger than the cap, unless it was larger to begin with. */
  lemma {:induction false} RunKeepsCap(db: Db, steps: seq<Timed>, org: Id)
    requires Valid(db) && LimitedThroughout(db, steps, org)
    ensures |Collaborators(Run(db, steps), org)| <= Max(FREE_LIMIT, |Collaborators(db, org)|)
  {
    hide Valid, Apply, Collaborators, Limited;
    if steps != [] {
      var init := steps[..|steps| - 1];
      var last := steps[|steps| - 1];
      forall k | 0 <= k < |init| ensures Limited(Run(db, init[..k]), init[k].now, org) {
        assert steps[..k] == init[..k];
      }
      RunKeepsCap(db, init, org);
      RunKeepsValid(db, init);
      assert Limited(Run(db, steps[..|init|]), steps[|init|].now, org);
      StepKeepsCap(Run(db, init), last.now, last.op, org);
    }
  }

  // ----- the last-owner rule

  lemma AnotherOwner(db: Db, org: Id, user: Id) returns (other: Id)
    requires OwnerCount(db, org) > 1
    ensures other != user && (org, other) in db.members && db.members[(org, other)].Owner?
  {
    var rest := OwnerIds(db, org) - {user};
    if rest == {} {
      SubsetSize(OwnerIds(db, org), {user});
    }
    other := SomeMember(rest);
  }

  /** Writing or deleting one row leaves every organization owned if its own keeps an owner. */
  lemma OneRowKeepsOwned(a: Db, b: Db, org: Id, user: Id)
    requires Owned(a) && b.orgs.Keys <= a.orgs.Keys + {org} && HasOwner(b, org)
    requires forall m | m in a.members && m != (org, user) :: m in b.members && b.members[m] == a.members[m]
    ensures Owned(b)
  {
    forall o | o in b.orgs ensures HasOwner(b, o) {
      if o != org {
        assert HasOwner(a, o);
        var u :| (o, u) in a.members && a.members[(o, u)].Owner?;
        assert (o, u) in b.members;
      }
    }
  }

  lemma InsertKeepsOwned(db: Db, refusal: Option<Error>, org: Id, user: Id, role: Role)
    requires Owned(db)
    ensures Owned(InsertMember(db, refusal, org, user, role).0)
    ensures (org, user) in db.members ==> InsertMember(db, refusal, org, user, role).0 == db
  {
    var after := InsertMember(db, refusal, org, user, role).0;
    if after != db {
      assert HasOwner(db, org);
      var u :| (org, u) in db.members && db.members[(org, u)].Owner?;
      assert (org, u) in after.members;
      OneRowKeepsOwned(db, after, org, user);
    }
  }

  lemma ChangeRoleKeepsOwned(db: Db, now: int, org: Id, user: Id, role: string)
    requires Owned(db) && Valid(db)
    ensures Owned(ChangeRole(db, now, org, user, role).0)
  {
    hide OrgOwnerCheck, Valid;
    var (after, error) := ChangeRole(db, now, org, user, role);
    if error.None? {
      if after.members[(org, user)].Member? && db.members[(org, user)].Owner? {
        var other := AnotherOwner(db, org, user);
        assert (org, other) in after.members;
      } else {
        assert org in db.orgs by { assert Valid(db); MemberOrg(db, org, user); }
        assert HasOwner(db, org);
        var u :| (org, u) in db.members && db.members[(org, u)].Owner?;
        assert (org, u) in after.members;
      }
      OneRowKeepsOwned(db, after, org, user);
    }
  }

  lemma MemberOrg(db: Db, org: Id, user: Id)
    requires Valid(db) && (org, user) in db.members
    ensures org in db.orgs
  {}

  lemma RemoveMemberKeepsOwned(db: Db, org: Id, user: Id)
    requires Owned(db) && Valid(db)
    ensures Owned(RemoveMember(db, org, user).0)
  {
    hide Valid;
    var (after, error) := RemoveMember(db, org, user);
    if error.None? {
      if db.members[(org, user)].Owner? {
        var other := AnotherOwner(db, org, user);
        assert (org, other) in after.members;
      } else {
        MemberOrg(db, org, user);
        assert HasOwner(db, org);
        var u :| (org, u) in db.members && db.members[(org, u)].Owner?;
        assert (org, u) in after.members;
      }
      OneRowKeepsOwned(db, after, org, user);
    }
  }

  lemma CreateOrgKeepsOwned(db: Db, org: Id, creator: Id)
    requires Owned(db)
    ensures Owned(CreateOrg(db, org, creator).0)
  {
    var (after, error) := CreateOrg(db, org, creator);
    if error.None? {
      assert (org, creator) in after.members;
      OneRowKeepsOwned(db, after, org, creator);
    }
  }

  lemma SameMembersKeepOwned(a: Db, b: Db)
    requires Owned(a) && a.members == b.members && a.orgs.Keys == b.orgs.Keys
    ensures Owned(b)
  {
    forall o | o in b.orgs ensures HasOwner(b, o) {
      assert HasOwner(a, o);
    }
  }

  lemma OrgStepKeepsOwned(db: Db, now: int, op: OrgOp)
    requires Valid(db) && Owned(db)
    ensures Owned(ApplyOrg(db, now, op).0)
  {
    hide OrgOwnerCheck, Valid, Owned;
    match op
    case OpCreateOrg(org, creator) => CreateOrgKeepsOwned(db, org, creator);
    case OpAddMember(org, user, role) =>
      var parsed := ParseRole(if role == "" then "member" else role);
      if parsed.Some? {
        InsertKeepsOwned(db, OwnerGate(db, now, org, user, parsed.value), org, user, parsed.value);
      }
    case OpChangeRole(org, user, role) => ChangeRoleKeepsOwned(db, now, org, user, role);
    case OpRemoveMember(org, user) => RemoveMemberKeepsOwned(db, org, user);
    case OpAccept(id, acceptor, owns) =>
      if id in db.invitations {
        var inv := db.invitations[id];
        var gate := OwnerGate(db, now, inv.org, acceptor, inv.role);
        InsertKeepsOwned(db, gate, inv.org, acceptor, inv.role);
        var inserted := InsertMember(db, gate, inv.org, acceptor, inv.role);
        SameMembersKeepOwned(inserted.0, MarkAccepted(inserted, now, id, inv).0);
      }
    case OpSetBilling(org, billing) => SameMembersKeepOwned(db, SetBilling(db, org, billing).0);
  }

  lemma StepKeepsOwned(db: Db, now: int, op: Op)
    requires Valid(db) && Owned(db)
    ensures Owned(Apply(db, now, op).0)
  {
    hide Valid, Owned, ApplyOrg, ApplyTeam, ApplyRepo;
    match op
    case OnOrg(o) => OrgStepKeepsOwned(db, now, o);
    case OnTeam(o) => TeamStepKeepsMembers(db, now, o); SameMembersKeepOwned(db, ApplyTeam(db, now, o).0);
    case OnRepo(o) => RepoStepKeepsMembers(db, now, o); SameMembersKeepOwned(db, ApplyRepo(db, now, o).0);
  }

  lemma TeamStepKeepsMembers(db: Db, now: int, op: TeamOp)
    ensures var after := ApplyTeam(db, now, op).0; after.members == db.members && after.orgs == db.orgs
  {
    hide TeamMemberCheck, TeamGrantCheck;
  }

  lemma RepoStepKeepsMembers(db: Db, now: int, op: RepoOp)
    ensures var after := ApplyRepo(db, now, op).0; after.members == db.members && after.orgs == db.orgs
  {
    hide DirectCollaboratorCheck, PrivateRepositoryCreation, RepoPrivateVisibility;
  }

  /** No run of operations leaves an organization without an owner. */
  lemma {:induction false} RunKeepsOwned(db: Db, steps: seq<Timed>)
    requires Valid(db) && Owned(db)
    ensures Owned(Run(db, steps))
  {
    hide Valid, Apply, Owned;
    if steps != [] {
      var last := steps[|steps| - 1];
      RunKeepsOwned(db, steps[..|steps| - 1]);
      RunKeepsValid(db, steps[..|steps| - 1]);
      StepKeepsOwned(Run(db, steps[..|steps| - 1]), last.now, last.op);
    }
  }

  // ----- the incremental prediction is exact

  /** When making a repository private is allowed, the predicted use is the recount afterwards. */
  lemma VisibilityPredictionIsExact(db: Db, now: int, org: Id, repo: Id)
    requires Valid(db) && Limited(db, now, org)
    requires repo in db.repos && db.repos[repo].ownerOrg == Some(org)
    requires !db.repos[repo].isPrivate && !db.repos[repo].deleted
    requires Refusal(RepoPrivateVisibility(db, now, org, repo)).None?
    ensures var (after, error) := SetVisibility(db, now, repo, true);
            error.None?
            && RepoPrivateVisibility(db, now, org, repo).check.wouldUse == |Collaborators(after, org)|
  {
    hide Collaborators, RepoCandidates;
    var candidates := RepoCandidates(db, org, repo);
    var after := SetVisibility(db, now, repo, true).0;
    VisibilityChanged(db, repo, org);
    RepoRowsKeepValid(db, None, repo, None, true);
    CountedUsersAreReal(db, org);
    CountedUsersAreReal(after, org);
    PredictionIsUnionSize(db, now, org, candidates);
    assert Collaborators(db, org) + (candidates - {0}) == Collaborators(after, org);
  }

  /** With teams nested inside their organization, a grant counts exactly its candidates. */
  lemma GrantCountsCandidates(db: Db, team: Id, org: Id, repo: Id)
    requires Valid(db) && team in db.teams && db.teams[team].org == org && PrivateRepo(db, org, repo)
    ensures var after := db.(grants := db.grants + {(team, repo)});
            Collaborators(after, org) == Collaborators(db, org) + GrantCandidates(db, team)
  {
    var after := db.(grants := db.grants + {(team, repo)});
    GrantAdded(db, team, repo, org);
    forall r ensures PrivateRepo(after, org, r) == PrivateRepo(db, org, r) {}
    forall t | GrantingTeam(db, org, t) ensures GrantingTeam(after, org, t) {}
    forall t | ReachingTeam(db, org, t) ensures ReachingTeam(after, org, t) {}
    assert GrantingTeam(after, org, team);
    forall t | t in db.teams && (t == team || db.teams[t].parent == Some(team)) ensures ReachingTeam(after, org, t) {
      assert TeamLinks(db.orgs, db.teams, t);
    }
    assert OwnerIds(after, org) == OwnerIds(db, org);
  }

  /** When granting a private repository to a team of the same organization is allowed, the
      predicted use is the recount afterwards. */
  lemma GrantPredictionIsExact(db: Db, now: int, org: Id, team: Id, repo: Id)
    requires Valid(db) && Limited(db, now, org)
    requires team in db.teams && db.teams[team].org == org && PrivateRepo(db, org, repo)
    requires Refusal(TeamGrantCheck(db, now, team, repo)).None?
    ensures var (after, error) := GrantTeamRepoAccess(db, now, team, repo);
            error.None? && TeamGrantCheck(db, now, team, repo).check.wouldUse == |Collaborators(after, org)|
  {
    hide Collaborators, GrantCandidates;
    var candidates := GrantCandidates(db, team);
    var after := GrantTeamRepoAccess(db, now, team, repo).0;
    GrantCountsCandidates(db, team, org, repo);
    PairRowsKeepValid(db, None, team, 0, repo);
    CountedUsersAreReal(db, org);
    CountedUsersAreReal(after, org);
    PredictionIsUnionSize(db, now, org, candidates);
    assert Collaborators(db, org) + (candidates - {0}) == Collaborators(after, org);
  }

  // ----- changing a team's parent is not gated

  /** Not an `Op`: the source runs no collaboration check here. A parent of 0 clears the link. */
  function SetTeamParent(db: Db, team: Id, parent: Id): Result {
    if parent == team then Refuse(db, SelfParent)
    else if team !in db.teams then Accept(db)
    else if parent == 0 then Accept(db.(teams := db.teams[team := db.teams[team].(parent := None)]))
    else if parent !in db.teams then Refuse(db, ForeignKey)
    else if db.teams[parent].parent.Some? then Refuse(db, NestingTooDeep)
    else Accept(db.(teams := db.teams[team := db.teams[team].(parent := Some(parent))]))
  }

  function MembersOf(db: Db, team: Id): set<Id> {
    set m | m in db.teamMembers && m.0 == team :: m.1
  }

  /** Who reaches the organization's private repositories other than as a member of the team. */
  function OtherwiseIds(db: Db, org: Id, team: Id): set<Id> {
    (if HasPrivateRepos(db, org) then OwnerIds(db, org) else {}) + DirectIds(db, org)
    + (set m | m in db.teamMembers && m.0 != team && ReachingTeam(db, org, m.0) :: m.1)
  }

  /** Who counts only because the team's present parent holds a grant. */
  function OnlyThroughParent(db: Db, org: Id, team: Id): set<Id> {
    if GrantingTeam(db, org, team) then {} else MembersOf(db, team) - OtherwiseIds(db, org, team)
  }

  predicate GrantingParent(db: Db, org: Id, parent: Id) {
    parent != 0 && GrantingTeam(db, org, parent)
  }

  /** The link matters to the team's own reach only. */
  lemma ParentChangesReach(db: Db, team: Id, parent: Id, org: Id, t: Id)
    requires team in db.teams && db.teams[team].org == org && SetTeamParent(db, team, parent).1.None?
    ensures var after := SetTeamParent(db, team, parent).0;
      ReachingTeam(after, org, t) ==
      if t == team then GrantingTeam(db, org, team) || GrantingParent(db, org, parent) else ReachingTeam(db, org, t)
  {
    var after := SetTeamParent(db, team, parent).0;
    forall r ensures PrivateRepo(after, org, r) == PrivateRepo(db, org, r) {}
    forall t ensures GrantingTeam(after, org, t) == GrantingTeam(db, org, t) {}
  }

  /** Split off one team: the rest does not see the link. */
  lemma SplitCollaborators(db: Db, org: Id, team: Id)
    ensures Collaborators(db, org) ==
      OtherwiseIds(db, org, team) + (if ReachingTeam(db, org, team) then MembersOf(db, team) else {})
  {
    hide ReachingTeam;
  }

  lemma OtherwiseUnchanged(db: Db, team: Id, parent: Id, org: Id)
    requires team in db.teams && db.teams[team].org == org && SetTeamParent(db, team, parent).1.None?
    ensures var after := SetTeamParent(db, team, parent).0;
      OtherwiseIds(after, org, team) == OtherwiseIds(db, org, team) && MembersOf(after, team) == MembersOf(db, team)
  {
    var after := SetTeamParent(db, team, parent).0;
    forall r ensures PrivateRepo(after, org, r) == PrivateRepo(db, org, r) {}
    assert OwnerIds(after, org) == OwnerIds(db, org) && DirectIds(after, org) == DirectIds(db, org);
    forall t | t != team ensures ReachingTeam(after, org, t) == ReachingTeam(db, org, t) {
      ParentChangesReach(db, team, parent, org, t);
    }
    hide ReachingTeam;
    assert after.teamMembers == db.teamMembers;
  }

  /** Exactly who counts after a new parent, from the tables before: with a granting parent the
      team's members join; without one, those who counted only through the old parent leave. */
  lemma ParentedCollaborators(db: Db, team: Id, parent: Id, org: Id)
    requires team in db.teams && db.teams[team].org == org && SetTeamParent(db, team, parent).1.None?
    ensures Collaborators(SetTeamParent(db, team, parent).0, org) ==
      if GrantingParent(db, org, parent) then Collaborators(db, org) + MembersOf(db, team)
      else Collaborators(db, org) - OnlyThroughParent(db, org, team)
  {
    var after := SetTeamParent(db, team, parent).0;
    OtherwiseUnchanged(db, team, parent, org);
    ParentChangesReach(db, team, parent, org, team);
    assert GrantingTeam(db, org, team) ==> ReachingTeam(db, org, team);
    hide SetTeamParent, Collaborators, OtherwiseIds, MembersOf, ReachingTeam, GrantingTeam;
    SplitCollaborators(db, org, team);
    SplitCollaborators(after, org, team);
  }

  /** The missing gate: a new parent keeps a limited organization within its cap if and only if the
      parent grants no private access or the check on the team's members would have allowed it. */
  lemma SetTeamParentKeepsCapIff(db: Db, now: int, team: Id, parent: Id, org: Id)
    requires Valid(db) && Limited(db, now, org) && team in db.teams && db.teams[team].org == org
    requires SetTeamParent(db, team, parent).1.None?
    ensures Within(Collaborators(db, org), Collaborators(SetTeamParent(db, team, parent).0, org)) <==>
      !GrantingParent(db, org, parent) || Refusal(Expansion(db, now, org, MembersOf(db, team), 0)).None?
  {
    TeamMembersAreReal(db, team);
    assert org != 0;
    hide Valid, Collaborators, MembersOf, SetTeamParent, OnlyThroughParent, GrantingParent, Unlimited, Expansion;
    ParentedCollaborators(db, team, parent, org);
    ExpansionAllowsIff(db, now, org, MembersOf(db, team));
    SubsetSize(Collaborators(db, org) - OnlyThroughParent(db, org, team), Collaborators(db, org));
  }

  lemma TeamMembersAreReal(db: Db, team: Id)
    requires Valid(db)
    ensures 0 !in MembersOf(db, team)
  {}

  predicate HasChild(db: Db, team: Id) {
    exists t :: t in db.teams && db.teams[t].parent == Some(team)
  }

  /** The trigger looks only upwards: a parent change keeps the schema exactly when it does
      nothing, clears the link, or links a childless team to a parent of its own organization. */
  lemma SetTeamParentKeepsValidIff(db: Db, team: Id, parent: Id)
    requires Valid(db)
    ensures Valid(SetTeamParent(db, team, parent).0) <==>
      || SetTeamParent(db, team, parent).1.Some? || team !in db.teams || parent == 0
      || (db.teams[parent].org == db.teams[team].org && !HasChild(db, team))
  {
    var (after, error) := SetTeamParent(db, team, parent);
    if error.None? && team in db.teams {
      forall t | t in db.teams ensures TeamLinks(db.orgs, db.teams, t) {}
      forall t | t in db.teams && t != team && db.teams[t].parent != Some(team)
        ensures TeamLinks(after.orgs, after.teams, t) {}
      if parent != 0 && HasChild(db, team) {
        var t :| t in db.teams && db.teams[t].parent == Some(team);
        assert !TeamLinks(after.orgs, after.teams, t);
      }
      assert parent != 0 && db.teams[parent].org != db.teams[team].org ==> !TeamLinks(after.orgs, after.teams, team);
    }
  }

  /** Two accepted changes that break it: a team with a child gets a parent, and a team gets a
      parent of another organization. */
  lemma SetTeamParentCanBreakNesting()
    ensures var db := NestingExample();
      && Valid(db) && SetTeamParent(db, 20, 22).1.None? && !Valid(SetTeamParent(db, 20, 22).0)
      && SetTeamParent(db, 22, 23).1.None? && !Valid(SetTeamParent(db, 22, 23).0)
  {
    var db := NestingExample();
    assert TeamLinks(db.orgs, db.teams, 20) && TeamLinks(db.orgs, db.teams, 21);
    assert TeamLinks(db.orgs, db.teams, 22) && TeamLinks(db.orgs, db.teams, 23);
    assert Valid(db);
    assert HasChild(db, 20) by { assert 21 in db.teams; }
    SetTeamParentKeepsValidIff(db, 20, 22);
    SetTeamParentKeepsValidIff(db, 22, 23);
  }

  /** Team 21 inside team 20, team 22 beside them, and team 23 of another organization. */
  function NestingExample(): Db {
    var free := Billing(FreePlan, OtherStatus, None);
    Db({1}, map[1 := free, 2 := free], map[(1, 1) := Owner, (2, 1) := Owner],
       map[20 := Team(1, None), 21 := Team(1, Some(20)), 22 := Team(1, None), 23 := Team(2, None)],
       {}, {}, {}, map[], map[])
  }

  /** One owner, one private repository granted to team 20, and three members in team 21. */
  function UngatedExample(): Db {
    Db({1, 2, 3, 4}, map[1 := Billing(FreePlan, OtherStatus, None)], map[(1, 1) := Owner],
       map[20 := Team(1, None), 21 := Team(1, None)], {(21, 2), (21, 3), (21, 4)}, {(20, 10)}, {},
       map[10 := Repo(Some(1), true, false)], map[])
  }

  lemma ExampleBefore()
    ensures Valid(UngatedExample()) && Collaborators(UngatedExample(), 1) <= {1}
  {
    var db := UngatedExample();
    assert TeamLinks(db.orgs, db.teams, 20) && TeamLinks(db.orgs, db.teams, 21);
    assert !GrantingTeam(db, 1, 21);
    assert TeamIds(db, 1) == {};
    assert DirectIds(db, 1) == {};
  }

  lemma ExampleAfter()
    ensures var (after, error) := SetTeamParent(UngatedExample(), 21, 20);
            error.None? && {1, 2, 3, 4} <= Collaborators(after, 1)
  {
    var after := SetTeamParent(UngatedExample(), 21, 20).0;
    assert PrivateRepo(after, 1, 10);
    assert GrantingTeam(after, 1, 20);
    assert ReachingTeam(after, 1, 21);
    assert (1, 1) in after.members;
    assert (21, 2) in after.teamMembers && (21, 3) in after.teamMembers && (21, 4) in after.teamMembers;
  }

  /** A concrete organization that one ungated parent change takes from 1 collaborator to 4. */
  lemma SetTeamParentCanPassCap()
    ensures var db := UngatedExample();
            var (after, error) := SetTeamParent(db, 21, 20);
            Valid(db) && error.None? && !Within(Collaborators(db, 1), Collaborators(after, 1))
  {
    hide UngatedExample, SetTeamParent, Collaborators, Valid;
    ExampleBefore();
    ExampleAfter();
    SubsetSize({1, 2, 3, 4}, Collaborators(SetTeamParent(UngatedExample(), 21, 20).0, 1));
    SubsetSize(Collaborators(UngatedExample(), 1), {1});
  }
}
