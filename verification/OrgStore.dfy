/** The organization tables as mutable state. Every operation updates its tables in place, keeps the
    schema and the last-owner rule, and leaves every limited organization within its cap. */
module OrgStore {
  import opened Prelude
  import opened OrgData
  import opened PrivateCollaboration
  import opened OrgTheorems
  import S = OrgSteps

  /** Every organization limited at the instant has no more collaborators than the cap, or than before. */
  ghost predicate Capped(before: Db, after: Db, now: int) {
    forall at | Limited(before, now, at) ::
      |Collaborators(after, at)| <= Max(FREE_LIMIT, |Collaborators(before, at)|)
  }

  ghost predicate Sound(db: Db) {
    Valid(db) && Owned(db)
  }

  /** What a call promises: the rules still hold, and no cap was passed, whatever the instant. */
  lemma StepIsSound(db: Db, now: int, op: S.Op)
    requires Sound(db)
    ensures Sound(S.Apply(db, now, op).0) && Capped(db, S.Apply(db, now, op).0, now)
  {
    hide Valid, Owned, S.Apply, Collaborators, Limited;
    StepKeepsValid(db, now, op);
    StepKeepsOwned(db, now, op);
    forall at | Limited(db, now, at)
      ensures |Collaborators(S.Apply(db, now, op).0, at)| <= Max(FREE_LIMIT, |Collaborators(db, at)|)
    {
      StepKeepsCap(db, now, op, at);
    }
  }

  lemma TimelessStepIsSound(db: Db, op: S.Op)
    requires Sound(db) && forall now :: S.Apply(db, now, op) == S.Apply(db, 0, op)
    ensures Sound(S.Apply(db, 0, op).0) && forall now :: Capped(db, S.Apply(db, 0, op).0, now)
  {
    hide S.Apply, Sound, Capped;
    StepIsSound(db, 0, op);
    forall now ensures Capped(db, S.Apply(db, 0, op).0, now) {
      assert S.Apply(db, now, op) == S.Apply(db, 0, op);
      StepIsSound(db, now, op);
    }
  }

  lemma SoleOwner(db: Db, org: Id, user: Id)
    ensures OwnerIds(db, org) == {user} ==> (org, user) in db.members && db.members[(org, user)].Owner? && S.OwnerCount(db, org) == 1
  {
    if OwnerIds(db, org) == {user} {
      assert user in OwnerIds(db, org);
    }
  }

  class Store {
    var users: set<Id>
    var orgs: map<Id, Billing>
    var members: map<(Id, Id), Role>
    var teams: map<Id, Team>
    var teamMembers: set<(Id, Id)>
    var grants: set<(Id, Id)>
    var collaborators: set<(Id, Id)>
    var repos: map<Id, Repo>
    var invitations: map<Id, Invitation>

    function View(): Db
      reads this
    {
      Db(users, orgs, members, teams, teamMembers, grants, collaborators, repos, invitations)
    }

    /** No account, no organization: everything the operations promise holds of the empty store. */
    constructor (users: set<Id>)
      requires 0 !in users
      ensures View() == Db(users, map[], map[], map[], {}, {}, {}, map[], map[]) && Sound(View())
    {
      this.users := users;
      orgs, members, teams, repos, invitations := map[], map[], map[], map[], map[];
      teamMembers, grants, collaborators := {}, {}, {};
    }

    /** The insert into org_members: a conflicting pair is left alone. */
    method InsertMember(org: Id, user: Id, role: Role) returns (error: Option<Error>)
      modifies this`members
      ensures (View(), error) == S.InsertMember(old(View()), None, org, user, role)
    {
      if org !in orgs || user !in users {
        return Some(ForeignKey);
      }
      if (org, user) !in members {
        members := members[(org, user) := role];
      }
      error := None;
    }

    /** The user becomes a member; no existing role changes, the user's own included. */
    method AddMember(now: int, org: Id, user: Id, role: string) returns (error: Option<Error>)
      requires Sound(View())
      modifies this`members
      ensures Sound(View()) && Capped(old(View()), View(), now)
      ensures error.Some? ==> View() == old(View())
      ensures error.None? ==> members.Keys == old(members).Keys + {(org, user)}
      ensures forall m | m in old(members) :: m in members && members[m] == old(members)[m]
      ensures error.None? && (org, user) !in old(members) ==> members[(org, user)] == if role == "owner" then Owner else Member
      ensures role !in {"owner", "member", ""} ==> error == Some(InvalidRole)
      ensures (View(), error) == S.AddMember(old(View()), now, org, user, role)
    {
      hide OrgOwnerCheck, Sound, Capped;
      StepIsSound(View(), now, S.OnOrg(S.OpAddMember(org, user, role)));
      var name := role;
      if name == "" {
        name := "member";
      }
      var parsed := S.ParseRole(name);
      if parsed.None? {
        return Some(InvalidRole);
      }
      if parsed.value.Owner? {
        error := Refusal(OrgOwnerCheck(View(), now, org, user));
        if error.Some? {
          return;
        }
      }
      error := InsertMember(org, user, parsed.value);
    }

    /** Only the named role changes, and a sole owner cannot be demoted. */
    method ChangeRole(now: int, org: Id, user: Id, role: string) returns (error: Option<Error>)
      requires Sound(View())
      modifies this`members
      ensures Sound(View()) && Capped(old(View()), View(), now)
      ensures error.Some? ==> View() == old(View())
      ensures error.None? ==> (org, user) in old(members) && role in {"owner", "member"}
      ensures error.None? ==> members == old(members)[(org, user) := if role == "owner" then Owner else Member]
      ensures OwnerIds(old(View()), org) == {user} && role == "member" ==> error == Some(LastOwner)
      ensures (View(), error) == S.ChangeRole(old(View()), now, org, user, role)
    {
      hide OrgOwnerCheck, Sound, Capped, S.OwnerCount, OwnerIds;
      StepIsSound(View(), now, S.OnOrg(S.OpChangeRole(org, user, role)));
      SoleOwner(View(), org, user);
      var parsed := S.ParseRole(role);
      if parsed.None? {
        return Some(InvalidRole);
      }
      if (org, user) !in members {
        return Some(NotAMember);
      }
      var current := members[(org, user)];
      if current.Owner? && parsed.value.Member? {
        if S.OwnerCount(View(), org) <= 1 {
          return Some(LastOwner);
        }
      }
      if current.Member? && parsed.value.Owner? {
        error := Refusal(OrgOwnerCheck(View(), now, org, user));
        if error.Some? {
          return;
        }
      }
      members := members[(org, user) := parsed.value];
      error := None;
    }

    /** The member is gone and nobody else is, and a sole owner stays. */
    method RemoveMember(org: Id, user: Id) returns (error: Option<Error>)
      requires Sound(View())
      modifies this`members
      ensures Sound(View()) && forall now :: Capped(old(View()), View(), now)
      ensures error.Some? ==> View() == old(View())
      ensures error.None? ==> (org, user) !in members && members.Keys == old(members).Keys - {(org, user)}
      ensures OwnerIds(old(View()), org) == {user} ==> error == Some(LastOwner)
      ensures (View(), error) == S.RemoveMember(old(View()), org, user)
    {
      hide Sound, Capped, S.OwnerCount, OwnerIds;
      TimelessStepIsSound(View(), S.OnOrg(S.OpRemoveMember(org, user)));
      SoleOwner(View(), org, user);
      if (org, user) !in members {
        return Some(NotAMember);
      }
      if members[(org, user)].Owner? {
        if S.OwnerCount(View(), org) <= 1 {
          return Some(LastOwner);
        }
      }
      members := members - {(org, user)};
      error := None;
    }

    /** Accepting works once: afterwards the acceptor is a member and the invitation is spent. */
    method AcceptInvitation(now: int, id: Id, acceptor: Id, ownsEmail: bool) returns (error: Option<Error>)
      requires id in invitations && Sound(View())
      modifies this`members, this`invitations
      ensures Sound(View()) && Capped(old(View()), View(), now)
      ensures error.Some? ==> View() == old(View())
      ensures id in invitations && invitations[id].org == old(invitations)[id].org
      ensures error.None? ==> (invitations[id].org, acceptor) in members
      ensures error.None? ==> forall later :: S.Pending(invitations[id], later) == Some(InvitationConsumed)
      ensures (View(), error) == S.AcceptInvitation(old(View()), now, id, acceptor, ownsEmail)
    {
      hide OrgOwnerCheck, Sound, Capped;
      StepIsSound(View(), now, S.OnOrg(S.OpAccept(id, acceptor, ownsEmail)));
      var inv := invitations[id];
      error := S.Pending(inv, now);
      if error.Some? {
        return;
      }
      if inv.targetUser.Some? && inv.targetUser.value != acceptor {
        return Some(UnauthorizedAcceptor);
      }
      if inv.targetEmail.Some? && !ownsEmail {
        return Some(UnauthorizedAcceptor);
      }
      if inv.role.Owner? {
        error := Refusal(OrgOwnerCheck(View(), now, inv.org, acceptor));
        if error.Some? {
          return;
        }
      }
      error := InsertMember(inv.org, acceptor, inv.role);
      if error.None? {
        invitations := invitations[id := inv.(acceptedAt := Some(now))];
      }
    }

    /** The creator is the new organization's only owner. `org` is the identifier the sequence hands out. */
    method CreateOrg(org: Id, creator: Id) returns (error: Option<Error>)
      requires Sound(View())
      modifies this`orgs, this`members
      ensures Sound(View()) && forall now :: Capped(old(View()), View(), now)
      ensures error.Some? ==> View() == old(View())
      ensures error.None? ==> org !in old(orgs) && org in orgs && OwnerIds(View(), org) == {creator}
      ensures (View(), error) == S.CreateOrg(old(View()), org, creator)
    {
      hide Capped;
      TimelessStepIsSound(View(), S.OnOrg(S.OpCreateOrg(org, creator)));
      if org <= 0 || org in orgs {
        return Some(IdTaken);
      }
      if creator !in users {
        return Some(ForeignKey);
      }
      NoStaleOwners(View(), org);
      hide Sound;
      orgs := orgs[org := Billing(FreePlan, OtherStatus, None)];
      members := members[(org, creator) := Owner];
      error := None;
    }

    /** A new team counts nobody: it has no members and no grants yet. */
    method CreateTeam(team: Id, org: Id, parent: Id) returns (error: Option<Error>)
      requires Sound(View())
      modifies this`teams
      ensures Sound(View()) && forall now :: Capped(old(View()), View(), now)
      ensures error.Some? ==> View() == old(View())
      ensures error.None? ==> team in teams && MembersOf(View(), team) == {}
      ensures error.None? && parent != 0 ==> parent in teams && teams[parent].org == org && teams[parent].parent.None?
      ensures (View(), error) == S.CreateTeam(old(View()), team, org, parent)
    {
      hide Capped;
      TimelessStepIsSound(View(), S.OnTeam(S.OpCreateTeam(team, org, parent)));
      if parent != 0 {
        if parent !in teams {
          return Some(TeamNotFound);
        }
        if teams[parent].org != org {
          return Some(CrossOrgParent);
        }
      }
      if team <= 0 || team in teams {
        return Some(IdTaken);
      }
      if org !in orgs {
        return Some(ForeignKey);
      }
      if parent != 0 && teams[parent].parent.Some? {
        return Some(NestingTooDeep);
      }
      NoStaleMembers(View(), team);
      hide Sound;
      teams := teams[team := Team(org, if parent == 0 then None else Some(parent))];
      error := None;
    }

    /** The user is in the team, and counts for the team's organization if the team reaches private repositories. */
    method AddTeamMember(now: int, team: Id, user: Id) returns (error: Option<Error>)
      requires Sound(View())
      modifies this`teamMembers
      ensures Sound(View()) && Capped(old(View()), View(), now)
      ensures error.Some? ==> View() == old(View())
      ensures error.None? ==> MembersOf(View(), team) == MembersOf(old(View()), team) + {user}
      ensures error.None? ==> forall at | ReachingTeam(View(), at, team) :: user in Collaborators(View(), at)
      ensures (View(), error) == S.AddTeamMember(old(View()), now, team, user)
    {
      hide TeamMemberCheck, Sound, Capped, ReachingTeam;
      StepIsSound(View(), now, S.OnTeam(S.OpAddTeamMember(team, user)));
      error := Refusal(TeamMemberCheck(View(), now, team, user));
      if error.Some? {
        return;
      }
      if team !in teams || user !in users {
        return Some(ForeignKey);
      }
      teamMembers := teamMembers + {(team, user)};
      assert (team, user) in teamMembers;
    }

    /** The user has left the team, and no organization counts anyone new. */
    method RemoveTeamMember(team: Id, user: Id)
      requires Sound(View())
      modifies this`teamMembers
      ensures Sound(View()) && forall now :: Capped(old(View()), View(), now)
      ensures MembersOf(View(), team) == MembersOf(old(View()), team) - {user}
      ensures forall at :: Collaborators(View(), at) <= Collaborators(old(View()), at)
      ensures View() == S.RemoveTeamMember(old(View()), team, user).0
    {
      hide Sound, Capped, Collaborators;
      TimelessStepIsSound(View(), S.OnTeam(S.OpRemoveTeamMember(team, user)));
      teamMembers := teamMembers - {(team, user)};
      forall at ensures Collaborators(View(), at) <= Collaborators(old(View()), at) {
        PairsRemovedCountNoMore(old(View()), View(), at);
      }
    }

    /** A private repository granted inside its organization makes exactly the candidates count. */
    method GrantTeamRepoAccess(now: int, team: Id, repo: Id) returns (error: Option<Error>)
      requires Sound(View())
      modifies this`grants
      ensures Sound(View()) && Capped(old(View()), View(), now)
      ensures error.Some? ==> View() == old(View())
      ensures error.None? ==> (team, repo) in grants
      ensures error.None? ==> forall at | teams[team].org == at && PrivateRepo(old(View()), at, repo) ::
        Collaborators(View(), at) == Collaborators(old(View()), at) + GrantCandidates(old(View()), team)
      ensures (View(), error) == S.GrantTeamRepoAccess(old(View()), now, team, repo)
    {
      hide TeamGrantCheck, Sound, Capped, Collaborators, GrantCandidates;
      StepIsSound(View(), now, S.OnTeam(S.OpGrant(team, repo)));
      error := Refusal(TeamGrantCheck(View(), now, team, repo));
      if error.Some? {
        return;
      }
      if team !in teams || repo !in repos {
        return Some(ForeignKey);
      }
      grants := grants + {(team, repo)};
      GrantedCandidatesCount(old(View()), team, repo);
    }

    /** The grant is gone, and no organization counts anyone new. */
    method RevokeTeamRepoAccess(team: Id, repo: Id)
      requires Sound(View())
      modifies this`grants
      ensures Sound(View()) && forall now :: Capped(old(View()), View(), now)
      ensures grants == old(grants) - {(team, repo)}
      ensures forall at :: Collaborators(View(), at) <= Collaborators(old(View()), at)
      ensures View() == S.RevokeTeamRepoAccess(old(View()), team, repo).0
    {
      hide Sound, Capped, Collaborators;
      TimelessStepIsSound(View(), S.OnTeam(S.OpRevoke(team, repo)));
      grants := grants - {(team, repo)};
      forall at ensures Collaborators(View(), at) <= Collaborators(old(View()), at) {
        PairsRemovedCountNoMore(old(View()), View(), at);
      }
    }
  }

  lemma NoStaleOwners(db: Db, org: Id)
    requires Sound(db) && org !in db.orgs
    ensures OwnerIds(db, org) == {}
  {
  }

  lemma NoStaleMembers(db: Db, team: Id)
    requires Sound(db) && team !in db.teams
    ensures MembersOf(db, team) == {}
  {
  }

  lemma PairsRemovedCountNoMore(a: Db, b: Db, at: Id)
    requires a.repos == b.repos && a.teams == b.teams && a.members == b.members && a.collaborators == b.collaborators
    requires b.teamMembers <= a.teamMembers && b.grants <= a.grants
    ensures Collaborators(b, at) <= Collaborators(a, at)
  {
    ShrinkingCountsNoMore(a, b, at);
  }

  lemma GrantedCandidatesCount(db: Db, team: Id, repo: Id)
    requires Sound(db) && team in db.teams
    ensures forall at | db.teams[team].org == at && PrivateRepo(db, at, repo) ::
      Collaborators(db.(grants := db.grants + {(team, repo)}), at) == Collaborators(db, at) + GrantCandidates(db, team)
  {
    hide Collaborators, GrantCandidates;
    forall at | db.teams[team].org == at && PrivateRepo(db, at, repo)
      ensures Collaborators(db.(grants := db.grants + {(team, repo)}), at) == Collaborators(db, at) + GrantCandidates(db, team)
    {
      GrantCountsCandidates(db, team, at, repo);
    }
  }
}
