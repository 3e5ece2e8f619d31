/** The relational state behind organizations, teams, grants and repositories, one field per
    table, and the SQL sets that the private-collaboration gate reads from it. */
module OrgData {
  import opened Prelude

  type Id = int

  datatype Role = Owner | Member

  datatype Plan = FreePlan | TeamPlan | EnterprisePlan
  datatype Subscription = Active | Trialing | PastDue | OtherStatus
  datatype Billing = Billing(plan: Plan, status: Subscription, graceUntil: Option<int>)

  datatype Repo = Repo(ownerOrg: Option<Id>, isPrivate: bool, deleted: bool)
  datatype Team = Team(org: Id, parent: Option<Id>)
  datatype Invitation = Invitation(
    org: Id, targetUser: Option<Id>, targetEmail: Option<string>, role: Role,
    acceptedAt: Option<int>, declinedAt: Option<int>, canceledAt: Option<int>, expiresAt: Option<int>)

  datatype Db = Db(
    users: set<Id>,
    orgs: map<Id, Billing>,
    members: map<(Id, Id), Role>,      // (org, user)
    teams: map<Id, Team>,
    teamMembers: set<(Id, Id)>,        // (team, user)
    grants: set<(Id, Id)>,             // (team, repo)
    collaborators: set<(Id, Id)>,      // (repo, user)
    repos: map<Id, Repo>,
    invitations: map<Id, Invitation>)

  // ----- the SQL sets

  predicate PrivateRepo(db: Db, org: Id, repo: Id) {
    repo in db.repos && db.repos[repo].ownerOrg == Some(org)
    && db.repos[repo].isPrivate && !db.repos[repo].deleted
  }

  predicate HasPrivateRepos(db: Db, org: Id) {
    exists repo | repo in db.repos :: PrivateRepo(db, org, repo)
  }

  predicate GrantingTeam(db: Db, org: Id, team: Id) {
    team in db.teams && db.teams[team].org == org
    && exists repo | repo in db.repos :: PrivateRepo(db, org, repo) && (team, repo) in db.grants
  }

  /** A team whose members count: it, or its parent, holds a grant on a private repository. */
  predicate ReachingTeam(db: Db, org: Id, team: Id) {
    team in db.teams && db.teams[team].org == org
    && (GrantingTeam(db, org, team)
        || (db.teams[team].parent.Some? && GrantingTeam(db, org, db.teams[team].parent.value)))
  }

  function OwnerIds(db: Db, org: Id): set<Id> {
    set m | m in db.members && m.0 == org && db.members[m].Owner? :: m.1
  }

  function DirectIds(db: Db, org: Id): set<Id> {
    set c | c in db.collaborators && PrivateRepo(db, org, c.0) :: c.1
  }

  function TeamIds(db: Db, org: Id): set<Id> {
    set m | m in db.teamMembers && ReachingTeam(db, org, m.0) :: m.1
  }

  /** Everyone who can reach some private repository of the organization. */
  function Collaborators(db: Db, org: Id): set<Id> {
    (if HasPrivateRepos(db, org) then OwnerIds(db, org) else {}) + DirectIds(db, org) + TeamIds(db, org)
  }

  predicate GrantedTo(db: Db, org: Id, repo: Id, team: Id) {
    team in db.teams && db.teams[team].org == org && (team, repo) in db.grants
  }

  /** Who would reach `repo` if it were private: owners, direct collaborators, granted teams. */
  function RepoCandidates(db: Db, org: Id, repo: Id): set<Id> {
    OwnerIds(db, org)
    + (set c | c in db.collaborators && c.0 == repo :: c.1)
    + (set m | m in db.teamMembers && m.0 in db.teams && db.teams[m.0].org == org
               && (GrantedTo(db, org, repo, m.0)
                   || (db.teams[m.0].parent.Some? && GrantedTo(db, org, repo, db.teams[m.0].parent.value)))
             :: m.1)
  }

  /** Members of the granted team and of its child teams. */
  function GrantCandidates(db: Db, team: Id): set<Id> {
    if team !in db.teams then {} else
    set m | m in db.teamMembers && m.0 in db.teams
            && (m.0 == team || db.teams[m.0].parent == Some(team)) :: m.1
  }

  /** Whether adding a member to `team` lets that member reach a private repository. */
  predicate TeamReachesPrivate(db: Db, team: Id)
    requires team in db.teams
  {
    var row := db.teams[team];
    exists g | g in db.grants :: PrivateRepo(db, row.org, g.1) && (g.0 == team || Some(g.0) == row.parent)
  }

  // ----- what the schema keeps

  ghost predicate MembersLink(orgs: map<Id, Billing>, users: set<Id>, members: map<(Id, Id), Role>) {
    forall m | m in members :: m.0 in orgs && m.1 in users
  }

  /** A team belongs to an organization, and its parent to the same one and has no parent itself. */
  ghost predicate TeamLinks(orgs: map<Id, Billing>, teams: map<Id, Team>, team: Id)
    requires team in teams
  {
    var row := teams[team];
    row.org in orgs
    && (row.parent.Some? ==>
          row.parent.value in teams && teams[row.parent.value].org == row.org && teams[row.parent.value].parent.None?)
  }

  ghost predicate TeamsLink(orgs: map<Id, Billing>, teams: map<Id, Team>) {
    forall t {:trigger TeamLinks(orgs, teams, t)} | t in teams :: TeamLinks(orgs, teams, t)
  }

  ghost predicate ReposLink(orgs: map<Id, Billing>, repos: map<Id, Repo>) {
    forall r | r in repos && repos[r].ownerOrg.Some? :: repos[r].ownerOrg.value in orgs
  }

  ghost predicate PairsLink(pairs: set<(Id, Id)>, left: set<Id>, right: set<Id>) {
    forall p | p in pairs :: p.0 in left && p.1 in right
  }

  /** Foreign keys, positive identifiers, and teams nested one level deep inside their own organization. */
  ghost predicate Valid(db: Db) {
    && 0 !in db.users && 0 !in db.orgs
    && MembersLink(db.orgs, db.users, db.members)
    && TeamsLink(db.orgs, db.teams)
    && ReposLink(db.orgs, db.repos)
    && PairsLink(db.teamMembers, db.teams.Keys, db.users)
    && PairsLink(db.grants, db.teams.Keys, db.repos.Keys)
    && PairsLink(db.collaborators, db.repos.Keys, db.users)
  }

  ghost predicate HasOwner(db: Db, org: Id) {
    exists user :: (org, user) in db.members && db.members[(org, user)].Owner?
  }

  /** The last-owner rule: no organization without an owner. */
  ghost predicate Owned(db: Db) {
    forall org | org in db.orgs :: HasOwner(db, org)
  }
}
