/** The operations on organizations, teams and repositories as functions on the tables. Each
    operation runs its gate and its write as one atomic step; a refused step changes nothing. */
module OrgSteps {
  import opened Prelude
  import opened OrgData
  import opened PrivateCollaboration

  type Result = (Db, Option<Error>)

  function Refuse(db: Db, error: Error): Result { (db, Some(error)) }
  function Accept(db: Db): Result { (db, None) }

  function ParseRole(role: string): Option<Role> {
    if role == "owner" then Some(Owner) else if role == "member" then Some(Member) else None
  }

  /** Insert, doing nothing when the pair is already there: an existing role is kept. */
  function InsertMember(db: Db, refusal: Option<Error>, org: Id, user: Id, role: Role): Result {
    if refusal.Some? then Refuse(db, refusal.value)
    else if org !in db.orgs || user !in db.users then Refuse(db, ForeignKey)
    else if (org, user) in db.members then Accept(db)
    else Accept(db.(members := db.members[(org, user) := role]))
  }

  function OwnerGate(db: Db, now: int, org: Id, user: Id, role: Role): Option<Error> {
    if role.Owner? then Refusal(OrgOwnerCheck(db, now, org, user)) else None
  }

  function AddMember(db: Db, now: int, org: Id, user: Id, role: string): Result {
    var parsed := ParseRole(if role == "" then "member" else role);
    if parsed.None? then Refuse(db, InvalidRole)
    else InsertMember(db, OwnerGate(db, now, org, user, parsed.value), org, user, parsed.value)
  }

  function OwnerCount(db: Db, org: Id): nat {
    |OwnerIds(db, org)|
  }

  /** Last-owner protection on a demotion, the collaboration gate on a promotion. */
  function RoleChangeGate(db: Db, now: int, org: Id, user: Id, current: Role, next: Role): Option<Error> {
    if current.Owner? && next.Member? && OwnerCount(db, org) <= 1 then Some(LastOwner)
    else if current.Member? && next.Owner? then Refusal(OrgOwnerCheck(db, now, org, user))
    else None
  }

  function UpdateRole(db: Db, refusal: Option<Error>, org: Id, user: Id, role: Role): Result
    requires (org, user) in db.members
  {
    if refusal.Some? then Refuse(db, refusal.value)
    else Accept(db.(members := db.members[(org, user) := role]))
  }

  function ChangeRole(db: Db, now: int, org: Id, user: Id, role: string): Result {
    var parsed := ParseRole(role);
    if parsed.None? then Refuse(db, InvalidRole)
    else if (org, user) !in db.members then Refuse(db, NotAMember)
    else
      var refusal := RoleChangeGate(db, now, org, user, db.members[(org, user)], parsed.value);
      UpdateRole(db, refusal, org, user, parsed.value)
  }

  function RemoveMember(db: Db, org: Id, user: Id): Result {
    if (org, user) !in db.members then Refuse(db, NotAMember)
    else if db.members[(org, user)].Owner? && OwnerCount(db, org) <= 1 then Refuse(db, LastOwner)
    else Accept(db.(members := db.members - {(org, user)}))
  }

  function Pending(inv: Invitation, now: int): Option<Error> {
    if inv.acceptedAt.Some? || inv.declinedAt.Some? || inv.canceledAt.Some? then Some(InvitationConsumed)
    else if inv.expiresAt.None? || inv.expiresAt.value < now then Some(InvitationExpired)
    else None
  }

  /** `ownsEmail` tells whether the acceptor owns the invited address, verified. */
  function AcceptGate(inv: Invitation, now: int, acceptor: Id, ownsEmail: bool): Option<Error> {
    if Pending(inv, now).Some? then Pending(inv, now)
    else if inv.targetUser.Some? && inv.targetUser.value != acceptor then Some(UnauthorizedAcceptor)
    else if inv.targetEmail.Some? && !ownsEmail then Some(UnauthorizedAcceptor)
    else None
  }

  function MarkAccepted(inserted: Result, now: int, id: Id, inv: Invitation): Result {
    if inserted.1.Some? then inserted
    else
      var db := inserted.0;
      Accept(db.(invitations := db.invitations[id := inv.(acceptedAt := Some(now))]))
  }

  function AcceptInvitation(db: Db, now: int, id: Id, acceptor: Id, ownsEmail: bool): Result
    requires id in db.invitations
  {
    var inv := db.invitations[id];
    var refusal := AcceptGate(inv, now, acceptor, ownsEmail);
    if refusal.Some? then Refuse(db, refusal.value)
    else
      var gate := OwnerGate(db, now, inv.org, acceptor, inv.role);
      MarkAccepted(InsertMember(db, gate, inv.org, acceptor, inv.role), now, id, inv)
  }

  /** A new organization is on the free plan and its creator is its sole owner. */
  function CreateOrg(db: Db, org: Id, creator: Id): Result {
    if org <= 0 || org in db.orgs then Refuse(db, IdTaken)
    else if creator !in db.users then Refuse(db, ForeignKey)
    else Accept(db.(orgs := db.orgs[org := Billing(FreePlan, OtherStatus, None)],
                    members := db.members[(org, creator) := Owner]))
  }

  function CreateTeam(db: Db, team: Id, org: Id, parent: Id): Result {
    if parent != 0 && parent !in db.teams then Refuse(db, TeamNotFound)
    else if parent != 0 && db.teams[parent].org != org then Refuse(db, CrossOrgParent)
    else if team <= 0 || team in db.teams then Refuse(db, IdTaken)
    else if org !in db.orgs then Refuse(db, ForeignKey)
    else if parent != 0 && db.teams[parent].parent.Some? then Refuse(db, NestingTooDeep)
    else Accept(db.(teams := db.teams[team := Team(org, if parent == 0 then None else Some(parent))]))
  }

  function InsertTeamMember(db: Db, refusal: Option<Error>, team: Id, user: Id): Result {
    if refusal.Some? then Refuse(db, refusal.value)
    else if team !in db.teams || user !in db.users then Refuse(db, ForeignKey)
    else Accept(db.(teamMembers := db.teamMembers + {(team, user)}))
  }

  function AddTeamMember(db: Db, now: int, team: Id, user: Id): Result {
    InsertTeamMember(db, Refusal(TeamMemberCheck(db, now, team, user)), team, user)
  }

  function RemoveTeamMember(db: Db, team: Id, user: Id): Result {
    Accept(db.(teamMembers := db.teamMembers - {(team, user)}))
  }

  function InsertGrant(db: Db, refusal: Option<Error>, team: Id, repo: Id): Result {
    if refusal.Some? then Refuse(db, refusal.value)
    else if team !in db.teams || repo !in db.repos then Refuse(db, ForeignKey)
    else Accept(db.(grants := db.grants + {(team, repo)}))
  }

  function GrantTeamRepoAccess(db: Db, now: int, team: Id, repo: Id): Result {
    InsertGrant(db, Refusal(TeamGrantCheck(db, now, team, repo)), team, repo)
  }

  function RevokeTeamRepoAccess(db: Db, team: Id, repo: Id): Result {
    Accept(db.(grants := db.grants - {(team, repo)}))
  }

  function InsertCollaborator(db: Db, refusal: Option<Error>, repo: Id, user: Id): Result {
    if refusal.Some? then Refuse(db, refusal.value)
    else if repo !in db.repos || user !in db.users then Refuse(db, ForeignKey)
    else Accept(db.(collaborators := db.collaborators + {(repo, user)}))
  }

  function AddCollaborator(db: Db, now: int, repo: Id, user: Id): Result {
    InsertCollaborator(db, Refusal(DirectCollaboratorCheck(db, now, repo, user)), repo, user)
  }

  function RemoveCollaborator(db: Db, repo: Id, user: Id): Result {
    Accept(db.(collaborators := db.collaborators - {(repo, user)}))
  }

  function InsertRepo(db: Db, refusal: Option<Error>, repo: Id, ownerOrg: Option<Id>, isPrivate: bool): Result {
    if refusal.Some? then Refuse(db, refusal.value)
    else if repo <= 0 || repo in db.repos then Refuse(db, IdTaken)
    else if ownerOrg.Some? && ownerOrg.value !in db.orgs then Refuse(db, ForeignKey)
    else Accept(db.(repos := db.repos[repo := Repo(ownerOrg, isPrivate, false)]))
  }

  function CreateRepo(db: Db, now: int, repo: Id, ownerOrg: Option<Id>, isPrivate: bool): Result {
    var refusal := if ownerOrg.Some? && isPrivate
                   then Refusal(PrivateRepositoryCreation(db, now, ownerOrg.value)) else None;
    InsertRepo(db, refusal, repo, ownerOrg, isPrivate)
  }

  function UpdateVisibility(db: Db, refusal: Option<Error>, repo: Id, isPrivate: bool): Result
    requires repo in db.repos
  {
    if refusal.Some? then Refuse(db, refusal.value)
    else Accept(db.(repos := db.repos[repo := db.repos[repo].(isPrivate := isPrivate)]))
  }

  function SetVisibility(db: Db, now: int, repo: Id, isPrivate: bool): Result {
    if repo !in db.repos then Refuse(db, RepoNotFound)
    else if db.repos[repo].isPrivate == isPrivate then Accept(db)
    else
      var owner := db.repos[repo].ownerOrg;
      var refusal := if owner.Some? && isPrivate
                     then Refusal(RepoPrivateVisibility(db, now, owner.value, repo)) else None;
      UpdateVisibility(db, refusal, repo, isPrivate)
  }

  function SoftDelete(db: Db, repo: Id): Result {
    if repo !in db.repos then Refuse(db, RepoNotFound)
    else Accept(db.(repos := db.repos[repo := db.repos[repo].(deleted := true)]))
  }

  function SetBilling(db: Db, org: Id, billing: Billing): Result {
    if org !in db.orgs then Refuse(db, OrgNotFound) else Accept(db.(orgs := db.orgs[org := billing]))
  }

  datatype Op = OnOrg(orgOp: OrgOp) | OnTeam(teamOp: TeamOp) | OnRepo(repoOp: RepoOp)

  datatype OrgOp =
    | OpCreateOrg(org: Id, creator: Id)
    | OpAddMember(org: Id, user: Id, role: string)
    | OpChangeRole(org: Id, user: Id, role: string)
    | OpRemoveMember(org: Id, user: Id)
    | OpAccept(invitation: Id, acceptor: Id, ownsEmail: bool)
    | OpSetBilling(org: Id, billing: Billing)

  datatype TeamOp =
    | OpCreateTeam(team: Id, org: Id, parent: Id)
    | OpAddTeamMember(team: Id, user: Id)
    | OpRemoveTeamMember(team: Id, user: Id)
    | OpGrant(team: Id, repo: Id)
    | OpRevoke(team: Id, repo: Id)

  datatype RepoOp =
    | OpAddCollaborator(repo: Id, user: Id)
    | OpRemoveCollaborator(repo: Id, user: Id)
    | OpCreateRepo(repo: Id, ownerOrg: Option<Id>, isPrivate: bool)
    | OpSetVisibility(repo: Id, isPrivate: bool)
    | OpSoftDelete(repo: Id)

  function ApplyOrg(db: Db, now: int, op: OrgOp): Result {
    match op
    case OpCreateOrg(org, creator) => CreateOrg(db, org, creator)
    case OpAddMember(org, user, role) => AddMember(db, now, org, user, role)
    case OpChangeRole(org, user, role) => ChangeRole(db, now, org, user, role)
    case OpRemoveMember(org, user) => RemoveMember(db, org, user)
    case OpAccept(id, acceptor, owns) =>
      if id in db.invitations then AcceptInvitation(db, now, id, acceptor, owns) else Refuse(db, InvitationNotFound)
    case OpSetBilling(org, billing) => SetBilling(db, org, billing)
  }

  function ApplyTeam(db: Db, now: int, op: TeamOp): Result {
    match op
    case OpCreateTeam(team, org, parent) => CreateTeam(db, team, org, parent)
    case OpAddTeamMember(team, user) => AddTeamMember(db, now, team, user)
    case OpRemoveTeamMember(team, user) => RemoveTeamMember(db, team, user)
    case OpGrant(team, repo) => GrantTeamRepoAccess(db, now, team, repo)
    case OpRevoke(team, repo) => RevokeTeamRepoAccess(db, team, repo)
  }

  function ApplyRepo(db: Db, now: int, op: RepoOp): Result {
    match op
    case OpAddCollaborator(repo, user) => AddCollaborator(db, now, repo, user)
    case OpRemoveCollaborator(repo, user) => RemoveCollaborator(db, repo, user)
    case OpCreateRepo(repo, owner, isPrivate) => CreateRepo(db, now, repo, owner, isPrivate)
    case OpSetVisibility(repo, isPrivate) => SetVisibility(db, now, repo, isPrivate)
    case OpSoftDelete(repo) => SoftDelete(db, repo)
  }

  function Apply(db: Db, now: int, op: Op): Result {
    match op
    case OnOrg(o) => ApplyOrg(db, now, o)
    case OnTeam(o) => ApplyTeam(db, now, o)
    case OnRepo(o) => ApplyRepo(db, now, o)
  }
}
