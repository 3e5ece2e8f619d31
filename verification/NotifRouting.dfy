/** The routing matrix: what an event kind means for a recipient with a given relation to it. */
module NotifRouting {
  datatype EventKind =
    | IssueCreated | PrOpened | IssueCommentCreated | PrCommentCreated | IssueAssigned | PrAssigned
    | IssueClosed | IssueReopened | PrClosed | PrReopened | PrMerged
    | ReviewRequested | ReviewSubmitted | Mentioned | CheckFailed | CheckFixed
    | RepoArchived | RepoUnarchived | RepoVisibilityChanged | RepoSoftDeleted | RepoRestored
    | RepoTransferRequested | RepoTransferAccepted | RepoTransferDeclined | RepoTransferCanceled
    | RepoTransferExpired
    | OtherKind(name: string)

  datatype Relation =
    | RelMention | RelAssignee | RelReviewer | RelAuthor | RelCommenter
    | RelSubscribedThread | RelWatchingAll | RelWatchingParticipating | RelRepoOwner

  datatype Reason =
    | NoReason | ReasonMention | ReasonAssignment | ReasonReviewRequested | ReasonAuthor
    | ReasonCommenter | ReasonSubscribed | ReasonWatching | ReasonRepoAdminAction

  datatype Action = Action(notifyInbox: bool, emailDefault: bool, overrideIgnore: bool, reason: Reason)

  const SKIP := Action(false, false, false, NoReason)

  function Notify(email: bool, overrideIgnore: bool, reason: Reason): Action {
    Action(true, email, overrideIgnore, reason)
  }

  predicate IsLifecycleEvent(kind: EventKind) {
    match kind
    case RepoArchived | RepoUnarchived | RepoVisibilityChanged | RepoSoftDeleted | RepoRestored => true
    case RepoTransferRequested | RepoTransferAccepted | RepoTransferDeclined => true
    case RepoTransferCanceled | RepoTransferExpired => true
    case _ => false
  }

  function Routing(kind: EventKind, rel: Relation): Action {
    match kind
    case IssueCreated | PrOpened =>
      (match rel
       case RelMention => Notify(true, true, ReasonMention)
       case RelWatchingAll => Notify(true, false, ReasonWatching)
       case _ => SKIP)
    case IssueCommentCreated | PrCommentCreated =>
      (match rel
       case RelMention => Notify(true, true, ReasonMention)
       case RelAssignee => Notify(true, false, ReasonAssignment)
       case RelAuthor => Notify(true, false, ReasonAuthor)
       case RelCommenter => Notify(true, false, ReasonCommenter)
       case RelSubscribedThread => Notify(true, false, ReasonSubscribed)
       case RelWatchingAll => Notify(true, false, ReasonWatching)
       case _ => SKIP)
    case IssueAssigned | PrAssigned =>
      (match rel
       case RelAssignee => Notify(true, false, ReasonAssignment)
       case RelMention => Notify(true, true, ReasonMention)
       case _ => SKIP)
    case IssueClosed | IssueReopened | PrClosed | PrReopened | PrMerged =>
      (match rel
       case RelAuthor => Notify(true, false, ReasonAuthor)
       case RelAssignee => Notify(true, false, ReasonAssignment)
       case RelSubscribedThread => Notify(true, false, ReasonSubscribed)
       case RelWatchingAll => Notify(false, false, ReasonWatching)
       case _ => SKIP)
    case ReviewRequested => if rel.RelReviewer? then Notify(true, true, ReasonReviewRequested) else SKIP
    case ReviewSubmitted =>
      (match rel
       case RelAuthor => Notify(true, false, ReasonAuthor)
       case RelSubscribedThread => Notify(false, false, ReasonSubscribed)
       case _ => SKIP)
    case Mentioned => if rel.RelMention? then Notify(true, true, ReasonMention) else SKIP
    case CheckFailed | CheckFixed => if rel.RelAuthor? then Notify(false, false, ReasonAuthor) else SKIP
    case OtherKind(_) => SKIP
    case _ => if rel.RelRepoOwner? then Notify(true, false, ReasonRepoAdminAction) else SKIP
  }

  predicate Routable(kind: EventKind, rel: Relation) {
    Routing(kind, rel).notifyInbox
  }

  /** No relation routes and the action is SKIP, or the action is the first routable relation's. */
  ghost predicate IsFirstRoutable(kind: EventKind, rels: seq<Relation>, action: Action) {
    || (action == SKIP && forall i | 0 <= i < |rels| :: !Routable(kind, rels[i]))
    || (exists i | 0 <= i < |rels| ::
          Routable(kind, rels[i]) && action == Routing(kind, rels[i]) && forall j | 0 <= j < i :: !Routable(kind, rels[j]))
  }

  /** The action of the first routable relation. */
  function Picked(kind: EventKind, rels: seq<Relation>): (action: Action)
    ensures IsFirstRoutable(kind, rels, action)
  {
    if rels == [] then SKIP
    else if Routable(kind, rels[0]) then Routing(kind, rels[0])
    else
      var rest := Picked(kind, rels[1..]);
      assert rest != SKIP ==> forall i | 0 <= i < |rels| - 1 :: rels[1..][i] == rels[i + 1];
      rest
  }

  method PickAction(kind: EventKind, rels: seq<Relation>) returns (action: Action)
    ensures action == Picked(kind, rels)
  {
    for i := 0 to |rels|
      invariant Picked(kind, rels) == Picked(kind, rels[i..])
    {
      assert rels[i..][1..] == rels[i + 1..];
      if Routing(kind, rels[i]).notifyInbox {
        return Routing(kind, rels[i]);
      }
    }
    return SKIP;
  }

  // ----- the matrix read by relation instead of by kind

  predicate IsOpening(kind: EventKind) { kind.IssueCreated? || kind.PrOpened? }

  predicate IsComment(kind: EventKind) { kind.IssueCommentCreated? || kind.PrCommentCreated? }

  predicate IsAssignment(kind: EventKind) { kind.IssueAssigned? || kind.PrAssigned? }

  predicate IsStateChange(kind: EventKind) {
    kind.IssueClosed? || kind.IssueReopened? || kind.PrClosed? || kind.PrReopened? || kind.PrMerged?
  }

  predicate IsCheck(kind: EventKind) { kind.CheckFailed? || kind.CheckFixed? }

  /** Which kinds reach a user through a relation. */
  predicate Reaches(rel: Relation, kind: EventKind) {
    match rel
    case RelMention => IsOpening(kind) || IsComment(kind) || IsAssignment(kind) || kind.Mentioned?
    case RelAssignee => IsComment(kind) || IsAssignment(kind) || IsStateChange(kind)
    case RelReviewer => kind.ReviewRequested?
    case RelAuthor => IsComment(kind) || IsStateChange(kind) || kind.ReviewSubmitted? || IsCheck(kind)
    case RelCommenter => IsComment(kind)
    case RelSubscribedThread => IsComment(kind) || IsStateChange(kind) || kind.ReviewSubmitted?
    case RelWatchingAll => IsOpening(kind) || IsComment(kind) || IsStateChange(kind)
    case RelWatchingParticipating => false
    case RelRepoOwner => IsLifecycleEvent(kind)
  }

  function ReasonFor(rel: Relation): Reason {
    match rel
    case RelMention => ReasonMention
    case RelAssignee => ReasonAssignment
    case RelReviewer => ReasonReviewRequested
    case RelAuthor => ReasonAuthor
    case RelCommenter => ReasonCommenter
    case RelSubscribedThread => ReasonSubscribed
    case RelWatchingAll => ReasonWatching
    case RelWatchingParticipating => NoReason
    case RelRepoOwner => ReasonRepoAdminAction
  }

  /** Check results to an author, state changes to a watcher and reviews to a subscriber stay in the inbox. */
  predicate InboxOnly(rel: Relation, kind: EventKind) {
    || (rel.RelAuthor? && IsCheck(kind))
    || (rel.RelWatchingAll? && IsStateChange(kind))
    || (rel.RelSubscribedThread? && kind.ReviewSubmitted?)
  }

  function ByRelation(kind: EventKind, rel: Relation): Action {
    if Reaches(rel, kind) then
      Action(true, !InboxOnly(rel, kind), rel.RelMention? || rel.RelReviewer?, ReasonFor(rel))
    else SKIP
  }

  lemma LifecycleRow(kind: EventKind, rel: Relation)
    ensures IsLifecycleEvent(kind) ==> Routing(kind, rel) == ByRelation(kind, rel)
  {
  }

  lemma ConversationRow(kind: EventKind, rel: Relation)
    ensures (IsOpening(kind) || IsComment(kind) || IsAssignment(kind)) ==> Routing(kind, rel) == ByRelation(kind, rel)
  {
  }

  lemma StateChangeRow(kind: EventKind, rel: Relation)
    ensures IsStateChange(kind) ==> Routing(kind, rel) == ByRelation(kind, rel)
  {
  }

  lemma OtherRow(kind: EventKind, rel: Relation)
    ensures (kind.ReviewRequested? || kind.ReviewSubmitted? || kind.Mentioned? || IsCheck(kind) || kind.OtherKind?) ==> Routing(kind, rel) == ByRelation(kind, rel)
  {
  }

  /** The whole matrix by relation: the reason depends on the relation alone, only mentions and
      review requests pass an ignore, and anything else is SKIP. */
  lemma MatrixByRelation(kind: EventKind, rel: Relation)
    ensures Routing(kind, rel) == ByRelation(kind, rel)
  {
    hide Routing, ByRelation;
    if IsLifecycleEvent(kind) {
      LifecycleRow(kind, rel);
    } else if IsOpening(kind) || IsComment(kind) || IsAssignment(kind) {
      ConversationRow(kind, rel);
    } else if IsStateChange(kind) {
      StateChangeRow(kind, rel);
    } else {
      OtherRow(kind, rel);
    }
  }

  /** Only a mention or a review request may pass an ignore-level watch. */
  lemma OverrideMeans(kind: EventKind, rel: Relation)
    ensures Routing(kind, rel).overrideIgnore <==> Routable(kind, rel) && (rel.RelMention? || rel.RelReviewer?)
    ensures rel.RelReviewer? && Routable(kind, rel) ==> kind.ReviewRequested?
  {
    MatrixByRelation(kind, rel);
    hide Routing;
  }

  /** The lifecycle kinds, for which the owner slot is filled, are those that route to an owner. */
  lemma LifecycleMeans(kind: EventKind)
    ensures IsLifecycleEvent(kind) <==> Routable(kind, RelRepoOwner)
  {
    MatrixByRelation(kind, RelRepoOwner);
    hide Routing;
  }
}
