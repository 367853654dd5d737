/**
 The structured "waiting on GitHub" report that a broker run may return, shared by
 CI repair runs and repository runs.
 */
module ExternalWaits {
  import opened Basics

  datatype Service = GitHub | OtherService

  datatype Phase = Preparation | DeliveryPhase | OtherPhase

  datatype Operation =
    | IssueRead | IssueCommentsRead | PullRead | CiObserve | ActionsJobLogRead
    | PullReconcile | PullCreate | GitPush | OtherOperation

  datatype WaitReason = Unavailable | RateLimited | OtherReason

  /** `since` is `None` for Go's zero time. */
  datatype ExternalWait = ExternalWait(
    service: Service, phase: Phase, operation: Operation, reason: WaitReason, generation: int, since: Option<Time>)
  {
    predicate Valid() {
      && service == GitHub && generation >= 1 && since.Some? && !reason.OtherReason?
      && match phase
         case Preparation =>
           operation.IssueRead? || operation.IssueCommentsRead? || operation.PullRead? || operation.CiObserve?
               || operation.ActionsJobLogRead?
         case DeliveryPhase =>
           operation.PullRead? || operation.PullReconcile? || operation.PullCreate? || operation.GitPush?
         case OtherPhase => false
    }
  }
}
