/** Rows of the dispatcher's `jobs` table. */
module Jobs {
  import opened Basics

  type JobId = int

  datatype Status =
    | PendingLaunch | LaunchRetry | Launched | ExternalWaiting
    | CiWaiting | CiRepair | CiEscalation
    | ReportPending | ReportRetry | ReportBlocked
    | Completed | Failed | TimedOut | Stopped | Cancelled

  /** Route, repository and issue: the fields that `Candidate.SemanticKey` joins. */
  datatype SemanticKey = SemanticKey(route: string, repository: string, issue: int)

  datatype Job = Job(
    key: SemanticKey, profile: string, delivery: string, run: string, status: Status,
    attempts: nat, preOutbox: nat, first: Option<Time>, due: Time, lastError: string, created: Time)
}
