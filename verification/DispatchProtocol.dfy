/**
 The whole dispatcher as a protocol: one worker that runs CI repair, reports and launches one claim at a time, while
 recorded deliveries, webhooks and operator requeues land between its transactions and a crash may end any claim.
 */
module DispatchProtocol {
  import opened Basics
  import opened Delays
  import opened ExternalWaits
  import opened Jobs
  import opened DispatchTables
  import C = CiTables
  import P = CiProtocol

  /** What the worker has claimed outside CI repair. */
  datatype Hold =
    | Free
    | Launching(job: JobId, now: Time)
    | Polling(job: JobId, now: Time)
    | Failing(job: JobId, now: Time)
    | Resuming(job: JobId, wait: WaitRow, now: Time)
    | Reporting(job: JobId, attempts: nat, now: Time)

  /**
   The jobs table is the desk's; the copy inside `ci` is ignored. `clock` is the time of the last recorded delivery.
   */
  datatype Sys = Sys(desk: Desk, ci: C.Tables, ciHold: P.Hold, hold: Hold, clock: Time)

  datatype Move =
    // between the worker's transactions
    | Arrive(signal: Message, now: Time)
    | CiEvent(event: C.CiEvent, now: Time)
    | IssueEvent(repository: string, issue: int, now: Time)
    | Operator(job: JobId, run: string, key: ReportKey, now: Time)
    | Crash
    // CI repair
    | Ci(op: P.Op)
    // reporting
    | ClaimNotice(job: JobId, now: Time)
    | Posted(comment: int)
    | PostFailed(transient: bool, message: string)
    // launching
    | ClaimJob(job: JobId, now: Time)
    | LaunchAccepted(run: string)
    | LaunchFailed(transient: bool, message: string)
    | CloseWindow(reason: string)
    // following a run
    | ReporterMissing(message: string)
    | StatusLost(message: string)
    | ProjectionFailed(target: Status, transient: bool, due: Time, message: string)
    | QueueFailure(reason: string)
    | WaitReported(wait: ExternalWait, wake: Time)
    | ResumeAccepted
    | ResumeFailed(due: Time, message: string)
    | NoLongerWaiting
    | StillRunning
    | EnterCi(entry: C.Entry)
    | Finished(result: TerminalResult)

  function CiTablesOf(s: Sys): C.Tables {
    s.ci.(jobs := s.desk.jobs)
  }

  function CiView(s: Sys): P.Sys {
    P.Sys(CiTablesOf(s), s.ciHold)
  }

  function StatusOf(s: Sys, j: JobId): Status {
    if j in s.desk.jobs then s.desk.jobs[j].status else Failed
  }

  predicate Idle(s: Sys) {
    s.hold.Free? && s.ciHold.Idle?
  }

  /** Webhooks and dispatcher entries have moves of their own. */
  predicate IsWorkerOp(op: P.Op) {
    !op.Begin? && !op.OtherJobs? && !op.Webhook? && !op.Release?
  }

  predicate Can(s: Sys, m: Move) {
    match m
    case Arrive(_, now) => now >= s.clock
    case CiEvent(_, _) => true
    case IssueEvent(_, _, _) => true
    case Operator(_, _, _, _) => true
    case Crash => true
    case Ci(op) => s.hold.Free? && IsWorkerOp(op) && P.Enabled(CiView(s), op)
    case ClaimNotice(j, now) => Idle(s) && IsFirst(DueNotices(s.desk, now), NoticeRank(s.desk), j)
    case Posted(_) => s.hold.Reporting?
    case PostFailed(_, message) => s.hold.Reporting? && message != ""
    case ClaimJob(j, now) => Idle(s) && IsFirst(ClaimableJobs(s.desk), JobRank(s.desk), j) && s.desk.jobs[j].due <= now
    case LaunchAccepted(_) => s.hold.Launching? && !Closed(s)
    case LaunchFailed(_, _) => s.hold.Launching? && !Closed(s)
    case CloseWindow(_) => s.hold.Launching? && Closed(s)
    case ReporterMissing(_) => s.hold.Polling? && StatusOf(s, s.hold.job).ReportPending?
    case StatusLost(_) => s.hold.Polling? && StatusOf(s, s.hold.job).ExternalWaiting?
    case ProjectionFailed(_, _, _, _) => s.hold.Polling?
    case QueueFailure(_) => s.hold.Failing?
    case WaitReported(_, _) => s.hold.Polling?
    case ResumeAccepted => s.hold.Resuming?
    case ResumeFailed(_, _) => s.hold.Resuming?
    case NoLongerWaiting => s.hold.Polling? && StatusOf(s, s.hold.job).ExternalWaiting?
    case StillRunning => s.hold.Polling? && !StatusOf(s, s.hold.job).ExternalWaiting?
    case EnterCi(e) => s.hold.Polling? && !StatusOf(s, s.hold.job).ExternalWaiting? && e.job == s.hold.job
    case Finished(_) => s.hold.Polling? && !StatusOf(s, s.hold.job).ExternalWaiting?
  }

  predicate Closed(s: Sys)
    requires s.hold.Launching?
  {
    s.hold.job in s.desk.jobs && WindowClosed(s.desk.jobs[s.hold.job], s.hold.now)
  }

  function Commit(d: Desk, r: Option<Desk>): Desk {
    if r.Some? then r.value else d
  }

  /** Write the answer (or roll back) and let go of the claim. */
  function Answer(s: Sys, r: Option<Desk>): Sys {
    s.(desk := Commit(s.desk, r), hold := Free)
  }

  function JobOf(s: Sys): Job
    requires s.hold.Launching? || s.hold.Polling? || s.hold.Failing?
  {
    if s.hold.job in s.desk.jobs then s.desk.jobs[s.hold.job]
    else Job(SemanticKey("", "", 0), "", "", "", Failed, 0, 0, None, 0, "", 0)
  }

  function AfterLaunchFailure(s: Sys, transient: bool, message: string): Option<Desk>
    requires s.hold.Launching?
  {
    if transient then MarkLaunchFailure(s.desk, s.hold.job, true, LaunchDue(JobOf(s), s.hold.now), message)
    else QueueResult(s.desk, s.hold.job, LaunchFailure(JobOf(s), message), s.hold.now)
  }

  /** Counts the failure; the last allowed one, or a permanent one, goes on to queue a failed result. */
  function AfterProjectionFailure(s: Sys, target: Status, transient: bool, due: Time, message: string): Sys
    requires s.hold.Polling?
  {
    var j, now := s.hold.job, s.hold.now;
    var r := MarkPreOutboxFailure(s.desk, j, target, due, message);
    if r.None? then s.(hold := Free)
    else
      var over := !transient || r.value.jobs[j].preOutbox >= PRE_OUTBOX_MAX_ATTEMPTS;
      s.(desk := r.value, hold := if over then Failing(j, now) else Free)
  }

  /** A wait that was already woken goes on to resume the run. */
  function AfterWait(s: Sys, wait: ExternalWait, wake: Time): Sys
    requires s.hold.Polling?
  {
    var j := s.hold.job;
    var r := RecordWait(s.desk, j, JobOf(s).run, wait, wake);
    if r.None? then s.(hold := Free)
    else
      var d := r.value;
      var ready := j in d.waits && d.waits[j].wait.generation == wait.generation && d.waits[j].state.ResumeReady?;
      s.(desk := d, hold := if ready then Resuming(j, d.waits[j], s.hold.now) else Free)
  }

  function AfterReconcile(s: Sys): Sys
    requires s.hold.Polling?
  {
    var r := ReconcileResume(s.desk, s.hold.job, JobOf(s).run, s.hold.now);
    if r.Some? then s.(desk := r.value) else s.(hold := Free)
  }

  function FromCi(s: Sys, v: P.Sys): Sys {
    s.(ci := v.t, desk := s.desk.(jobs := v.t.jobs), ciHold := v.hold)
  }

  function Claim(s: Sys, j: JobId, now: Time): Sys
    requires j in s.desk.jobs
  {
    s.(desk := TakeJob(s.desk, j, now),
       hold := if Unlaunched(s.desk.jobs[j].status) then Launching(j, now) else Polling(j, now))
  }

  /** A move that is not possible changes nothing. */
  function Next(p: C.Policy, s: Sys, m: Move): Sys {
    if !Can(s, m) then s else
    match m
    case Arrive(signal, now) => s.(desk := Commit(s.desk, Record(s.desk, signal, now)), clock := now)
    case CiEvent(event, now) => FromCi(s, P.Step(p, CiView(s), P.Webhook(event, now)))
    case IssueEvent(repository, issue, now) => s.(desk := RecordWake(s.desk, repository, issue, now))
    case Operator(j, run, key, now) => s.(desk := Commit(s.desk, Requeue(s.desk, j, run, key, now)))
    case Crash => s.(hold := Free, ciHold := P.Idle)
    case Ci(op) => FromCi(s, P.Step(p, CiView(s), op))
    case ClaimNotice(j, now) => s.(hold := Reporting(j, s.desk.outbox[j].attempts, now))
    case Posted(comment) => Answer(s, MarkReportDelivered(s.desk, s.hold.job, comment))
    case PostFailed(transient, message) =>
      Answer(s, MarkReportFailure(s.desk, s.hold.job, s.hold.attempts, Retries(transient, s.hold.attempts), message,
          s.hold.now))
    case ClaimJob(j, now) => Claim(s, j, now)
    case LaunchAccepted(run) => Answer(s, MarkLaunched(s.desk, s.hold.job, run, s.hold.now + STATUS_POLL_INTERVAL))
    case LaunchFailed(transient, message) => Answer(s, AfterLaunchFailure(s, transient, message))
    case CloseWindow(reason) => Answer(s, QueueResult(s.desk, s.hold.job, LaunchFailure(JobOf(s), reason), s.hold.now))
    case ReporterMissing(message) =>
      Answer(s, DeferReport(s.desk, s.hold.job, s.hold.now + REPORTER_UNAVAILABLE_DELAY, message))
    case StatusLost(message) =>
      Answer(s, DeferResume(s.desk, s.hold.job, JobOf(s).run, s.hold.now + EXTERNAL_RECOVERY_WAKE, message))
    case ProjectionFailed(target, transient, due, message) => AfterProjectionFailure(s, target, transient, due, message)
    case QueueFailure(reason) =>
      Answer(s, QueueResult(s.desk, s.hold.job, ProjectionFailure(JobOf(s), reason), s.hold.now))
    case WaitReported(wait, wake) => AfterWait(s, wait, wake)
    case ResumeAccepted => Answer(s, MarkResumed(s.desk, s.hold.job, s.hold.wait, s.hold.now))
    case ResumeFailed(due, message) => Answer(s, DeferResume(s.desk, s.hold.job, s.hold.wait.run, due, message))
    case NoLongerWaiting => AfterReconcile(s)
    case StillRunning => Answer(s, MarkStatus(s.desk, s.hold.job, Launched, s.hold.now + STATUS_POLL_INTERVAL, ""))
    case EnterCi(entry) => FromCi(s.(hold := Free), P.Answer(CiView(s), C.BeginWait(CiTablesOf(s), entry, s.hold.now)))
    case Finished(result) => Answer(s, QueueResult(s.desk, s.hold.job, result, s.hold.now))
  }

  const EMPTY_DESK := Desk(map[], map[], map[], map[], map[], 0, 0)
  const NO_CI := C.Tables(map[], map[], map[], map[], {}, map[])

  function Start(clock: Time): Sys {
    Sys(EMPTY_DESK, NO_CI, P.Idle, Free, clock)
  }

  ghost predicate Legal(p: C.Policy, s: Sys, run: seq<Move>)
    decreases |run|
  {
    run == [] || (Can(s, run[0]) && Legal(p, Next(p, s, run[0]), run[1..]))
  }

  ghost function Exec(p: C.Policy, s: Sys, run: seq<Move>): Sys
    decreases |run|
  {
    if run == [] then s else Exec(p, Next(p, s, run[0]), run[1..])
  }
}
