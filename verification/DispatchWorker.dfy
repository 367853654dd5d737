/** The worker's code around a claim: what it does with the broker's answers, as moves of the dispatcher protocol. */
module DispatchWorker {
  import opened Basics
  import opened Delays
  import opened ExternalWaits
  import opened Jobs
  import opened DispatchTables
  import opened DispatchProtocol
  import C = CiTables
  import P = CiProtocol
  import X = DispatchOutbox
  import DispatchStore

  // ---------- the broker's answers ----------

  datatype LaunchAnswer = Accepted(run: string) | LaunchError(transient: bool, message: string)

  datatype ResumeAnswer = Resumption | ResumeUnusable(message: string) | ResumeError(message: string)

  /** `entry` holds the pull request coordinates of a result that is ready for review. */
  datatype Projection =
    | NoProjection(transient: bool, message: string)
    | Projected(result: TerminalResult, entry: Option<C.Entry>)

  datatype StatusAnswer =
    | NoStatus(transient: bool, message: string)
    | WrongRun
    | BadWait(message: string)
    | WaitsFor(wait: ExternalWait, resume: ResumeAnswer)
    | NotWaiting(progress: Progress)

  datatype Progress = StillGoing | UnknownStatus(message: string) | Ended(projection: Projection)

  // ---------- the moves they amount to ----------

  /** The source's retry time of a failed poll, from the failures on the job row that was claimed. */
  function RetryAt(failures: nat, now: Time): Time {
    now + PreOutboxRetryDelay(failures + 1)
  }

  function LaunchMove(s: Sys, a: LaunchAnswer): Move
    requires s.hold.Launching?
  {
    if Closed(s) then CloseWindow("launch retry window exhausted")
    else match a
      case Accepted(run) => LaunchAccepted(run)
      case LaunchError(transient, message) => LaunchFailed(transient, message)
  }

  function AfterLaunch(s: Sys, a: LaunchAnswer): Option<Desk>
    requires s.hold.Launching?
  {
    if Closed(s) then QueueResult(s.desk, s.hold.job, LaunchFailure(JobOf(s), "launch retry window exhausted"),
        s.hold.now)
    else
      match a
      case Accepted(run) => MarkLaunched(s.desk, s.hold.job, run, s.hold.now + STATUS_POLL_INTERVAL)
      case LaunchError(transient, message) => AfterLaunchFailure(s, transient, message)
  }

  lemma LaunchIsMove(p: C.Policy, s: Sys, a: LaunchAnswer)
    requires s.hold.Launching?
    ensures Next(p, s, LaunchMove(s, a)) == Answer(s, AfterLaunch(s, a))
  {}

  /** Count the failure and, if it was the last or permanent, queue a failed result. */
  function FailPath(s: Sys, target: Status, transient: bool, due: Time, message: string): Sys
    requires s.hold.Polling?
  {
    var u := AfterProjectionFailure(s, target, transient, due, message);
    if u.hold.Failing? then AfterLastFailure(u, message) else u
  }

  function AfterLastFailure(s: Sys, message: string): Sys
    requires s.hold.Failing?
  {
    Answer(s, QueueResult(s.desk, s.hold.job, ProjectionFailure(JobOf(s), message), s.hold.now))
  }

  function AfterResume(s: Sys, due: Time, r: ResumeAnswer): Option<Desk>
    requires s.hold.Resuming?
  {
    match r
    case Resumption => MarkResumed(s.desk, s.hold.job, s.hold.wait, s.hold.now)
    case ResumeUnusable(message) =>
      DeferResume(s.desk, s.hold.job, s.hold.wait.run, s.hold.now + EXTERNAL_RECOVERY_WAKE, message)
    case ResumeError(message) => DeferResume(s.desk, s.hold.job, s.hold.wait.run, due, message)
  }

  function WaitPath(s: Sys, wait: ExternalWait, wake: Time, due: Time, r: ResumeAnswer): Sys
    requires s.hold.Polling?
  {
    var u := AfterWait(s, wait, wake);
    if u.hold.Resuming? then Answer(u, AfterResume(u, due, r)) else u
  }

  predicate Waits(s: Sys)
    requires s.hold.Polling?
  {
    StatusOf(s, s.hold.job).ExternalWaiting?
  }

  /** A run that was waiting and no longer is goes back to `launched` first. */
  function BackFromWait(s: Sys): Sys
    requires s.hold.Polling?
  {
    if Waits(s) then AfterReconcile(s) else s
  }

  function EndPath(s: Sys, due: Time, policyValid: bool, a: Projection): Sys
    requires s.hold.Polling?
  {
    match a
    case NoProjection(transient, message) => FailPath(s, ReportPending, transient, due, message)
    case Projected(r, entry) =>
      if !ValidResult(JobOf(s), r) then FailPath(s, ReportPending, false, due, "invalid")
      else if r.payload.Oversized? then FailPath(s, ReportPending, false, due, "oversized")
      else if r.outcome.ReadyForReview? && policyValid then
        if entry.None? || entry.value.job != s.hold.job then FailPath(s, ReportPending, false, due, "unplaced")
        else AfterEntry(s, entry.value)
      else Answer(s, QueueResult(s.desk, s.hold.job, r, s.hold.now))
  }

  function AfterEntry(s: Sys, entry: C.Entry): Sys
    requires s.hold.Polling?
  {
    FromCi(s.(hold := Free), P.Answer(CiView(s), C.BeginWait(CiTablesOf(s), entry, s.hold.now)))
  }

  predicate Ready(s: Sys) {
    s.hold.Polling? && !Waits(s)
  }

  function ProgressPath(s: Sys, due: Time, policyValid: bool, a: Progress): Sys
    requires s.hold.Polling?
  {
    match a
    case StillGoing => Answer(s, MarkStatus(s.desk, s.hold.job, Launched, s.hold.now + STATUS_POLL_INTERVAL, ""))
    case UnknownStatus(message) => FailPath(s, ReportPending, false, due, message)
    case Ended(projection) => EndPath(s, due, policyValid, projection)
  }

  /** Everything a poll does with its answer; a failure is retried at `due`, a wait is rechecked at `wake`. */
  function Poll(s: Sys, due: Time, wake: Time, policyValid: bool, a: StatusAnswer): Sys
    requires s.hold.Polling?
  {
    match a
    case NoStatus(transient, message) =>
      if Waits(s)
          then Answer(s, DeferResume(s.desk, s.hold.job, JobOf(s).run, s.hold.now + EXTERNAL_RECOVERY_WAKE, message))
      else FailPath(s, Launched, transient, due, message)
    case WrongRun => s.(hold := Free)
    case BadWait(message) => FailPath(s, ReportPending, false, due, message)
    case WaitsFor(wait, r) => WaitPath(s, wait, wake, due, r)
    case NotWaiting(progress) =>
      var u := BackFromWait(s);
      if Ready(u) then ProgressPath(u, due, policyValid, progress) else u
  }

  // ---------- polls are moves of the protocol ----------

  /** `u` comes after `s` by a move of the protocol that lets go of the claim. */
  ghost predicate Answers(p: C.Policy, s: Sys, m: Move, u: Sys) {
    Can(s, m) && Next(p, s, m) == u
  }

  lemma MoveOk(p: C.Policy, s: Sys, m: Move, u: Sys)
    requires X.Ok(s) && Answers(p, s, m, u)
    ensures X.Ok(u)
  {
    X.MoveKeeps(p, s, m);
  }

  lemma IsProjectionFailed(p: C.Policy, s: Sys, target: Status, transient: bool, due: Time, message: string)
    requires s.hold.Polling?
    ensures Answers(p, s, ProjectionFailed(target, transient, due, message),
            AfterProjectionFailure(s, target, transient, due, message))
  {}

  lemma IsQueueFailure(p: C.Policy, s: Sys, reason: string)
    requires s.hold.Failing?
    ensures Answers(p, s, QueueFailure(reason), AfterLastFailure(s, reason))
  {}

  lemma FailPathKeeps(p: C.Policy, s: Sys, target: Status, transient: bool, due: Time, message: string)
    requires X.Ok(s) && s.hold.Polling?
    ensures
      var u := FailPath(s, target, transient, due, message);
      X.Ok(u) && u.hold.Free?
  {
    var u := AfterProjectionFailure(s, target, transient, due, message);
    IsProjectionFailed(p, s, target, transient, due, message);
    MoveOk(p, s, ProjectionFailed(target, transient, due, message), u);
    if u.hold.Failing? {
      IsQueueFailure(p, u, message);
      MoveOk(p, u, QueueFailure(message), AfterLastFailure(u, message));
    }
  }

  function ResumeMove(s: Sys, due: Time, r: ResumeAnswer): Move
    requires s.hold.Resuming?
  {
    match r
    case Resumption => ResumeAccepted
    case ResumeUnusable(message) => ResumeFailed(s.hold.now + EXTERNAL_RECOVERY_WAKE, message)
    case ResumeError(message) => ResumeFailed(due, message)
  }

  lemma IsResume(p: C.Policy, s: Sys, due: Time, r: ResumeAnswer)
    requires s.hold.Resuming?
    ensures Answers(p, s, ResumeMove(s, due, r), Answer(s, AfterResume(s, due, r)))
  {}

  lemma IsWaitReported(p: C.Policy, s: Sys, wait: ExternalWait, wake: Time)
    requires s.hold.Polling?
    ensures Answers(p, s, WaitReported(wait, wake), AfterWait(s, wait, wake))
  {}

  lemma WaitPathKeeps(p: C.Policy, s: Sys, wait: ExternalWait, wake: Time, due: Time, r: ResumeAnswer)
    requires X.Ok(s) && s.hold.Polling?
    ensures
      var u := WaitPath(s, wait, wake, due, r);
      X.Ok(u) && u.hold.Free?
  {
    var u := AfterWait(s, wait, wake);
    IsWaitReported(p, s, wait, wake);
    MoveOk(p, s, WaitReported(wait, wake), u);
    if u.hold.Resuming? {
      IsResume(p, u, due, r);
      MoveOk(p, u, ResumeMove(u, due, r), Answer(u, AfterResume(u, due, r)));
    }
  }

  lemma IsFinished(p: C.Policy, s: Sys, r: TerminalResult)
    requires Ready(s)
    ensures Answers(p, s, Finished(r), Answer(s, QueueResult(s.desk, s.hold.job, r, s.hold.now)))
  {}

  lemma IsEnterCi(p: C.Policy, s: Sys, entry: C.Entry)
    requires Ready(s) && entry.job == s.hold.job
    ensures Answers(p, s, EnterCi(entry), AfterEntry(s, entry))
  {}

  lemma EndPathKeeps(p: C.Policy, s: Sys, due: Time, policyValid: bool, a: Projection)
    requires X.Ok(s) && Ready(s)
    ensures
      var u := EndPath(s, due, policyValid, a);
      X.Ok(u) && u.hold.Free?
  {
    match a
    case NoProjection(transient, message) => FailPathKeeps(p, s, ReportPending, transient, due, message);
    case Projected(r, entry) =>
      if !ValidResult(JobOf(s), r) {
        FailPathKeeps(p, s, ReportPending, false, due, "invalid");
      } else if r.payload.Oversized? {
        FailPathKeeps(p, s, ReportPending, false, due, "oversized");
      } else if !(r.outcome.ReadyForReview? && policyValid) {
        IsFinished(p, s, r);
        MoveOk(p, s, Finished(r), Answer(s, QueueResult(s.desk, s.hold.job, r, s.hold.now)));
      } else if entry.None? || entry.value.job != s.hold.job {
        FailPathKeeps(p, s, ReportPending, false, due, "unplaced");
      } else {
        IsEnterCi(p, s, entry.value);
        MoveOk(p, s, EnterCi(entry.value), AfterEntry(s, entry.value));
      }
  }

  lemma IsWaitMove(p: C.Policy, s: Sys, message: string)
    requires s.hold.Polling? && Waits(s)
    ensures Answers(p, s, NoLongerWaiting, AfterReconcile(s))
    ensures Answers(p, s, StatusLost(message), Answer(s,
            DeferResume(s.desk, s.hold.job, JobOf(s).run, s.hold.now + EXTERNAL_RECOVERY_WAKE, message)))
  {}

  lemma BackKeeps(p: C.Policy, s: Sys)
    requires X.Ok(s) && s.hold.Polling?
    ensures X.Ok(BackFromWait(s)) && (Ready(BackFromWait(s)) || BackFromWait(s).hold.Free?)
  {
    if Waits(s) {
      IsWaitMove(p, s, "");
      MoveOk(p, s, NoLongerWaiting, AfterReconcile(s));
    }
  }

  lemma IsStillRunning(p: C.Policy, s: Sys)
    requires Ready(s)
    ensures Answers(p, s, StillRunning, Answer(s, MarkStatus(s.desk, s.hold.job, Launched,
            s.hold.now + STATUS_POLL_INTERVAL, "")))
  {}

  lemma IsRelease(p: C.Policy, s: Sys)
    requires s.ciHold.Idle?
    ensures Answers(p, s, Crash, s.(hold := Free))
  {}

  lemma ProgressKeeps(p: C.Policy, s: Sys, due: Time, policyValid: bool, a: Progress)
    requires X.Ok(s) && Ready(s)
    ensures
      var u := ProgressPath(s, due, policyValid, a);
      X.Ok(u) && u.hold.Free?
  {
    match a
    case StillGoing =>
      IsStillRunning(p, s);
      MoveOk(p, s, StillRunning, ProgressPath(s, due, policyValid, a));
    case UnknownStatus(message) => FailPathKeeps(p, s, ReportPending, false, due, message);
    case Ended(projection) => EndPathKeeps(p, s, due, policyValid, projection);
  }

  /** Whatever the broker answers, a poll keeps every invariant of the dispatcher and lets go of its claim. */
  lemma PollKeeps(p: C.Policy, s: Sys, due: Time, wake: Time, policyValid: bool, a: StatusAnswer)
    requires X.Ok(s) && s.hold.Polling?
    ensures
      var u := Poll(s, due, wake, policyValid, a);
      X.Ok(u) && u.hold.Free?
  {
    match a
    case NoStatus(transient, message) =>
      if Waits(s) {
        IsWaitMove(p, s, message);
        MoveOk(p, s, StatusLost(message), Poll(s, due, wake, policyValid, a));
      } else {
        FailPathKeeps(p, s, Launched, transient, due, message);
      }
    case WrongRun =>
      IsRelease(p, s);
      MoveOk(p, s, Crash, s.(hold := Free));
    case BadWait(message) => FailPathKeeps(p, s, ReportPending, false, due, message);
    case WaitsFor(wait, r) => WaitPathKeeps(p, s, wait, wake, due, r);
    case NotWaiting(progress) =>
      BackKeeps(p, s);
      if Ready(BackFromWait(s)) {
        ProgressKeeps(p, BackFromWait(s), due, policyValid, progress);
      }
  }

  // ---------- the code ----------

  class Worker {
    const store: DispatchStore.Store
    const policy: C.Policy
    const policyValid: bool

    constructor (store: DispatchStore.Store, policy: C.Policy, policyValid: bool)
      ensures this.store == store && this.policy == policy && this.policyValid == policyValid
    {
      this.store, this.policy, this.policyValid := store, policy, policyValid;
    }

    /** The state of the protocol that the tables stand for, with the worker in phase `hold`. */
    function S(hold: Hold): Sys
      reads this, store, store.ci
    {
      Sys(store.D(), store.ci.T().(jobs := map[]), P.Idle, hold, 0)
    }

    /** The tables are those of `u`, and the claim is over. */
    ghost predicate Reached(u: Sys)
      reads this, store, store.ci
    {
      store.D() == u.desk && store.ci.T() == CiTablesOf(u)
    }

    /** The retry delay, cut off at the end of the window. */
    method NextLaunch(job: Job, now: Time) returns (due: Time)
      ensures due == LaunchDue(job, now)
    {
      due := now + LaunchRetryDelay(job.attempts);
      if job.first.Some? && due >= job.first.value + LAUNCH_RETRY_WINDOW {
        due := job.first.value + LAUNCH_RETRY_WINDOW;
      }
    }

    method FinishLaunch(j: JobId, a: LaunchAnswer, now: Time)
      requires j in store.ci.jobs
      modifies store, store.ci
      ensures
        var s := old(S(Launching(j, now)));
        Reached(Next(policy, s, LaunchMove(s, a)))
    {
      LaunchIsMove(policy, S(Launching(j, now)), a);
      var job := store.ci.jobs[j];
      var ok;
      if WindowClosed(job, now) {
        ok := store.QueueTerminalResult(j, LaunchFailure(job, "launch retry window exhausted"), now);
        return;
      }
      match a
      case Accepted(run) => ok := store.SetLaunched(j, run, now + STATUS_POLL_INTERVAL);
      case LaunchError(transient, message) =>
        if transient {
          var due := NextLaunch(job, now);
          ok := store.SetLaunchFailure(j, true, due, message);
        } else {
          ok := store.QueueTerminalResult(j, LaunchFailure(job, message), now);
        }
    }

    method FinishReport(j: JobId, attempts: nat, comment: Option<int>, transient: bool, message: string, now: Time)
      requires message != ""
      modifies store, store.ci
      ensures
        var s := old(S(Reporting(j, attempts, now)));
        Reached(Next(policy, s, if comment.Some? then Posted(comment.value) else PostFailed(transient, message)))
    {
      var ok;
      if comment.Some? {
        ok := store.SetReportDelivered(j, comment.value);
        return;
      }
      var retry := transient;
      if retry && attempts + 1 >= REPORT_RETRY_MAX_ATTEMPTS {
        retry := false;
      }
      ok := store.SetReportFailure(j, attempts, retry, message, now);
    }

    /** Two transactions: count the failure, then queue a failed result if it was the last. */
    method FailProjection(j: JobId, target: Status, transient: bool, failures: nat, message: string, now: Time)
      requires j in store.ci.jobs
      modifies store, store.ci
      ensures Reached(FailPath(old(S(Polling(j, now))), target, transient, RetryAt(failures, now), message))
    {
      var due := now + PreOutboxRetryDelay(failures + 1);
      var ok, attempts := store.CountPreOutboxFailure(j, target, due, message);
      if !ok || (transient && attempts < PRE_OUTBOX_MAX_ATTEMPTS) {
        return;
      }
      ok := store.QueueTerminalResult(j, ProjectionFailure(store.ci.jobs[j], message), now);
    }

    method WaitExternally(j: JobId, wait: ExternalWait, failures: nat, r: ResumeAnswer, now: Time)
      requires j in store.ci.jobs
      modifies store, store.ci
      ensures Reached(WaitPath(old(S(Polling(j, now))), wait, now + policy.wake, RetryAt(failures, now), r))
    {
      var ok := store.RecordExternalWait(j, store.ci.jobs[j].run, wait, now + policy.wake);
      if !ok || j !in store.waits || store.waits[j].wait.generation != wait.generation
          || !store.waits[j].state.ResumeReady? {
        return;
      }
      var w := store.waits[j];
      match r
      case Resumption => ok := store.SetExternalResumed(j, w, now);
      case ResumeUnusable(message) => ok := store.DeferExternalResume(j, w.run, now + EXTERNAL_RECOVERY_WAKE, message);
      case ResumeError(message) =>
        ok := store.DeferExternalResume(j, w.run, now + PreOutboxRetryDelay(failures + 1), message);
    }

    method FinishRun(j: JobId, a: Projection, failures: nat, now: Time)
      requires j in store.ci.jobs
      modifies store, store.ci
      ensures Reached(EndPath(old(S(Polling(j, now))), RetryAt(failures, now), policyValid, a))
    {
      match a
      case NoProjection(transient, message) => FailProjection(j, ReportPending, transient, failures, message, now);
      case Projected(r, entry) =>
        if !ValidResult(store.ci.jobs[j], r) {
          FailProjection(j, ReportPending, false, failures, "invalid", now);
        } else if r.payload.Oversized? {
          FailProjection(j, ReportPending, false, failures, "oversized", now);
        } else if r.outcome.ReadyForReview? && policyValid {
          if entry.None? || entry.value.job != j {
            FailProjection(j, ReportPending, false, failures, "unplaced", now);
          } else {
            var ok := store.ci.BeginCiWait(entry.value, now);
          }
        } else {
          var ok := store.QueueTerminalResult(j, r, now);
        }
    }

    method Advance(j: JobId, a: Progress, failures: nat, now: Time)
      requires j in store.ci.jobs
      modifies store, store.ci
      ensures Reached(ProgressPath(old(S(Polling(j, now))), RetryAt(failures, now), policyValid, a))
    {
      match a
      case StillGoing => var ok := store.SetStatus(j, Launched, now + STATUS_POLL_INTERVAL, "");
      case UnknownStatus(message) => FailProjection(j, ReportPending, false, failures, message, now);
      case Ended(projection) => FinishRun(j, projection, failures, now);
    }

    /**
     What the worker does with the answer to a status request. Whatever is retried is due after the back-off of one more
     than the failures counted when the job was claimed.
     */
    method RunStatus(j: JobId, a: StatusAnswer, now: Time)
      requires j in store.ci.jobs
      modifies store, store.ci
      ensures
        var s := old(S(Polling(j, now)));
        Reached(Poll(s, RetryAt(JobOf(s).preOutbox, now), now + policy.wake, policyValid, a))
    {
      var job := store.ci.jobs[j];
      var failures := job.preOutbox;
      match a
      case NoStatus(transient, message) =>
        if job.status.ExternalWaiting? {
          var ok := store.DeferExternalResume(j, job.run, now + EXTERNAL_RECOVERY_WAKE, message);
        } else {
          FailProjection(j, Launched, transient, failures, message, now);
        }
      case WrongRun =>
      case BadWait(message) => FailProjection(j, ReportPending, false, failures, message, now);
      case WaitsFor(wait, r) => WaitExternally(j, wait, failures, r, now);
      case NotWaiting(progress) =>
        LeaveWait(j, progress, failures, now);
    }

    method LeaveWait(j: JobId, a: Progress, failures: nat, now: Time)
      requires j in store.ci.jobs
      modifies store, store.ci
      ensures Reached(Poll(old(S(Polling(j, now))), RetryAt(failures, now), now + policy.wake, policyValid,
              NotWaiting(a)))
    {
      if store.ci.jobs[j].status.ExternalWaiting? {
        var ok := store.ReconcileExternalResume(j, store.ci.jobs[j].run, now);
        if !ok {
          return;
        }
      }
      Advance(j, a, failures, now);
    }
  }
}
