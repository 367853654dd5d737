/** What CI repair does to the jobs table: only to jobs with a CI task, and never back into the launch order. */
module CiJobs {
  import opened Basics
  import opened Jobs
  import opened CiTables
  import P = CiProtocol

  predicate Parked(s: Status) {
    s.CiWaiting? || s.CiRepair? || s.CiEscalation? || s.Completed? || s.Failed? || s.ReportBlocked?
  }

  /** CI writes a job's status, schedule and error text only. */
  predicate Rewritten(a: Job, b: Job) {
    b == a.(status := b.status, due := b.due, lastError := b.lastError) && Parked(b.status)
  }

  /** Every other job keeps its row. */
  predicate OnlyParks(t: Tables, u: Tables) {
    && u.jobs.Keys == t.jobs.Keys && u.tasks.Keys == t.tasks.Keys
    && forall j | j in t.jobs :: u.jobs[j] == t.jobs[j] || (j in t.tasks && Rewritten(t.jobs[j], u.jobs[j]))
  }

  lemma Parks(t: Tables, u: Tables, j: JobId)
    requires j in t.tasks && u.tasks.Keys == t.tasks.Keys
    requires u.jobs == t.jobs
             || (j in t.jobs && j in u.jobs && Rewritten(t.jobs[j], u.jobs[j]) && u.jobs == t.jobs[j := u.jobs[j]])
    ensures OnlyParks(t, u)
  {}

  lemma FailRecParks(t: Tables, r: RecId, operations: nat, failure: ObserveFailure, p: Policy, now: Time)
    ensures OnlyParks(t, P.Commit(t, FailRec(t, r, operations, failure, p, now)))
  {
    var u := FailRec(t, r, operations, failure, p, now);
    if u.Some? {
      Parks(t, u.value, r.job);
    }
  }

  lemma CodeFailureParks(t: Tables, j: JobId, p: Policy, now: Time)
    requires j in t.tasks
    ensures OnlyParks(t, P.Commit(t, ApplyCodeFailure(t, j, p, now)))
  {
    var u := ApplyCodeFailure(t, j, p, now);
    if u.Some? {
      Parks(t, u.value, j);
    }
  }

  lemma SettledParks(t: Tables, j: JobId, verdict: Verdict, p: Policy, now: Time)
    requires j in t.tasks && (verdict == Success || verdict == Pending)
    ensures OnlyParks(t, P.Commit(t, ApplyVerdict(t, j, verdict, p, now)))
  {
    Parks(t, ApplyVerdict(t, j, verdict, p, now).value, j);
  }

  lemma VerdictParks(t: Tables, j: JobId, verdict: Verdict, p: Policy, now: Time)
    requires j in t.tasks
    ensures OnlyParks(t, P.Commit(t, ApplyVerdict(t, j, verdict, p, now)))
  {
    match verdict
    case Infrastructure => Parks(t, Escalate(t, j, InfrastructureFailure, t.tasks[j].repairs, now), j);
    case CodeFailure => CodeFailureParks(t, j, p, now);
    case _ => SettledParks(t, j, verdict, p, now);
  }

  lemma ApplyParks(t: Tables, r: RecId, o: Observation, p: Policy, now: Time)
    ensures OnlyParks(t, P.Commit(t, ApplyObservation(t, r, o, p, now)))
  {
    var u := ApplyObservation(t, r, o, p, now);
    if u.Some? && u.value != t {
      var v := Observed(t, r, o, now);
      assert v.jobs == t.jobs && v.tasks.Keys == t.tasks.Keys;
      VerdictParks(v, r.job, o.verdict, p, now);
    }
  }

  lemma FailureParks(t: Tables, id: AttemptId, cause: FailureClass, started: bool, p: Policy, now: Time)
    ensures OnlyParks(t, P.Commit(t, FinishFailure(t, id, cause, started, p, now)))
  {
    var u := FinishFailure(t, id, cause, started, p, now);
    if u.Some? && u.value != t {
      var v := CloseFailed(t, id, cause, started && !At(t, id).charged);
      assert v.jobs == t.jobs && v.tasks.Keys == t.tasks.Keys;
      Parks(t, u.value, id.job);
    }
  }

  lemma DeliveryParks(t: Tables, id: AttemptId, d: Delivery, p: Policy, now: Time)
    ensures OnlyParks(t, P.Commit(t, CompleteDelivery(t, id, d, p, now)))
  {
    var u := CompleteDelivery(t, id, d, p, now);
    if u.Some? && u.value != t {
      Parks(t, u.value, id.job);
    }
  }

  lemma EscalationParks(t: Tables, j: JobId, comment: int, attempts: nat, retry: bool, message: string, now: Time)
    requires t.escalations.Keys <= t.tasks.Keys
    ensures OnlyParks(t, P.Commit(t, MarkEscalationDelivered(t, j, comment)))
    ensures OnlyParks(t, P.Commit(t, MarkEscalationFailure(t, j, attempts, retry, message, now)))
  {
    if j in t.escalations {
      var u := MarkEscalationDelivered(t, j, comment);
      if u.Some? {
        Parks(t, u.value, j);
      }
      var v := MarkEscalationFailure(t, j, attempts, retry, message, now);
      if v.Some? {
        Parks(t, v.value, j);
      }
    }
  }

  /** The CI worker's own transactions. */
  predicate IsCiWork(op: P.Op) {
    !op.Begin? && !op.OtherJobs?
  }

  lemma CiOnlyParks(p: Policy, s: P.Sys, op: P.Op)
    requires P.Ok(s) && P.Enabled(s, op) && IsCiWork(op)
    ensures OnlyParks(s.t, P.Step(p, s, op).t)
  {
    match op
    case FailObserve(failure, now) => FailRecParks(s.t, s.hold.rec, s.hold.operations, failure, p, now);
    case Apply(o, now) => ApplyParks(s.t, s.hold.rec, o, p, now);
    case Abandon(now) => FailureParks(s.t, s.hold.id, InfrastructureClass, false, p, now);
    case Finish(cause, started, now) => FailureParks(s.t, s.hold.id, cause, started, p, now);
    case Complete(d, now) => DeliveryParks(s.t, s.hold.id, d, p, now);
    case Deliver(comment) => EscalationParks(s.t, s.hold.job, comment, 0, false, "", 0);
    case FailReport(retry, message, now) => EscalationParks(s.t, s.hold.job, 0, s.hold.attempts, retry, message, now);
    case _ => JobsUntouched(p, s, op);
  }

  lemma JobsUntouched(p: Policy, s: P.Sys, op: P.Op)
    requires P.Enabled(s, op) && IsCiWork(op) && !op.FailObserve? && !op.Apply? && !op.Abandon? && !op.Finish?
             && !op.Complete?
    requires !op.Deliver? && !op.FailReport?
    ensures P.Step(p, s, op).t.jobs == s.t.jobs && P.Step(p, s, op).t.tasks.Keys == s.t.tasks.Keys
  {}

  // ---------- the job's status mirrors the task's state ----------

  predicate Mirror(state: TaskState, status: Status) {
    match state
    case WaitingCi => status.CiWaiting?
    case RepairReady => status.CiRepair?
    case RepairRunning => status.CiRepair?
    case TaskCompleted => status.Completed?
    case EscalationPending => status.CiEscalation?
    case EscalationBlocked => status.ReportBlocked?
    case Escalated => status.Failed?
  }

  /** The statuses from which a job can still be claimed. */
  predicate Launchable(s: Status) {
    s.PendingLaunch? || s.LaunchRetry? || s.Launched? || s.ExternalWaiting? || s.ReportPending?
  }

  /** What is left of the mirror for a job that entered CI while it was not `launched`. */
  predicate Engaged(state: TaskState, status: Status) {
    match state
    case WaitingCi => true
    case RepairReady => status.CiRepair?
    case RepairRunning => status.CiRepair?
    case EscalationPending => status.CiEscalation?
    case _ => !Launchable(status)
  }

  predicate MirrorsJob(t: Tables, i: JobId, strict: bool) {
    i in t.tasks ==>
      && i in t.jobs
      && if strict then Mirror(t.tasks[i].state, t.jobs[i].status) else Engaged(t.tasks[i].state, t.jobs[i].status)
  }

  lemma FailRecMirrors(
    t: Tables, r: RecId, operations: nat, failure: ObserveFailure, p: Policy, now: Time, i: JobId, strict: bool)
    requires MirrorsJob(t, i, strict)
    ensures MirrorsJob(P.Commit(t, FailRec(t, r, operations, failure, p, now)), i, strict)
  {}

  lemma VerdictMirrors(t: Tables, j: JobId, verdict: Verdict, p: Policy, now: Time, i: JobId, strict: bool)
    requires j in t.tasks && j in t.jobs && (i != j ==> MirrorsJob(t, i, strict))
             && ApplyVerdict(t, j, verdict, p, now).Some?
    ensures MirrorsJob(ApplyVerdict(t, j, verdict, p, now).value, i, strict)
  {}

  lemma ApplyMirrors(t: Tables, r: RecId, o: Observation, p: Policy, now: Time, i: JobId, strict: bool)
    requires MirrorsJob(t, i, strict) && (r.job in t.tasks ==> r.job in t.jobs)
    ensures MirrorsJob(P.Commit(t, ApplyObservation(t, r, o, p, now)), i, strict)
  {
    var u := ApplyObservation(t, r, o, p, now);
    if u.Some? && u.value != t {
      var v := Observed(t, r, o, now);
      assert i != r.job ==> MirrorsJob(v, i, strict);
      VerdictMirrors(v, r.job, o.verdict, p, now, i, strict);
    }
  }

  lemma AfterFailureMirrors(
    t: Tables, id: AttemptId, cause: FailureClass, started: bool, p: Policy, now: Time, i: JobId, strict: bool)
    requires id.job in t.tasks && id.job in t.jobs && MirrorsJob(t, i, strict)
             && AfterFailure(t, id, cause, started, p, now).Some?
    ensures MirrorsJob(AfterFailure(t, id, cause, started, p, now).value, i, strict)
  {}

  lemma FailureMirrors(
    t: Tables, id: AttemptId, cause: FailureClass, started: bool, p: Policy, now: Time, i: JobId, strict: bool)
    requires MirrorsJob(t, i, strict) && (id.job in t.tasks ==> id.job in t.jobs)
    ensures MirrorsJob(P.Commit(t, FinishFailure(t, id, cause, started, p, now)), i, strict)
  {
    var u := FinishFailure(t, id, cause, started, p, now);
    if u.Some? && u.value != t {
      var v := CloseFailed(t, id, cause, started && !At(t, id).charged);
      assert MirrorsJob(v, i, strict);
      AfterFailureMirrors(v, id, cause, started, p, now, i, strict);
    }
  }

  lemma RunMirrors(t: Tables, id: AttemptId, run: string, d: Delivery, p: Policy, now: Time, i: JobId, strict: bool)
    requires MirrorsJob(t, i, strict) && (id.job in t.tasks ==> id.job in t.jobs)
    ensures MirrorsJob(P.Commit(t, BindRun(t, id, run, now)), i, strict)
    ensures MirrorsJob(P.Commit(t, CompleteDelivery(t, id, d, p, now)), i, strict)
    ensures MirrorsJob(P.Commit(t, Charge(t, id)), i, strict)
  {}

  lemma DeliveredMirrors(t: Tables, j: JobId, comment: int, i: JobId, strict: bool)
    requires MirrorsJob(t, i, strict) && (j in t.escalations ==> j in t.tasks && P.EscalationMatches(t, j))
    ensures MirrorsJob(P.Commit(t, MarkEscalationDelivered(t, j, comment)), i, strict)
  {}

  lemma UndeliveredMirrors(
    t: Tables, j: JobId, attempts: nat, retry: bool, message: string, now: Time, i: JobId, strict: bool)
    requires MirrorsJob(t, i, strict) && (j in t.escalations ==> j in t.tasks && P.EscalationMatches(t, j))
    ensures MirrorsJob(P.Commit(t, MarkEscalationFailure(t, j, attempts, retry, message, now)), i, strict)
  {}

  /** Every step of CI repair keeps the status of each job in step with its task. */
  lemma CiMirrors(p: Policy, s: P.Sys, op: P.Op, i: JobId, strict: bool)
    requires P.Ok(s) && P.Enabled(s, op) && IsCiWork(op) && MirrorsJob(s.t, i, strict)
    ensures MirrorsJob(P.Step(p, s, op).t, i, strict)
  {
    match op
    case FailObserve(failure, now) => FailRecMirrors(s.t, s.hold.rec, s.hold.operations, failure, p, now, i, strict);
    case Apply(o, now) => ApplyMirrors(s.t, s.hold.rec, o, p, now, i, strict);
    case Bind(run, now) => RunMirrors(s.t, s.hold.id, run, NO_DELIVERY, p, now, i, strict);
    case Abandon(now) => FailureMirrors(s.t, s.hold.id, InfrastructureClass, false, p, now, i, strict);
    case Finish(cause, started, now) => FailureMirrors(s.t, s.hold.id, cause, started, p, now, i, strict);
    case ChargeRun => RunMirrors(s.t, s.hold.id, "", NO_DELIVERY, p, 0, i, strict);
    case Complete(d, now) => RunMirrors(s.t, s.hold.id, "", d, p, now, i, strict);
    case Deliver(comment) => ReportMirrors(s, comment, 0, false, "", 0, i, strict);
    case FailReport(retry, message, now) => ReportMirrors(s, 0, s.hold.attempts, retry, message, now, i, strict);
    case _ => TasksUntouched(p, s, op);
  }

  lemma ReportMirrors(
    s: P.Sys, comment: int, attempts: nat, retry: bool, message: string, now: Time, i: JobId, strict: bool)
    requires P.Ok(s) && s.hold.Reporting? && MirrorsJob(s.t, i, strict)
    ensures MirrorsJob(P.Commit(s.t, MarkEscalationDelivered(s.t, s.hold.job, comment)), i, strict)
    ensures MirrorsJob(P.Commit(s.t, MarkEscalationFailure(s.t, s.hold.job, attempts, retry, message, now)), i, strict)
  {
    var j := s.hold.job;
    assert j in s.t.escalations.Keys && j in s.t.tasks.Keys && P.TaskOk(s.t, j);
    DeliveredMirrors(s.t, j, comment, i, strict);
    UndeliveredMirrors(s.t, j, attempts, retry, message, now, i, strict);
  }

  const NO_DELIVERY := Delivery("", "", "", "", "")

  lemma TasksUntouched(p: Policy, s: P.Sys, op: P.Op)
    requires P.Enabled(s, op) && IsCiWork(op) && !op.FailObserve? && !op.Apply? && !op.Bind? && !op.Abandon?
             && !op.Finish?
    requires !op.ChargeRun? && !op.Complete? && !op.Deliver? && !op.FailReport?
    ensures P.Step(p, s, op).t.jobs == s.t.jobs && P.Step(p, s, op).t.tasks == s.t.tasks
  {}
}
