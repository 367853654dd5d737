/** Head-of-line scheduling: launches follow creation order and one job at a time is in flight. */
module DispatchOrder {
  import opened Basics
  import Delays
  import ExternalWaits
  import opened Jobs
  import opened DispatchTables
  import opened DispatchProtocol
  import C = CiTables
  import P = CiProtocol
  import J = CiJobs
  import T = CiTheorems

  // ---------- the invariant ----------

  predicate Touched(job: Job) { job.first.Some? }

  /** A job that was never claimed is as it was recorded. */
  predicate Fresh(s: Sys, j: JobId)
    requires j in s.desk.jobs
  {
    && var job := s.desk.jobs[j];
    job.status.PendingLaunch? && job.attempts == 0 && job.run == "" && j !in s.desk.terminals && j !in s.ci.tasks
  }

  predicate JobOk(s: Sys, j: JobId)
    requires j in s.desk.jobs
  {
    1 <= j <= s.desk.lastJob && s.desk.jobs[j].created <= s.clock && (!Touched(s.desk.jobs[j]) ==> Fresh(s, j))
  }

  predicate Before(d: Desk, i: JobId, j: JobId)
    requires i in d.jobs && j in d.jobs
  {
    d.jobs[i].created < d.jobs[j].created || (d.jobs[i].created == d.jobs[j].created && i < j)
  }

  /** No job was claimed for launch ahead of an older one. */
  predicate InOrder(d: Desk) {
    forall i, j | i in d.jobs && j in d.jobs && Before(d, i, j) && Touched(d.jobs[j]) :: Touched(d.jobs[i])
  }

  predicate InFlight(d: Desk, j: JobId) {
    Claimable(d, j) && Touched(d.jobs[j])
  }

  ghost predicate OneInFlight(d: Desk) {
    forall i, j | InFlight(d, i) && InFlight(d, j) :: i == j
  }

  predicate HoldOk(s: Sys) {
    match s.hold
    case Free => true
    case Launching(j, _) => InFlight(s.desk, j) && Unlaunched(s.desk.jobs[j].status)
    case Polling(j, _) => InFlight(s.desk, j) && !Unlaunched(s.desk.jobs[j].status)
    case Failing(j, _) => InFlight(s.desk, j) && !Unlaunched(s.desk.jobs[j].status)
    case Resuming(j, w, _) => InFlight(s.desk, j) && s.desk.jobs[j].status.ExternalWaiting?
    case Reporting(j, attempts, _) =>
      j in s.desk.outbox && s.desk.outbox[j].Open() && s.desk.outbox[j].attempts == attempts
  }

  ghost predicate Ok(s: Sys) {
    && P.Ok(CiView(s)) && (s.hold.Free? || s.ciHold.Idle?)
    && (forall j | j in s.desk.jobs :: JobOk(s, j))
    && InOrder(s.desk) && OneInFlight(s.desk)
    && s.desk.outbox.Keys == s.desk.terminals.Keys && s.desk.terminals.Keys <= s.desk.jobs.Keys
    && HoldOk(s)
  }

  // ---------- moves that leave the order alone ----------

  predicate CalmJob(s: Sys, u: Sys, j: JobId)
    requires j in s.desk.jobs
  {
    && j in u.desk.jobs && u.desk.jobs[j].created == s.desk.jobs[j].created
    && u.desk.jobs[j].first == s.desk.jobs[j].first
    && (!Touched(s.desk.jobs[j]) ==> Fresh(u, j)) && (Claimable(u.desk, j) ==> Claimable(s.desk, j))
  }

  predicate Calm(s: Sys, u: Sys) {
    && u.desk.jobs.Keys == s.desk.jobs.Keys && u.desk.lastJob == s.desk.lastJob && u.clock == s.clock
    && forall j | j in s.desk.jobs :: CalmJob(s, u, j)
  }

  lemma CalmKeeps(s: Sys, u: Sys)
    requires Ok(s) && Calm(s, u)
    ensures (forall j | j in u.desk.jobs :: JobOk(u, j)) && InOrder(u.desk) && OneInFlight(u.desk)
  {
    forall j | j in u.desk.jobs
      ensures JobOk(u, j)
    {
      assert j in s.desk.jobs.Keys && CalmJob(s, u, j) && JobOk(s, j);
    }
    forall i, j | i in u.desk.jobs && j in u.desk.jobs && Before(u.desk, i, j) && Touched(u.desk.jobs[j])
      ensures Touched(u.desk.jobs[i])
    {
      assert i in s.desk.jobs.Keys && j in s.desk.jobs.Keys && CalmJob(s, u, i) && CalmJob(s, u, j)
             && Before(s.desk, i, j);
    }
    forall i, j | InFlight(u.desk, i) && InFlight(u.desk, j)
      ensures i == j
    {
      assert i in s.desk.jobs.Keys && j in s.desk.jobs.Keys && CalmJob(s, u, i) && CalmJob(s, u, j);
      assert InFlight(s.desk, i) && InFlight(s.desk, j);
    }
  }

  /** Stored results and notice contents are never rewritten. */
  predicate NotesKept(d: Desk, u: Desk, j: JobId) {
    && (j in d.terminals ==> j in u.terminals && u.terminals[j] == d.terminals[j])
    && (j in d.outbox ==> j in u.outbox && u.outbox[j].Content() == d.outbox[j].Content())
    && (j in u.terminals <==> j in u.outbox)
  }

  /** `u` rewrites the rows of job `j` only, in place. */
  predicate OneJob(d: Desk, u: Desk, j: JobId) {
    && j in d.jobs && j in u.jobs && u.jobs == d.jobs[j := u.jobs[j]] && u.lastJob == d.lastJob
    && u.jobs[j].key == d.jobs[j].key && u.jobs[j].created == d.jobs[j].created && u.jobs[j].first == d.jobs[j].first
    && NotesKept(d, u, j)
    && u.terminals == (if j in u.terminals then d.terminals[j := u.terminals[j]] else d.terminals)
    && u.outbox == (if j in u.outbox then d.outbox[j := u.outbox[j]] else d.outbox)
    && u.waits == (if j in u.waits then d.waits[j := u.waits[j]] else d.waits)
  }

  /** An answer about a claimed job is calm. */
  lemma OneJobIsCalm(s: Sys, u: Sys, j: JobId)
    requires Ok(s) && OneJob(s.desk, u.desk, j) && u.clock == s.clock && u.ci == s.ci
    requires Touched(s.desk.jobs[j]) && (Claimable(s.desk, j) || !Claimable(u.desk, j))
    ensures Calm(s, u)
  {
    forall i | i in s.desk.jobs
      ensures CalmJob(s, u, i)
    {
      assert JobOk(s, i);
    }
  }

  // ---------- what the answers write ----------

  predicate Touches(d: Desk, r: Option<Desk>, j: JobId) {
    r.Some? ==> OneJob(d, r.value, j)
  }

  predicate Tidy(d: Desk) { d.outbox.Keys == d.terminals.Keys }

  lemma QueueTouches(d: Desk, j: JobId, r: TerminalResult, now: Time)
    requires Tidy(d)
    ensures Touches(d, QueueResult(d, j, r, now), j)
  {}

  lemma ReportTouches(d: Desk, j: JobId, comment: int, attempts: nat, retry: bool, message: string, now: Time)
    requires Tidy(d)
    ensures Touches(d, MarkReportDelivered(d, j, comment), j)
    ensures Touches(d, MarkReportFailure(d, j, attempts, retry, message, now), j)
  {
    if Reportable(d, j) {
      assert d.outbox[j := d.outbox[j]].Keys == d.outbox.Keys;
    }
  }

  lemma RequeueTouches(d: Desk, j: JobId, run: string, key: ReportKey, now: Time)
    requires Tidy(d)
    ensures Touches(d, Requeue(d, j, run, key, now), j)
  {
    if Evidence(d, j, run, key) {
      assert d.outbox[j := d.outbox[j]].Keys == d.outbox.Keys;
    }
  }

  lemma WaitTouches(d: Desk, j: JobId, run: string, wait: ExternalWaits.ExternalWait, wake: Time)
    requires Tidy(d) && j in d.jobs
    ensures Touches(d, RecordWait(d, j, run, wait, wake), j)
  {
    assert d.jobs == d.jobs[j := d.jobs[j]];
  }

  lemma ResumeTouches(d: Desk, j: JobId, w: WaitRow, run: string, due: Time, message: string, now: Time)
    requires Tidy(d)
    ensures Touches(d, MarkResumed(d, j, w, now), j) && Touches(d, ReconcileResume(d, j, run, now), j)
    ensures Touches(d, DeferResume(d, j, run, due, message), j)
  {}

  lemma LaunchTouches(d: Desk, j: JobId, run: string, retry: bool, due: Time, message: string)
    requires Tidy(d)
    ensures Touches(d, MarkLaunched(d, j, run, due), j) && Touches(d, MarkLaunchFailure(d, j, retry, due, message), j)
  {}

  lemma StatusTouches(d: Desk, j: JobId, status: Status, due: Time, message: string)
    requires Tidy(d)
    ensures Touches(d, MarkStatus(d, j, status, due, message), j)
            && Touches(d, MarkPreOutboxFailure(d, j, status, due, message), j)
    ensures Touches(d, DeferReport(d, j, due, message), j)
  {}

  /** The moves by which the worker answers about its claimed job. */
  predicate IsAnswer(m: Move) {
    || m.Posted? || m.PostFailed? || m.LaunchAccepted? || m.LaunchFailed? || m.CloseWindow? || m.ReporterMissing?
       || m.StatusLost?
    || m.ProjectionFailed? || m.QueueFailure? || m.WaitReported? || m.ResumeAccepted? || m.ResumeFailed?
       || m.NoLongerWaiting?
    || m.StillRunning? || m.Finished?
  }

  /** The answer changes nothing but the claimed job's rows. */
  predicate Answered(s: Sys, u: Sys)
    requires !s.hold.Free?
  {
    u.ci == s.ci && u.ciHold == s.ciHold && u.clock == s.clock
        && (u.desk == s.desk || OneJob(s.desk, u.desk, s.hold.job))
  }

  lemma ReportAnswers(p: C.Policy, s: Sys, m: Move)
    requires Tidy(s.desk) && Can(s, m) && s.hold.Reporting? && IsAnswer(m)
    ensures Answered(s, Next(p, s, m))
  {
    match m
    case Posted(comment) => ReportTouches(s.desk, s.hold.job, comment, 0, false, "", s.hold.now);
    case PostFailed(transient, message) =>
      ReportTouches(s.desk, s.hold.job, 0, s.hold.attempts, Retries(transient, s.hold.attempts), message, s.hold.now);
  }

  lemma LaunchAnswers(p: C.Policy, s: Sys, m: Move)
    requires Tidy(s.desk) && Can(s, m) && s.hold.Launching? && IsAnswer(m)
    ensures Answered(s, Next(p, s, m))
  {
    var d, j, now := s.desk, s.hold.job, s.hold.now;
    match m
    case LaunchAccepted(run) => LaunchTouches(d, j, run, true, now + Delays.STATUS_POLL_INTERVAL, "");
    case LaunchFailed(_, message) =>
      LaunchTouches(d, j, "", true, LaunchDue(JobOf(s), now), message);
      QueueTouches(d, j, LaunchFailure(JobOf(s), message), now);
    case CloseWindow(reason) => QueueTouches(d, j, LaunchFailure(JobOf(s), reason), now);
  }

  lemma PollAnswers(p: C.Policy, s: Sys, m: Move)
    requires Tidy(s.desk) && Can(s, m) && s.hold.Polling? && IsAnswer(m) && s.hold.job in s.desk.jobs
    ensures Answered(s, Next(p, s, m))
  {
    match m
    case ReporterMissing(_) => StatusAnswers(p, s, m);
    case ProjectionFailed(_, _, _, _) => StatusAnswers(p, s, m);
    case StillRunning => StatusAnswers(p, s, m);
    case Finished(result) => QueueTouches(s.desk, s.hold.job, result, s.hold.now);
    case _ => WaitAnswers(p, s, m);
  }

  lemma StatusAnswers(p: C.Policy, s: Sys, m: Move)
    requires Tidy(s.desk) && Can(s, m) && s.hold.Polling? && s.hold.job in s.desk.jobs
    requires m.ReporterMissing? || m.ProjectionFailed? || m.StillRunning?
    ensures Answered(s, Next(p, s, m))
  {
    var d, j, now := s.desk, s.hold.job, s.hold.now;
    match m
    case ReporterMissing(message) => StatusTouches(d, j, Launched, now + Delays.REPORTER_UNAVAILABLE_DELAY, message);
    case ProjectionFailed(target, _, due, message) => StatusTouches(d, j, target, due, message);
    case StillRunning => StatusTouches(d, j, Launched, now + Delays.STATUS_POLL_INTERVAL, "");
  }

  lemma WaitAnswers(p: C.Policy, s: Sys, m: Move)
    requires Tidy(s.desk) && Can(s, m) && s.hold.Polling? && s.hold.job in s.desk.jobs
    requires m.StatusLost? || m.WaitReported? || m.NoLongerWaiting?
    ensures Answered(s, Next(p, s, m))
  {
    var d, j, now := s.desk, s.hold.job, s.hold.now;
    match m
    case StatusLost(message) =>
      ResumeTouches(d, j, NoWait(j), JobOf(s).run, now + Delays.EXTERNAL_RECOVERY_WAKE, message, now);
    case WaitReported(wait, wake) => WaitTouches(d, j, JobOf(s).run, wait, wake);
    case NoLongerWaiting => ResumeTouches(d, j, NoWait(j), JobOf(s).run, now, "", now);
  }

  lemma FollowUps(p: C.Policy, s: Sys, m: Move)
    requires Tidy(s.desk) && Can(s, m) && (s.hold.Failing? || s.hold.Resuming?) && IsAnswer(m)
    ensures Answered(s, Next(p, s, m))
  {
    var d, j, now := s.desk, s.hold.job, s.hold.now;
    match m
    case QueueFailure(reason) => QueueTouches(d, j, ProjectionFailure(JobOf(s), reason), now);
    case ResumeAccepted => ResumeTouches(d, j, s.hold.wait, "", now, "", now);
    case ResumeFailed(due, message) => ResumeTouches(d, j, s.hold.wait, s.hold.wait.run, due, message, now);
  }

  lemma AnswerTouches(p: C.Policy, s: Sys, m: Move)
    requires Tidy(s.desk) && Can(s, m) && IsAnswer(m) && (s.hold.Reporting? || s.hold.job in s.desk.jobs)
    ensures Answered(s, Next(p, s, m))
  {
    match s.hold
    case Reporting(_, _, _) => ReportAnswers(p, s, m);
    case Launching(_, _) => LaunchAnswers(p, s, m);
    case Polling(_, _) => PollAnswers(p, s, m);
    case _ => FollowUps(p, s, m);
  }

  function NoWait(j: JobId): WaitRow {
    NewWait(j, "", ExternalWaits.ExternalWait(
                     ExternalWaits.OtherService, ExternalWaits.OtherPhase, ExternalWaits.OtherOperation,
                         ExternalWaits.OtherReason, 0, None))
  }

  // ---------- projection onto CI repair ----------

  /** What a move looks like to CI repair. */
  function CiOp(p: C.Policy, s: Sys, m: Move): P.Op
    requires Can(s, m)
  {
    match m
    case CiEvent(event, now) => P.Webhook(event, now)
    case Crash => P.Release
    case Ci(op) => op
    case EnterCi(entry) => P.Begin(entry, s.hold.now)
    case _ => P.OtherJobs(Next(p, s, m).desk.jobs)
  }

  lemma OtherJobsView(p: C.Policy, s: Sys, u: Sys)
    requires u.ci == s.ci && u.ciHold == s.ciHold && s.desk.jobs.Keys <= u.desk.jobs.Keys
    ensures P.Enabled(CiView(s), P.OtherJobs(u.desk.jobs))
            && P.Step(p, CiView(s), P.OtherJobs(u.desk.jobs)) == CiView(u)
  {}

  predicate JobKnown(s: Sys) {
    s.hold.Free? || s.hold.Reporting? || s.hold.job in s.desk.jobs
  }

  lemma KeepsJobs(p: C.Policy, s: Sys, m: Move)
    requires Can(s, m) && Tidy(s.desk) && JobKnown(s) && !m.CiEvent? && !m.Crash? && !m.Ci? && !m.EnterCi?
    ensures
      var u := Next(p, s, m);
      u.ci == s.ci && u.ciHold == s.ciHold && s.desk.jobs.Keys <= u.desk.jobs.Keys
  {
    if IsAnswer(m) {
      AnswerTouches(p, s, m);
    } else if m.Operator? {
      RequeueTouches(s.desk, m.job, m.run, m.key, m.now);
    }
  }

  /**
   Every move of the dispatcher is one step of the CI repair protocol, so whatever holds of all CI runs holds here.
   */
  lemma Projects(p: C.Policy, s: Sys, m: Move)
    requires Can(s, m) && Tidy(s.desk) && JobKnown(s) && (s.hold.Free? || s.ciHold.Idle?)
    ensures P.Enabled(CiView(s), CiOp(p, s, m)) && P.Step(p, CiView(s), CiOp(p, s, m)) == CiView(Next(p, s, m))
  {
    if m.CiEvent? || m.Crash? || m.Ci? || m.EnterCi? {
      CiMoves(p, s, m);
    } else {
      KeepsJobs(p, s, m);
      OtherJobsView(p, s, Next(p, s, m));
    }
  }

  lemma CiMoves(p: C.Policy, s: Sys, m: Move)
    requires Can(s, m) && (m.CiEvent? || m.Crash? || m.Ci? || m.EnterCi?) && (s.hold.Free? || s.ciHold.Idle?)
    ensures P.Enabled(CiView(s), CiOp(p, s, m)) && P.Step(p, CiView(s), CiOp(p, s, m)) == CiView(Next(p, s, m))
  {}

  // ---------- every move keeps the invariant ----------

  lemma ReportedIsDone(p: C.Policy, s: Sys, m: Move)
    requires Can(s, m) && (m.Posted? || m.PostFailed?) && s.hold.job in s.desk.terminals
    ensures Next(p, s, m).desk == s.desk || !Claimable(Next(p, s, m).desk, s.hold.job)
  {}

  lemma ProjectionHold(p: C.Policy, s: Sys, m: Move)
    requires HoldOk(s) && Can(s, m) && m.ProjectionFailed?
    ensures HoldOk(Next(p, s, m))
  {}

  lemma WaitHold(p: C.Policy, s: Sys, m: Move)
    requires HoldOk(s) && Can(s, m) && m.WaitReported?
    ensures HoldOk(Next(p, s, m))
  {}

  lemma ReconcileHold(p: C.Policy, s: Sys, m: Move)
    requires HoldOk(s) && Can(s, m) && m.NoLongerWaiting?
    ensures HoldOk(Next(p, s, m))
  {}

  lemma AnswerHold(p: C.Policy, s: Sys, m: Move)
    requires HoldOk(s) && Can(s, m) && IsAnswer(m)
    ensures HoldOk(Next(p, s, m))
  {
    if m.ProjectionFailed? {
      ProjectionHold(p, s, m);
    } else if m.WaitReported? {
      WaitHold(p, s, m);
    } else if m.NoLongerWaiting? {
      ReconcileHold(p, s, m);
    } else {
      assert Next(p, s, m).hold == Free;
    }
  }

  lemma AnswerKeeps(p: C.Policy, s: Sys, m: Move)
    requires Ok(s) && Can(s, m) && IsAnswer(m)
    ensures Ok(Next(p, s, m))
  {
    var u := Next(p, s, m);
    CiKeeps(p, s, m);
    AnswerTouches(p, s, m);
    AnswerHold(p, s, m);
    if u.desk != s.desk {
      var j := s.hold.job;
      if s.hold.Reporting? {
        assert j in s.desk.outbox.Keys && JobOk(s, j);
        ReportedIsDone(p, s, m);
      }
      OneJobIsCalm(s, u, j);
      CalmKeeps(s, u);
    } else {
      SameDesk(s, u);
    }
  }

  lemma SameDesk(s: Sys, u: Sys)
    requires Ok(s) && u.desk == s.desk && u.ci == s.ci && u.clock == s.clock
    ensures (forall j | j in u.desk.jobs :: JobOk(u, j)) && InOrder(u.desk) && OneInFlight(u.desk)
  {
    forall j | j in u.desk.jobs
      ensures JobOk(u, j)
    {
      assert JobOk(s, j);
    }
  }

  lemma CiKeeps(p: C.Policy, s: Sys, m: Move)
    requires Ok(s) && Can(s, m)
    ensures P.Ok(CiView(Next(p, s, m)))
  {
    Projects(p, s, m);
    P.StepKeeps(p, CiView(s), CiOp(p, s, m));
  }

  // ---------- events and claims ----------

  lemma RecordShape(d: Desk, m: Message, now: Time)
    ensures
      var u := Commit(d, Record(d, m, now));
      && u.terminals == d.terminals && u.outbox == d.outbox && u.waits == d.waits
      && ((u.jobs == d.jobs && u.lastJob == d.lastJob)
          || (&& m.candidate.Some? && u.lastJob == d.lastJob + 1
              && u.jobs == d.jobs[d.lastJob + 1 := NewJob(m.candidate.value, now)]))
  {}

  lemma NextIdIsNew(s: Sys)
    requires Ok(s)
    ensures s.desk.lastJob + 1 !in s.desk.jobs
  {
    forall j | j in s.desk.jobs
      ensures j <= s.desk.lastJob
    {
      assert JobOk(s, j);
    }
  }

  /** A recorded job comes last in the order and was never claimed. */
  lemma NewJobKeeps(s: Sys, u: Sys, job: Job)
    requires Ok(s) && u.ci == s.ci && u.clock >= s.clock && u.desk.terminals == s.desk.terminals
    requires u.desk.lastJob == s.desk.lastJob + 1 && u.desk.jobs == s.desk.jobs[s.desk.lastJob + 1 := job]
    requires job.created == u.clock && job.first.None? && job.status.PendingLaunch? && job.attempts == 0
             && job.run == ""
    ensures (forall j | j in u.desk.jobs :: JobOk(u, j)) && InOrder(u.desk) && OneInFlight(u.desk)
  {
    var n := s.desk.lastJob + 1;
    NextIdIsNew(s);
    assert n !in s.desk.terminals.Keys && n !in s.ci.tasks.Keys by {
      assert CiView(s).t.tasks.Keys <= CiView(s).t.jobs.Keys;
    }
    forall j | j in u.desk.jobs
      ensures JobOk(u, j)
    {
      assert j != n ==> JobOk(s, j);
    }
    forall i, j | i in u.desk.jobs && j in u.desk.jobs && Before(u.desk, i, j) && Touched(u.desk.jobs[j])
      ensures Touched(u.desk.jobs[i])
    {
      assert JobOk(s, j);
      assert i != n ==> Before(s.desk, i, j);
    }
    forall i, j | InFlight(u.desk, i) && InFlight(u.desk, j)
      ensures i == j
    {
      assert InFlight(s.desk, i) && InFlight(s.desk, j);
    }
  }

  lemma LaterClock(s: Sys, u: Sys)
    requires Ok(s) && u.ci == s.ci && u.clock >= s.clock && u.desk.terminals == s.desk.terminals
             && u.desk.jobs == s.desk.jobs
    requires u.desk.lastJob == s.desk.lastJob
    ensures (forall j | j in u.desk.jobs :: JobOk(u, j)) && InOrder(u.desk) && OneInFlight(u.desk)
  {
    forall j | j in u.desk.jobs
      ensures JobOk(u, j)
    {
      assert JobOk(s, j);
    }
    forall i, j | InFlight(u.desk, i) && InFlight(u.desk, j)
      ensures i == j
    {
      assert InFlight(s.desk, i) && InFlight(s.desk, j);
    }
    forall i, j | i in u.desk.jobs && j in u.desk.jobs && Before(u.desk, i, j) && Touched(u.desk.jobs[j])
      ensures Touched(u.desk.jobs[i])
    {
      assert Before(s.desk, i, j);
    }
  }

  lemma ArriveKeeps(p: C.Policy, s: Sys, m: Move)
    requires Ok(s) && Can(s, m) && m.Arrive?
    ensures Ok(Next(p, s, m))
  {
    CiKeeps(p, s, m);
    var u := Next(p, s, m);
    RecordShape(s.desk, m.signal, m.now);
    if u.desk.lastJob == s.desk.lastJob {
      LaterClock(s, u);
    } else {
      NewJobKeeps(s, u, NewJob(m.signal.candidate.value, m.now));
    }
    HeldSurvives(s, u);
  }

  /** Nothing that lands between the worker's transactions takes its claim away. */
  lemma HeldSurvives(s: Sys, u: Sys)
    requires Ok(s) && u.hold == s.hold && u.desk.terminals == s.desk.terminals && u.desk.outbox == s.desk.outbox
    requires forall j | j in s.desk.jobs ::
               j in u.desk.jobs && u.desk.jobs[j].status == s.desk.jobs[j].status
                   && u.desk.jobs[j].first == s.desk.jobs[j].first
    ensures HoldOk(u)
  {}

  lemma IssueEventKeeps(p: C.Policy, s: Sys, m: Move)
    requires Ok(s) && Can(s, m) && m.IssueEvent?
    ensures Ok(Next(p, s, m))
  {
    CiKeeps(p, s, m);
    var u := Next(p, s, m);
    WakeShape(s.desk, m.repository, m.issue, m.now);
    forall j | j in s.desk.jobs
      ensures CalmJob(s, u, j)
    {
      assert JobOk(s, j);
    }
    CalmKeeps(s, u);
    HeldSurvives(s, u);
  }

  lemma WakeShape(d: Desk, repository: string, issue: int, now: Time)
    ensures
      var u := RecordWake(d, repository, issue, now);
      && u.terminals == d.terminals && u.outbox == d.outbox && u.lastJob == d.lastJob && u.jobs.Keys == d.jobs.Keys
      && (forall j | j in d.jobs :: u.jobs[j] == d.jobs[j] || u.jobs[j] == d.jobs[j].(due := now))
  {}

  lemma OperatorKeeps(p: C.Policy, s: Sys, m: Move)
    requires Ok(s) && Can(s, m) && m.Operator?
    ensures Ok(Next(p, s, m))
  {
    CiKeeps(p, s, m);
    var u := Next(p, s, m);
    if Evidence(s.desk, m.job, m.run, m.key) {
      RequeueTouches(s.desk, m.job, m.run, m.key, m.now);
      assert JobOk(s, m.job);
      OneJobIsCalm(s, u, m.job);
      CalmKeeps(s, u);
    } else {
      SameDesk(s, u);
    }
  }

  lemma ParksCalmly(s: Sys, u: Sys)
    requires Ok(s) && J.OnlyParks(CiTablesOf(s), u.ci) && u.desk == s.desk.(jobs := u.ci.jobs) && u.clock == s.clock
    ensures Calm(s, u)
  {
    forall j | j in s.desk.jobs
      ensures CalmJob(s, u, j)
    {
      assert JobOk(s, j);
      assert u.ci.jobs[j] == CiTablesOf(s).jobs[j] || (j in s.ci.tasks && J.Rewritten(s.desk.jobs[j], u.ci.jobs[j]));
    }
  }

  lemma CiWorkKeeps(p: C.Policy, s: Sys, m: Move)
    requires Ok(s) && Can(s, m) && m.Ci?
    ensures Ok(Next(p, s, m))
  {
    CiKeeps(p, s, m);
    J.CiOnlyParks(p, CiView(s), m.op);
    ParksCalmly(s, Next(p, s, m));
    CalmKeeps(s, Next(p, s, m));
  }

  lemma CiEventKeeps(p: C.Policy, s: Sys, m: Move)
    requires Ok(s) && Can(s, m) && m.CiEvent?
    ensures Ok(Next(p, s, m))
  {
    CiKeeps(p, s, m);
    EventShape(p, s, m);
    SameTasks(s, Next(p, s, m));
  }

  lemma EventShape(p: C.Policy, s: Sys, m: Move)
    requires Can(s, m) && m.CiEvent?
    ensures
      var u := Next(p, s, m);
      && u.hold == s.hold && u.ciHold == s.ciHold && u.clock == s.clock
      && u.desk == s.desk && u.ci.tasks == s.ci.tasks
  {}

  lemma SameTasks(s: Sys, u: Sys)
    requires Ok(s) && u.desk == s.desk && u.ci.tasks == s.ci.tasks && u.clock == s.clock && u.hold == s.hold
    ensures (forall j | j in u.desk.jobs :: JobOk(u, j)) && InOrder(u.desk) && OneInFlight(u.desk) && HoldOk(u)
  {
    forall j | j in u.desk.jobs
      ensures JobOk(u, j)
    {
      assert JobOk(s, j);
    }
  }

  lemma ClaimKeeps(p: C.Policy, s: Sys, m: Move)
    requires Ok(s) && Can(s, m) && m.ClaimJob?
    ensures Ok(Next(p, s, m))
  {
    CiKeeps(p, s, m);
    var u := Next(p, s, m);
    if Unlaunched(s.desk.jobs[m.job].status) {
      HeadKeeps(s, u, m.job);
    } else {
      assert JobOk(s, m.job);
      SameDesk(s, u);
    }
  }

  /** Whatever was already in flight is the oldest claimable job. */
  lemma HeadIsInFlight(s: Sys, j: JobId, i: JobId)
    requires Ok(s) && IsFirst(ClaimableJobs(s.desk), JobRank(s.desk), j) && InFlight(s.desk, i)
    ensures i == j
  {
    assert i in ClaimableJobs(s.desk) && JobRank(s.desk)(j).Leq(JobRank(s.desk)(i));
    assert i != j ==> Before(s.desk, j, i) && InFlight(s.desk, j);
  }

  /** Every job that was never claimed is claimable, so it does not precede the oldest claimable one. */
  lemma HeadIsFirstUntouched(s: Sys, j: JobId, i: JobId)
    requires Ok(s) && IsFirst(ClaimableJobs(s.desk), JobRank(s.desk), j) && i in s.desk.jobs && Before(s.desk, i, j)
    ensures Touched(s.desk.jobs[i])
  {
    assert JobOk(s, i);
    assert i in ClaimableJobs(s.desk) ==> JobRank(s.desk)(j).Leq(JobRank(s.desk)(i));
  }

  lemma HeadKeeps(s: Sys, u: Sys, j: JobId)
    requires Ok(s) && IsFirst(ClaimableJobs(s.desk), JobRank(s.desk), j) && Unlaunched(s.desk.jobs[j].status)
    requires u.ci == s.ci && u.clock == s.clock && j in u.desk.jobs && Touched(u.desk.jobs[j])
    requires u.desk == s.desk.(jobs := s.desk.jobs[j := u.desk.jobs[j]])
    requires u.desk.jobs[j].created == s.desk.jobs[j].created && u.desk.jobs[j].status == s.desk.jobs[j].status
    ensures (forall i | i in u.desk.jobs :: JobOk(u, i)) && InOrder(u.desk) && OneInFlight(u.desk)
  {
    forall i | i in u.desk.jobs
      ensures JobOk(u, i)
    {
      assert JobOk(s, i);
    }
    forall i, k | i in u.desk.jobs && k in u.desk.jobs && Before(u.desk, i, k) && Touched(u.desk.jobs[k])
      ensures Touched(u.desk.jobs[i])
    {
      assert Before(s.desk, i, k);
      if k == j {
        HeadIsFirstUntouched(s, j, i);
      }
    }
    forall i, k | InFlight(u.desk, i) && InFlight(u.desk, k)
      ensures i == k
    {
      assert i != j ==> InFlight(s.desk, i);
      assert k != j ==> InFlight(s.desk, k);
      if i != j {
        HeadIsInFlight(s, j, i);
      }
      if k != j {
        HeadIsInFlight(s, j, k);
      }
    }
  }

  lemma EnterCiKeeps(p: C.Policy, s: Sys, m: Move)
    requires Ok(s) && Can(s, m) && m.EnterCi?
    ensures Ok(Next(p, s, m))
  {
    CiKeeps(p, s, m);
    var u := Next(p, s, m);
    EnterShape(p, s, m);
    forall i | i in s.desk.jobs
      ensures CalmJob(s, u, i)
    {
      assert JobOk(s, i);
    }
    CalmKeeps(s, u);
  }

  lemma EnterShape(p: C.Policy, s: Sys, m: Move)
    requires Can(s, m) && m.EnterCi? && s.hold.job in s.desk.jobs
    ensures
      var u := Next(p, s, m);
      var j := s.hold.job;
      && u.hold.Free? && u.ciHold == P.Idle && u.clock == s.clock && u.desk == s.desk.(jobs := u.desk.jobs)
      && j in u.desk.jobs && u.desk.jobs == s.desk.jobs[j := u.desk.jobs[j]] && u.ci.tasks.Keys <= s.ci.tasks.Keys + {j}
      && s.ci.tasks.Keys <= u.ci.tasks.Keys
      && (u.desk.jobs[j] == s.desk.jobs[j]
          || (&& (s.desk.jobs[j].status.Launched? || s.desk.jobs[j].status.CiWaiting?)
              && u.desk.jobs[j] == s.desk.jobs[j].(status := CiWaiting, due := m.entry.deadline, lastError := "")))
  {
    assert s.desk.jobs == s.desk.jobs[s.hold.job := s.desk.jobs[s.hold.job]];
  }

  lemma QuietKeeps(p: C.Policy, s: Sys, m: Move)
    requires Ok(s) && Can(s, m) && (m.Crash? || m.ClaimNotice?)
    ensures Ok(Next(p, s, m))
  {
    CiKeeps(p, s, m);
    SameDesk(s, Next(p, s, m));
  }

  lemma EventKeeps(p: C.Policy, s: Sys, m: Move)
    requires Ok(s) && Can(s, m)
             && (m.Arrive? || m.CiEvent? || m.IssueEvent? || m.Operator? || m.Crash? || m.ClaimNotice?)
    ensures Ok(Next(p, s, m))
  {
    match m
    case Arrive(_, _) => ArriveKeeps(p, s, m);
    case CiEvent(_, _) => CiEventKeeps(p, s, m);
    case IssueEvent(_, _, _) => IssueEventKeeps(p, s, m);
    case Operator(_, _, _, _) => OperatorKeeps(p, s, m);
    case Crash => QuietKeeps(p, s, m);
    case ClaimNotice(_, _) => QuietKeeps(p, s, m);
  }

  lemma MoveKeeps(p: C.Policy, s: Sys, m: Move)
    requires Ok(s) && Can(s, m)
    ensures Ok(Next(p, s, m))
  {
    if IsAnswer(m) {
      AnswerKeeps(p, s, m);
    } else if m.Ci? {
      CiWorkKeeps(p, s, m);
    } else if m.ClaimJob? {
      ClaimKeeps(p, s, m);
    } else if m.EnterCi? {
      EnterCiKeeps(p, s, m);
    } else {
      EventKeeps(p, s, m);
    }
  }

  lemma {:induction false} RunKeeps(p: C.Policy, s: Sys, run: seq<Move>)
    requires Ok(s) && Legal(p, s, run)
    ensures Ok(Exec(p, s, run))
    decreases |run|
  {
    if run == [] {
    } else {
      MoveKeeps(p, s, run[0]);
      RunKeeps(p, Next(p, s, run[0]), run[1..]);
    }
  }

  // ---------- the theorems ----------

  /**
   At any moment of any run at most one job is in flight (launched, waiting, being retried or awaiting its result),
   every claimable job but the oldest is exactly as it was recorded, and the jobs ever claimed for launch are the oldest
   ones.
   */
  lemma OneJobInFlight(p: C.Policy, clock: Time, run: seq<Move>)
    requires Legal(p, Start(clock), run)
    ensures
      var d := Exec(p, Start(clock), run).desk;
      && (forall i, j | i in d.jobs && j in d.jobs && (d.jobs[i].status.Launched? || d.jobs[i].status.ExternalWaiting?)
                        && (d.jobs[j].status.Launched? || d.jobs[j].status.ExternalWaiting?) :: i == j)
      && (forall i, j | i in ClaimableJobs(d) && j in ClaimableJobs(d) && Before(d, i, j) ::
            d.jobs[j].status.PendingLaunch? && d.jobs[j].attempts == 0 && d.jobs[j].first.None? && d.jobs[j].run == "")
      && (forall i, j | i in d.jobs && j in d.jobs && Before(d, i, j) && d.jobs[j].attempts > 0 ::
         d.jobs[i].first.Some?)
  {
    StartOk(clock);
    RunKeeps(p, Start(clock), run);
    var s := Exec(p, Start(clock), run);
    FlightFacts(s);
  }

  lemma StartOk(clock: Time)
    ensures Ok(Start(clock))
  {}

  lemma FlightFacts(s: Sys)
    requires Ok(s)
    ensures
      var d := s.desk;
      && (forall i, j | i in d.jobs && j in d.jobs && (d.jobs[i].status.Launched? || d.jobs[i].status.ExternalWaiting?)
                        && (d.jobs[j].status.Launched? || d.jobs[j].status.ExternalWaiting?) :: i == j)
      && (forall i, j | i in ClaimableJobs(d) && j in ClaimableJobs(d) && Before(d, i, j) ::
            d.jobs[j].status.PendingLaunch? && d.jobs[j].attempts == 0 && d.jobs[j].first.None? && d.jobs[j].run == "")
      && (forall i, j | i in d.jobs && j in d.jobs && Before(d, i, j) && d.jobs[j].attempts > 0 ::
         d.jobs[i].first.Some?)
  {
    var d := s.desk;
    assert forall j | j in d.jobs :: JobOk(s, j);
    forall i, j | i in d.jobs && j in d.jobs && (d.jobs[i].status.Launched? || d.jobs[i].status.ExternalWaiting?)
                  && (d.jobs[j].status.Launched? || d.jobs[j].status.ExternalWaiting?)
      ensures i == j
    {
      assert InFlight(d, i) && InFlight(d, j);
    }
    forall i, j | i in ClaimableJobs(d) && j in ClaimableJobs(d) && Before(d, i, j)
      ensures !Touched(d.jobs[j])
    {
      if Touched(d.jobs[j]) {
        assert InFlight(d, i) && InFlight(d, j);
      }
    }
  }

  /** The CI repair run inside a dispatcher run. */
  ghost function CiRun(p: C.Policy, s: Sys, run: seq<Move>): seq<T.Turn>
    requires Legal(p, s, run)
    decreases |run|
  {
    if run == [] then [] else [T.Turn(p, CiOp(p, s, run[0]))] + CiRun(p, Next(p, s, run[0]), run[1..])
  }

  /**
   Every dispatcher run carries a legal run of CI repair, so the theorems about CI repair hold inside the whole
   dispatcher.
   */
  lemma {:induction false} RunProjects(p: C.Policy, s: Sys, run: seq<Move>)
    requires Ok(s) && Legal(p, s, run)
    ensures T.Legal(CiView(s), CiRun(p, s, run)) && T.Exec(CiView(s), CiRun(p, s, run)) == CiView(Exec(p, s, run))
    decreases |run|
  {
    if run == [] {
    } else {
      Projects(p, s, run[0]);
      MoveKeeps(p, s, run[0]);
      RunProjects(p, Next(p, s, run[0]), run[1..]);
      var ci := CiRun(p, s, run);
      assert ci[0] == T.Turn(p, CiOp(p, s, run[0])) && ci[1..] == CiRun(p, Next(p, s, run[0]), run[1..]);
    }
  }

  /** So, after any run of the whole dispatcher, the attempts and the escalation of every CI task match its state. */
  lemma CiAccountingHolds(p: C.Policy, clock: Time, run: seq<Move>, j: JobId)
    requires Legal(p, Start(clock), run) && j in Exec(p, Start(clock), run).ci.tasks
    ensures
      var t := CiTablesOf(Exec(p, Start(clock), run));
      j in t.jobs && T.AttemptsMatch(t.tasks[j], C.Book(t, j)) && P.EscalationMatches(t, j)
  {
    StartOk(clock);
    RunKeeps(p, Start(clock), run);
    var t := CiTablesOf(Exec(p, Start(clock), run));
    assert j in t.tasks.Keys && P.TaskOk(t, j);
    T.ShapesMatch(t, j);
  }
}
