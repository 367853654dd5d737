/** Terminal results and their notifications: one for one, immutable, and in step with the job. */
module DispatchOutbox {
  import opened Basics
  import opened Jobs
  import opened DispatchTables
  import opened DispatchProtocol
  import C = CiTables
  import P = CiProtocol
  import J = CiJobs
  import O = DispatchOrder

  // ---------- the invariant ----------

  /** A stored result has exactly one notice, rendered from it, and its job is out of the launch order. */
  predicate Paired(d: Desk, j: JobId)
    requires j in d.terminals
  {
    && j in d.outbox && j in d.jobs && !Claimable(d, j) && d.terminals[j].run == d.jobs[j].run
    && d.outbox[j].Content() == (d.terminals[j].version, Body(d.jobs[j].key, d.terminals[j]),
       ReportKey(d.jobs[j].key, d.terminals[j].version))
    && (d.outbox[j].comment.Some? ==> d.outbox[j].state.Sent?)
    && (d.outbox[j].state.Blocked? ==> d.outbox[j].lastError != "")
  }

  /** The final status a delivered report stands for. */
  predicate Reflects(status: Status, outcome: Outcome) {
    && (status.Completed? <==> outcome.NoChangeRequired? || outcome.ReadyForReview?)
    && (status.TimedOut? <==> outcome.RunTimedOut?) && (status.Stopped? <==> outcome.RunStopped?)
    && (status.Cancelled? <==> outcome.RunCancelled?)
    && (status.Failed? <==> outcome.RunFailed? || outcome.UnknownOutcome?)
  }

  /** The notice's state and the job's status say the same. */
  predicate InStep(d: Desk, j: JobId)
    requires j in d.terminals && j in d.outbox && j in d.jobs
  {
    match d.outbox[j].state
    case Pending => d.jobs[j].status.ReportPending?
    case Retry => d.jobs[j].status.ReportRetry?
    case Blocked => d.jobs[j].status.ReportBlocked? && d.jobs[j].lastError == d.outbox[j].lastError
    case Sent => Reflects(d.jobs[j].status, d.terminals[j].outcome)
  }

  /** A job that never entered CI is in step; one that did may be moved on by CI. */
  predicate NoteOk(s: Sys, j: JobId)
    requires j in s.desk.terminals
  {
    Paired(s.desk, j) && (j !in s.ci.tasks ==> InStep(s.desk, j))
  }

  ghost predicate Ok(s: Sys) {
    O.Ok(s) && forall j | j in s.desk.terminals :: NoteOk(s, j)
  }

  // ---------- one job at a time ----------

  lemma OthersKeep(s: Sys, u: Sys, j: JobId)
    requires Ok(s) && O.Tidy(s.desk) && O.OneJob(s.desk, u.desk, j) && u.ci.tasks.Keys == s.ci.tasks.Keys
    requires j in u.desk.terminals ==> NoteOk(u, j)
    ensures forall i | i in u.desk.terminals :: NoteOk(u, i)
  {
    forall i | i in u.desk.terminals && i != j
      ensures NoteOk(u, i)
    {
      assert i in s.desk.terminals && NoteOk(s, i);
    }
  }

  lemma QueuedIsOk(d: Desk, j: JobId, r: TerminalResult, now: Time)
    requires j !in d.terminals && j !in d.outbox && QueueResult(d, j, r, now).Some?
    ensures
      var u := QueueResult(d, j, r, now).value;
      j in u.terminals && Paired(u, j) && InStep(u, j)
  {}

  lemma ReportedIsOk(d: Desk, j: JobId, comment: int, attempts: nat, retry: bool, message: string, now: Time)
    requires j in d.terminals && Paired(d, j) && message != ""
    ensures
      var r := MarkReportDelivered(d, j, comment);
      r.Some? ==> j in r.value.terminals && Paired(r.value, j) && InStep(r.value, j)
    ensures
      var r := MarkReportFailure(d, j, attempts, retry, message, now);
      r.Some? ==> j in r.value.terminals && Paired(r.value, j) && InStep(r.value, j)
  {}

  /** The moves that store a terminal result. */
  function Queued(s: Sys, m: Move): Option<TerminalResult>
    requires Can(s, m)
  {
    match m
    case LaunchFailed(transient, message) => if transient then None else Some(LaunchFailure(JobOf(s), message))
    case CloseWindow(reason) => Some(LaunchFailure(JobOf(s), reason))
    case QueueFailure(reason) => Some(ProjectionFailure(JobOf(s), reason))
    case Finished(result) => Some(result)
    case _ => None
  }

  lemma QueuesResult(p: C.Policy, s: Sys, m: Move)
    requires Can(s, m) && Queued(s, m).Some?
    ensures Next(p, s, m) == Answer(s, QueueResult(s.desk, s.hold.job, Queued(s, m).value, s.hold.now))
  {}

  /** No other answer adds a result. */
  lemma OtherAnswers(p: C.Policy, s: Sys, m: Move)
    requires Can(s, m) && O.IsAnswer(m) && Queued(s, m).None?
    ensures Next(p, s, m).desk.terminals == s.desk.terminals
  {
    if m.WaitReported? || m.ResumeAccepted? || m.ResumeFailed? || m.NoLongerWaiting? || m.StatusLost? {
      WaitAnswers(p, s, m);
    }
  }

  lemma WaitAnswers(p: C.Policy, s: Sys, m: Move)
    requires Can(s, m) && (m.WaitReported? || m.ResumeAccepted? || m.ResumeFailed? || m.NoLongerWaiting?
             || m.StatusLost?)
    ensures Next(p, s, m).desk.terminals == s.desk.terminals
  {}

  lemma ReportNotes(p: C.Policy, s: Sys, m: Move)
    requires Can(s, m) && O.IsAnswer(m) && s.hold.Reporting? && s.hold.job in s.desk.terminals && NoteOk(s, s.hold.job)
    ensures
      var u := Next(p, s, m);
      u.desk == s.desk || (s.hold.job in u.desk.terminals && Paired(u.desk, s.hold.job) && InStep(u.desk, s.hold.job))
  {
    var d, j, now := s.desk, s.hold.job, s.hold.now;
    match m
    case Posted(comment) => ReportedIsOk(d, j, comment, 0, false, "none", now);
    case PostFailed(transient, message) =>
      ReportedIsOk(d, j, 0, s.hold.attempts, Retries(transient, s.hold.attempts), message, now);
  }

  lemma ClaimNotes(p: C.Policy, s: Sys, m: Move)
    requires Ok(s) && Can(s, m) && O.IsAnswer(m) && !s.hold.Reporting?
    ensures
      var u := Next(p, s, m);
      var j := s.hold.job;
      j in u.desk.terminals ==> Paired(u.desk, j) && InStep(u.desk, j)
  {
    var j := s.hold.job;
    assert j !in s.desk.terminals by {
      assert j in s.desk.terminals ==> NoteOk(s, j);
    }
    if Queued(s, m).Some? {
      QueuesResult(p, s, m);
      if QueueResult(s.desk, j, Queued(s, m).value, s.hold.now).Some? {
        QueuedIsOk(s.desk, j, Queued(s, m).value, s.hold.now);
      }
    } else {
      OtherAnswers(p, s, m);
    }
  }

  lemma AnswerKeeps(p: C.Policy, s: Sys, m: Move)
    requires Ok(s) && Can(s, m) && O.IsAnswer(m)
    ensures Ok(Next(p, s, m))
  {
    var u := Next(p, s, m);
    O.MoveKeeps(p, s, m);
    O.AnswerTouches(p, s, m);
    if u.desk == s.desk {
      SameDesk(s, u);
    } else {
      if s.hold.Reporting? {
        assert s.hold.job in s.desk.outbox.Keys;
        ReportNotes(p, s, m);
      } else {
        ClaimNotes(p, s, m);
      }
      OthersKeep(s, u, s.hold.job);
    }
  }

  lemma SameDesk(s: Sys, u: Sys)
    requires Ok(s) && u.desk.terminals == s.desk.terminals && u.desk.outbox == s.desk.outbox
             && u.ci.tasks.Keys == s.ci.tasks.Keys
    requires forall j | j in s.desk.jobs ::
             j in u.desk.jobs && u.desk.jobs[j] == s.desk.jobs[j].(due := u.desk.jobs[j].due)
    ensures forall i | i in u.desk.terminals :: NoteOk(u, i)
  {
    forall i | i in u.desk.terminals
      ensures NoteOk(u, i)
    {
      assert NoteOk(s, i);
    }
  }

  lemma RequeuedIsOk(d: Desk, j: JobId, run: string, key: ReportKey, now: Time)
    requires j in d.terminals && Paired(d, j) && Requeue(d, j, run, key, now).Some?
    ensures
      var u := Requeue(d, j, run, key, now).value;
      j in u.terminals && Paired(u, j) && InStep(u, j)
  {}

  lemma OperatorKeeps(p: C.Policy, s: Sys, m: Move)
    requires Ok(s) && Can(s, m) && m.Operator?
    ensures Ok(Next(p, s, m))
  {
    O.MoveKeeps(p, s, m);
    var u := Next(p, s, m);
    if Evidence(s.desk, m.job, m.run, m.key) {
      O.RequeueTouches(s.desk, m.job, m.run, m.key, m.now);
      assert NoteOk(s, m.job);
      RequeuedIsOk(s.desk, m.job, m.run, m.key, m.now);
      OthersKeep(s, u, m.job);
    } else {
      SameDesk(s, u);
    }
  }

  /** CI repair only moves jobs that entered CI, and never into the launch order. */
  lemma CiKeeps(p: C.Policy, s: Sys, m: Move)
    requires Ok(s) && Can(s, m) && (m.Ci? || m.CiEvent?)
    ensures Ok(Next(p, s, m))
  {
    O.MoveKeeps(p, s, m);
    var u := Next(p, s, m);
    var op := if m.Ci? then m.op else P.Webhook(m.event, m.now);
    J.CiOnlyParks(p, CiView(s), op);
    forall i | i in u.desk.terminals
      ensures NoteOk(u, i)
    {
      assert NoteOk(s, i);
      CiKeepsNote(s, u, i);
    }
  }

  lemma CiKeepsNote(s: Sys, u: Sys, i: JobId)
    requires i in s.desk.terminals && NoteOk(s, i) && J.OnlyParks(CiTablesOf(s), u.ci)
             && u.desk == s.desk.(jobs := u.ci.jobs)
    ensures NoteOk(u, i)
  {}

  lemma EnterKeeps(p: C.Policy, s: Sys, m: Move)
    requires Ok(s) && Can(s, m) && m.EnterCi?
    ensures Ok(Next(p, s, m))
  {
    O.MoveKeeps(p, s, m);
    var u := Next(p, s, m);
    O.EnterShape(p, s, m);
    var j := s.hold.job;
    assert j in s.desk.terminals ==> NoteOk(s, j);
    forall i | i in u.desk.terminals
      ensures NoteOk(u, i)
    {
      assert NoteOk(s, i);
    }
  }

  lemma ArriveKeeps(p: C.Policy, s: Sys, m: Move)
    requires Ok(s) && Can(s, m) && m.Arrive?
    ensures Ok(Next(p, s, m))
  {
    O.MoveKeeps(p, s, m);
    O.RecordShape(s.desk, m.signal, m.now);
    O.NextIdIsNew(s);
    SameDesk(s, Next(p, s, m));
  }

  lemma ClaimKeeps(p: C.Policy, s: Sys, m: Move)
    requires Ok(s) && Can(s, m) && m.ClaimJob?
    ensures Ok(Next(p, s, m))
  {
    O.MoveKeeps(p, s, m);
    var u := Next(p, s, m);
    forall i | i in u.desk.terminals
      ensures NoteOk(u, i)
    {
      assert NoteOk(s, i);
    }
  }

  lemma IssueKeeps(p: C.Policy, s: Sys, m: Move)
    requires Ok(s) && Can(s, m) && m.IssueEvent?
    ensures Ok(Next(p, s, m))
  {
    O.MoveKeeps(p, s, m);
    O.WakeShape(s.desk, m.repository, m.issue, m.now);
    SameDesk(s, Next(p, s, m));
  }

  lemma QuietKeeps(p: C.Policy, s: Sys, m: Move)
    requires Ok(s) && Can(s, m) && (m.Crash? || m.ClaimNotice?)
    ensures Ok(Next(p, s, m))
  {
    O.MoveKeeps(p, s, m);
    SameDesk(s, Next(p, s, m));
  }

  lemma MoveKeeps(p: C.Policy, s: Sys, m: Move)
    requires Ok(s) && Can(s, m)
    ensures Ok(Next(p, s, m))
  {
    if O.IsAnswer(m) {
      AnswerKeeps(p, s, m);
    } else if m.Ci? || m.CiEvent? {
      CiKeeps(p, s, m);
    } else if m.Arrive? {
      ArriveKeeps(p, s, m);
    } else if m.IssueEvent? {
      IssueKeeps(p, s, m);
    } else if m.Operator? {
      OperatorKeeps(p, s, m);
    } else if m.ClaimJob? {
      ClaimKeeps(p, s, m);
    } else if m.EnterCi? {
      EnterKeeps(p, s, m);
    } else {
      QuietKeeps(p, s, m);
    }
  }

  lemma {:induction false} RunKeeps(p: C.Policy, s: Sys, run: seq<Move>)
    requires Ok(s) && Legal(p, s, run)
    ensures Ok(Exec(p, s, run))
    decreases |run|
  {
    if run == [] {
    } else {
      MoveKeeps(p, s, run[0]);
      RunKeeps(p, Next(p, s, run[0]), run[1..]);
    }
  }

  // ---------- the theorems ----------

  /**
   After any run, a job has a terminal result exactly when it has one notice, rendered from it under the job's own key;
   and unless the job entered CI, the notice's state matches the job's status.
   */
  lemma OutboxMatches(p: C.Policy, clock: Time, run: seq<Move>, j: JobId)
    requires Legal(p, Start(clock), run)
    ensures
      var s := Exec(p, Start(clock), run);
      && (j in s.desk.terminals <==> j in s.desk.outbox)
      && (j in s.desk.terminals ==> Paired(s.desk, j) && (j !in s.ci.tasks ==> InStep(s.desk, j)))
  {
    RunKeeps(p, Start(clock), run);
    var s := Exec(p, Start(clock), run);
    assert j in s.desk.outbox.Keys <==> j in s.desk.terminals.Keys;
    assert j in s.desk.terminals ==> NoteOk(s, j);
  }

  lemma OtherKeepsNotes(p: C.Policy, s: Sys, m: Move, j: JobId)
    requires Can(s, m) && !O.IsAnswer(m) && O.Tidy(s.desk) && j in s.desk.terminals && j in s.desk.outbox
    ensures O.NotesKept(s.desk, Next(p, s, m).desk, j)
  {
    if m.Arrive? {
      O.RecordShape(s.desk, m.signal, m.now);
    } else if m.IssueEvent? {
      O.WakeShape(s.desk, m.repository, m.issue, m.now);
    } else if m.Operator? {
      O.RequeueTouches(s.desk, m.job, m.run, m.key, m.now);
    }
  }

  lemma AnswerKeepsNotes(s: Sys, u: Sys, j: JobId)
    requires !s.hold.Free? && O.Answered(s, u) && O.Tidy(s.desk) && j in s.desk.terminals && j in s.desk.outbox
    ensures O.NotesKept(s.desk, u.desk, j)
  {}

  lemma StepKeepsNotes(p: C.Policy, s: Sys, m: Move, j: JobId)
    requires O.Tidy(s.desk) && O.JobKnown(s) && Can(s, m) && j in s.desk.terminals && j in s.desk.outbox
    ensures O.NotesKept(s.desk, Next(p, s, m).desk, j)
  {
    if O.IsAnswer(m) {
      O.AnswerTouches(p, s, m);
      AnswerKeepsNotes(s, Next(p, s, m), j);
    } else {
      OtherKeepsNotes(p, s, m, j);
    }
  }

  /** Once queued, a terminal result and the version, body and idempotency key of its notice never change. */
  lemma {:induction false} ResultsAreImmutable(p: C.Policy, s: Sys, run: seq<Move>, j: JobId)
    requires Ok(s) && Legal(p, s, run) && j in s.desk.terminals
    ensures
      var u := Exec(p, s, run);
      && j in u.desk.terminals && u.desk.terminals[j] == s.desk.terminals[j]
      && j in s.desk.outbox && j in u.desk.outbox && u.desk.outbox[j].Content() == s.desk.outbox[j].Content()
    decreases |run|
  {
    assert j in s.desk.outbox.Keys;
    if run == [] {
    } else {
      StepKeepsNotes(p, s, run[0], j);
      MoveKeeps(p, s, run[0]);
      ResultsAreImmutable(p, Next(p, s, run[0]), run[1..], j);
    }
  }

  /** Queueing a different result for a job that has one fails, and queueing the same one again stores nothing new. */
  lemma ReplayIsChecked(d: Desk, j: JobId, r: TerminalResult, now: Time)
    requires j in d.terminals && Paired(d, j)
    ensures r != d.terminals[j] ==> QueueResult(d, j, r, now).None?
    ensures QueueResult(d, j, r, now).Some? ==>
              QueueResult(d, j, r, now).value == d.(jobs := QueueResult(d, j, r, now).value.jobs)
  {
    if QueueResult(d, j, r, now).Some? {
      assert d.terminals[j := r] == d.terminals && d.outbox[j := d.outbox[j]] == d.outbox;
    }
  }

  /** The operator's command takes a blocked report, given its own identifiers, if and only if this holds. */
  predicate Requeueable(d: Desk, j: JobId)
    requires j in d.terminals && j in d.outbox && j in d.jobs
  {
    d.jobs[j].run != "" && d.jobs[j].status.ReportBlocked? && d.jobs[j].lastError == d.outbox[j].lastError
  }

  /** What requeueing keeps. */
  predicate Requeues(d: Desk, u: Desk, j: JobId, now: Time)
    requires j in d.outbox
  {
    && j in u.outbox && j in DueNotices(u, now) && u.outbox[j].Content() == d.outbox[j].Content()
    && u.outbox[j].attempts == d.outbox[j].attempts && u.outbox[j].lastError == d.outbox[j].lastError
  }

  lemma BlockedIsRequeued(d: Desk, j: JobId, now: Time)
    requires j in d.terminals && Paired(d, j) && d.outbox[j].state.Blocked?
    ensures
      var r := Requeue(d, j, d.jobs[j].run, d.outbox[j].key, now);
      (r.Some? <==> Requeueable(d, j)) && (r.Some? ==> Requeues(d, r.value, j, now))
  {}

  /**
   Given its own identifiers, a blocked report passes every check of the blocked-report command if and only if its job
   has a broker run and still shows the block; requeueing it keeps its body, key, attempts and error.
   */
  lemma RequeueIff(p: C.Policy, clock: Time, run: seq<Move>, j: JobId, now: Time)
    requires Legal(p, Start(clock), run)
    requires
      var d := Exec(p, Start(clock), run).desk;
      j in d.outbox && d.outbox[j].state.Blocked?
    ensures
      var d := Exec(p, Start(clock), run).desk;
      && j in d.terminals && j in d.jobs
      && var r := Requeue(d, j, d.jobs[j].run, d.outbox[j].key, now);
      (r.Some? <==> Requeueable(d, j)) && (r.Some? ==> Requeues(d, r.value, j, now))
  {
    OutboxMatches(p, clock, run, j);
    BlockedIsRequeued(Exec(p, Start(clock), run).desk, j, now);
  }

  // ---------- jobs that enter CI while awaiting a report ----------

  /**
   Entering CI moves the job to `ci_waiting` exactly when it was `launched`; a `report_pending` job stays where it was.
   */
  lemma EnteringMirrors(p: C.Policy, s: Sys, m: Move)
    requires Ok(s) && Can(s, m) && m.EnterCi? && C.BeginWait(CiTablesOf(s), m.entry, s.hold.now).Some?
    ensures
      var j := s.hold.job;
      && j in s.desk.jobs && j in Next(p, s, m).desk.jobs && j in Next(p, s, m).ci.tasks
      && (Next(p, s, m).desk.jobs[j].status.CiWaiting? <==> s.desk.jobs[j].status.Launched?)
      && (s.desk.jobs[j].status.ReportPending? ==> Next(p, s, m).desk == s.desk && Claimable(s.desk, j))
  {}

  /** The job in flight is the one the next claim takes. */
  lemma InFlightIsHead(s: Sys, j: JobId)
    requires O.Ok(s) && O.InFlight(s.desk, j)
    ensures IsFirst(ClaimableJobs(s.desk), JobRank(s.desk), j)
  {
    forall i | i in ClaimableJobs(s.desk)
      ensures JobRank(s.desk)(j).Leq(JobRank(s.desk)(i))
    {
      assert O.Before(s.desk, i, j) ==> O.InFlight(s.desk, i);
    }
  }

  /** Every job that enters CI is `launched` at that moment. */
  ghost predicate EntersLaunched(p: C.Policy, s: Sys, run: seq<Move>)
    decreases |run|
  {
    run == [] || ((Can(s, run[0]) && run[0].EnterCi? ==> StatusOf(s, s.hold.job).Launched?)
        && EntersLaunched(p, Next(p, s, run[0]), run[1..]))
  }

  /** A job in CI is out of the launch order and has no report of its own. */
  predicate Separate(s: Sys) {
    forall j | j in s.ci.tasks :: !Claimable(s.desk, j) && j !in s.desk.terminals
  }

  /** The status of every job in CI mirrors the state of its task. */
  ghost predicate Mirrored(s: Sys) {
    forall j :: J.MirrorsJob(CiTablesOf(s), j, true)
  }

  lemma AnswerSeparates(p: C.Policy, s: Sys, m: Move)
    requires Ok(s) && Separate(s) && Can(s, m) && O.IsAnswer(m)
    ensures Separate(Next(p, s, m))
  {
    O.AnswerTouches(p, s, m);
    var u := Next(p, s, m);
    if s.hold.Reporting? {
      assert s.hold.job in s.desk.outbox.Keys;
    }
    assert s.hold.job !in s.ci.tasks;
  }

  lemma StepSeparates(p: C.Policy, s: Sys, m: Move)
    requires Ok(s) && Separate(s) && Can(s, m) && (m.EnterCi? ==> StatusOf(s, s.hold.job).Launched?)
    ensures Separate(Next(p, s, m))
  {
    var u := Next(p, s, m);
    if O.IsAnswer(m) {
      AnswerSeparates(p, s, m);
    } else if m.Ci? || m.CiEvent? {
      J.CiOnlyParks(p, CiView(s), if m.Ci? then m.op else P.Webhook(m.event, m.now));
      CiSeparates(s, u);
    } else if m.EnterCi? {
      O.EnterShape(p, s, m);
      EnterSeparates(p, s, m);
    } else {
      OtherSeparates(p, s, m);
    }
  }

  lemma CiSeparates(s: Sys, u: Sys)
    requires Separate(s) && J.OnlyParks(CiTablesOf(s), u.ci) && u.desk == s.desk.(jobs := u.ci.jobs)
    ensures Separate(u)
  {}

  lemma EnterSeparates(p: C.Policy, s: Sys, m: Move)
    requires Ok(s) && Separate(s) && Can(s, m) && m.EnterCi? && StatusOf(s, s.hold.job).Launched?
    ensures Separate(Next(p, s, m))
  {
    var j := s.hold.job;
    assert j in s.desk.terminals ==> NoteOk(s, j);
    O.EnterShape(p, s, m);
    if C.BeginWait(CiTablesOf(s), m.entry, s.hold.now).Some? {
      EnteringMirrors(p, s, m);
    }
  }

  lemma OtherSeparates(p: C.Policy, s: Sys, m: Move)
    requires Ok(s) && Separate(s) && Can(s, m)
    requires m.Arrive? || m.IssueEvent? || m.Operator? || m.Crash? || m.ClaimNotice? || m.ClaimJob?
    ensures Separate(Next(p, s, m))
  {
    if m.Arrive? {
      O.RecordShape(s.desk, m.signal, m.now);
      O.NextIdIsNew(s);
      assert s.ci.tasks.Keys <= s.desk.jobs.Keys by {
        assert CiView(s).t.tasks.Keys <= CiView(s).t.jobs.Keys;
      }
    } else if m.IssueEvent? {
      O.WakeShape(s.desk, m.repository, m.issue, m.now);
    }
  }

  lemma AnswerMirrors(p: C.Policy, s: Sys, m: Move, j: JobId)
    requires Ok(s) && Separate(s) && Can(s, m) && O.IsAnswer(m) && J.MirrorsJob(CiTablesOf(s), j, true)
    ensures J.MirrorsJob(CiTablesOf(Next(p, s, m)), j, true)
  {
    O.AnswerTouches(p, s, m);
    assert s.hold.Reporting? ==> s.hold.job in s.desk.outbox.Keys;
  }

  lemma ArriveMirrors(p: C.Policy, s: Sys, m: Move, j: JobId)
    requires Ok(s) && Can(s, m) && m.Arrive? && J.MirrorsJob(CiTablesOf(s), j, true)
    ensures J.MirrorsJob(CiTablesOf(Next(p, s, m)), j, true)
  {
    O.RecordShape(s.desk, m.signal, m.now);
    O.NextIdIsNew(s);
  }

  lemma OtherMirrors(p: C.Policy, s: Sys, m: Move, j: JobId)
    requires Ok(s) && Separate(s) && Can(s, m) && J.MirrorsJob(CiTablesOf(s), j, true)
    requires m.IssueEvent? || m.Operator? || m.Crash? || m.ClaimNotice? || m.ClaimJob?
    ensures J.MirrorsJob(CiTablesOf(Next(p, s, m)), j, true)
  {
    if m.IssueEvent? {
      O.WakeShape(s.desk, m.repository, m.issue, m.now);
    }
  }

  lemma EnterMirrors(p: C.Policy, s: Sys, m: Move, j: JobId)
    requires Ok(s) && Can(s, m) && m.EnterCi? && StatusOf(s, s.hold.job).Launched? && s.hold.job !in s.ci.tasks
    requires J.MirrorsJob(CiTablesOf(s), j, true)
    ensures J.MirrorsJob(CiTablesOf(Next(p, s, m)), j, true)
  {
    O.EnterShape(p, s, m);
    if C.BeginWait(CiTablesOf(s), m.entry, s.hold.now).Some? {
      EnteringMirrors(p, s, m);
    }
  }

  lemma StepMirrors(p: C.Policy, s: Sys, m: Move, j: JobId)
    requires Ok(s) && Separate(s) && Can(s, m) && (m.EnterCi? ==> StatusOf(s, s.hold.job).Launched?)
    requires J.MirrorsJob(CiTablesOf(s), j, true)
    ensures J.MirrorsJob(CiTablesOf(Next(p, s, m)), j, true)
  {
    if m.Ci? || m.CiEvent? {
      J.CiMirrors(p, CiView(s), if m.Ci? then m.op else P.Webhook(m.event, m.now), j, true);
      O.CiMoves(p, s, m);
    } else if m.EnterCi? {
      EnterMirrors(p, s, m, j);
    } else if O.IsAnswer(m) {
      AnswerMirrors(p, s, m, j);
    } else if m.Arrive? {
      ArriveMirrors(p, s, m, j);
    } else {
      OtherMirrors(p, s, m, j);
    }
  }

  lemma {:induction false} RunSeparates(p: C.Policy, s: Sys, run: seq<Move>)
    requires Ok(s) && Separate(s) && Mirrored(s) && Legal(p, s, run) && EntersLaunched(p, s, run)
    ensures Ok(Exec(p, s, run)) && Separate(Exec(p, s, run)) && Mirrored(Exec(p, s, run))
    decreases |run|
  {
    if run == [] {
    } else {
      StepSeparates(p, s, run[0]);
      forall j
        ensures J.MirrorsJob(CiTablesOf(Next(p, s, run[0])), j, true)
      {
        StepMirrors(p, s, run[0], j);
      }
      MoveKeeps(p, s, run[0]);
      RunSeparates(p, Next(p, s, run[0]), run[1..]);
    }
  }

  /**
   If jobs enter CI only when `launched`, every notice matches its job's status, and no job has both a report and a CI
   task.
   */
  lemma OutboxMatchesWhenLaunched(p: C.Policy, clock: Time, run: seq<Move>, j: JobId)
    requires Legal(p, Start(clock), run) && EntersLaunched(p, Start(clock), run)
             && j in Exec(p, Start(clock), run).desk.terminals
    ensures
      var s := Exec(p, Start(clock), run);
      Paired(s.desk, j) && InStep(s.desk, j) && j !in s.ci.tasks
  {
    RunSeparates(p, Start(clock), run);
    assert NoteOk(Exec(p, Start(clock), run), j);
  }

  /** And then the status of every job in CI mirrors the state of its CI task. */
  lemma JobsMirrorTasks(p: C.Policy, clock: Time, run: seq<Move>, j: JobId)
    requires Legal(p, Start(clock), run) && EntersLaunched(p, Start(clock), run)
             && j in Exec(p, Start(clock), run).ci.tasks
    ensures
      var s := Exec(p, Start(clock), run);
      j in s.desk.jobs && J.Mirror(s.ci.tasks[j].state, s.desk.jobs[j].status)
  {
    RunSeparates(p, Start(clock), run);
    assert J.MirrorsJob(CiTablesOf(Exec(p, Start(clock), run)), j, true);
  }

  /**
   So a blocked report can be requeued whenever its job has a broker run, for every job that did not enter CI, and for
   every job at all if jobs enter CI only when `launched`.
   */
  lemma BlockedReportsCanBeRequeued(p: C.Policy, clock: Time, run: seq<Move>, j: JobId, now: Time)
    requires Legal(p, Start(clock), run)
             && (EntersLaunched(p, Start(clock), run) || j !in Exec(p, Start(clock), run).ci.tasks)
    requires
      var d := Exec(p, Start(clock), run).desk;
      j in d.outbox && d.outbox[j].state.Blocked?
    ensures
      var d := Exec(p, Start(clock), run).desk;
      && j in d.jobs
      && (Requeue(d, j, d.jobs[j].run, d.outbox[j].key, now).Some? <==> d.jobs[j].run != "")
  {
    OutboxMatches(p, clock, run, j);
    if EntersLaunched(p, Start(clock), run) {
      OutboxMatchesWhenLaunched(p, clock, run, j);
    }
    BlockedIsRequeued(Exec(p, Start(clock), run).desk, j, now);
  }
}
