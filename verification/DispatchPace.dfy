/** How often and how fast the dispatcher retries: launches within their window, and reports until they block. */
module DispatchPace {
  import opened Basics
  import opened Delays
  import opened Jobs
  import opened DispatchTables
  import opened DispatchProtocol
  import opened DispatchTurns
  import C = CiTables
  import P = CiProtocol
  import J = CiJobs
  import E = DispatchEngaged
  import O = DispatchOrder
  import X = DispatchOutbox

  // ---------- the arithmetic ----------

  /** How long after its first launch a job's `k`-th launch comes at the earliest. */
  function LaunchFloor(k: nat): Time {
    if k <= 1 then 0 else LaunchFloor(k - 1) + LaunchRetryDelay(k - 1)
  }

  lemma Doublings(base: Time)
    requires 0 < base
    ensures Doubled(base, 1) == 2 * base && Doubled(base, 2) == 4 * base && Doubled(base, 3) == 8 * base
            && Doubled(base, 4) == 16 * base
    ensures Doubled(base, 5) == 32 * base && Doubled(base, 6) == 64 * base && Doubled(base, 7) == 128 * base
  {
    assert Doubled(base, 1) == 2 * base;
    assert Doubled(base, 2) == 4 * base;
    assert Doubled(base, 3) == 8 * base;
    assert Doubled(base, 4) == 16 * base;
    assert Doubled(base, 5) == 32 * base;
    assert Doubled(base, 6) == 64 * base;
  }

  lemma LaunchDelays(k: int)
    requires k >= 1
    ensures LaunchRetryDelay(k) ==
            if k == 1 then 2 * SECOND else if k == 2 then 4 * SECOND else if k == 3 then 8 * SECOND
            else if k == 4 then 16 * SECOND else 20 * SECOND
  {
    Doublings(2 * SECOND);
  }

  /** 2, 4, 8 and 16 seconds, then 20 seconds each. */
  lemma {:induction false} LaunchFloorIs(k: nat)
    requires k >= 5
    ensures LaunchFloor(k) == 30 * SECOND + (k - 5) * 20 * SECOND
  {
    LaunchDelays(k - 1);
    if k == 5 {
      LaunchDelays(1);
      LaunchDelays(2);
      LaunchDelays(3);
      assert LaunchFloor(2) == 2 * SECOND;
      assert LaunchFloor(3) == 6 * SECOND;
      assert LaunchFloor(4) == 14 * SECOND;
    } else {
      LaunchFloorIs(k - 1);
    }
  }

  const MAX_LAUNCHES := 33

  /** The 33rd launch still fits the window and the 34th does not. */
  lemma LaunchesFit(k: nat)
    ensures LaunchFloor(k) < LAUNCH_RETRY_WINDOW <==> k <= MAX_LAUNCHES
  {
    if k >= 5 {
      LaunchFloorIs(k);
    } else {
      LaunchFloorIs(5);
      LaunchDelays(1);
      LaunchDelays(2);
      LaunchDelays(3);
      LaunchDelays(4);
      assert LaunchFloor(2) == 2 * SECOND;
      assert LaunchFloor(3) == 6 * SECOND;
      assert LaunchFloor(4) == 14 * SECOND;
    }
  }

  function ReportFloor(k: nat): Time {
    if k <= 1 then 0 else ReportFloor(k - 1) + ReportRetryDelay(k - 1)
  }

  lemma LateReportDelay(k: int)
    requires k >= 8
    ensures ReportRetryDelay(k) == 60 * MINUTE
  {
    Doublings(30 * SECOND);
  }

  lemma {:induction false} LateReportFloor(k: nat)
    requires k >= 8
    ensures ReportFloor(k) == ReportFloor(8) + (k - 8) * 60 * MINUTE
  {
    if k > 8 {
      LateReportDelay(k - 1);
      LateReportFloor(k - 1);
    }
  }

  /** Seven doublings from 30 seconds, then hourly: the 24th attempt comes at least 61,410 seconds after the first. */
  lemma LastReportFloor()
    ensures ReportFloor(REPORT_RETRY_MAX_ATTEMPTS) == 61_410 * SECOND
  {
    Doublings(30 * SECOND);
    assert ReportRetryDelay(1) == 30 * SECOND && ReportRetryDelay(2) == 60 * SECOND
           && ReportRetryDelay(3) == 120 * SECOND;
    assert ReportRetryDelay(4) == 240 * SECOND && ReportRetryDelay(5) == 480 * SECOND;
    assert ReportRetryDelay(6) == 960 * SECOND && ReportRetryDelay(7) == 1920 * SECOND;
    assert ReportFloor(3) == 90 * SECOND;
    assert ReportFloor(5) == 450 * SECOND;
    assert ReportFloor(7) == 1890 * SECOND;
    assert ReportFloor(8) == 3810 * SECOND;
    LateReportFloor(24);
  }

  // ---------- launches ----------

  /**
   After `calls` answered launches a job still to be launched has been claimed for each of them, and is neither due nor,
   if the worker holds it, claimed before the floor of the next one or the end of the window. A claim whose answer was
   lost counts as an attempt and moves nothing.
   */
  predicate Paced(s: Sys, j: JobId, calls: nat) {
    && calls <= MAX_LAUNCHES && (j !in s.desk.jobs ==> calls == 0)
    && (j in s.desk.jobs && Unlaunched(s.desk.jobs[j].status) ==>
          RowPaced(s.desk.jobs[j], calls) && (Held(s, j) ==> HoldPaced(s.desk.jobs[j], s.hold.now, calls)))
  }

  predicate Held(s: Sys, j: JobId) {
    s.hold.Launching? && s.hold.job == j
  }

  predicate RowPaced(job: Job, calls: nat) {
    && job.run == "" && calls <= job.attempts
    && (calls > 0 ==> job.first.Some? && job.due >= NextFloor(job.first.value, calls))
  }

  predicate HoldPaced(job: Job, now: Time, calls: nat) {
    job.first.Some? && calls < job.attempts && now >= NextFloor(job.first.value, calls)
  }

  function NextFloor(first: Time, calls: nat): Time {
    first + Min(LaunchFloor(calls + 1), LAUNCH_RETRY_WINDOW)
  }

  /** The move records the answer to a launch of `j`: a run, or an error. */
  function Called(s: Sys, m: Move, j: JobId): nat {
    if Held(s, j) && ((m.LaunchAccepted? && m.run != "") || m.LaunchFailed?) then 1 else 0
  }

  ghost function LaunchCalls(p: C.Policy, s: Sys, run: seq<Move>, j: JobId): nat
    decreases |run|
  {
    if run == [] then 0 else Called(s, run[0], j) + LaunchCalls(p, Next(p, s, run[0]), run[1..], j)
  }

  /** A launch of `j` is not claimed at a time before its first claim. */
  predicate Forward(s: Sys, m: Move, j: JobId) {
    m.ClaimJob? && m.job == j && j in s.desk.jobs && Unlaunched(s.desk.jobs[j].status) && s.desk.jobs[j].first.Some? ==>
      m.now >= s.desk.jobs[j].first.value
  }

  ghost predicate ForwardRun(p: C.Policy, s: Sys, run: seq<Move>, j: JobId)
    decreases |run|
  {
    run == [] || (Forward(s, run[0], j) && ForwardRun(p, Next(p, s, run[0]), run[1..], j))
  }

  /** Nothing about job `j`'s launch changed, except that the worker may have let go of it. */
  predicate SameLaunch(s: Sys, u: Sys, j: JobId) {
    && (j in s.desk.jobs <==> j in u.desk.jobs)
    && (j in s.desk.jobs ==>
          && (Unlaunched(u.desk.jobs[j].status) ==> u.desk.jobs[j] == s.desk.jobs[j])
          && (Held(u, j) ==> u.hold == s.hold))
  }

  lemma SameLaunchKeeps(s: Sys, u: Sys, j: JobId, calls: nat)
    requires SameLaunch(s, u, j) && Paced(s, j, calls)
    ensures Paced(u, j, calls)
  {}

  lemma ClaimPaces(p: C.Policy, s: Sys, m: Move, j: JobId, calls: nat)
    requires O.Ok(s) && Can(s, m) && m.ClaimJob? && Forward(s, m, j) && Paced(s, j, calls)
    ensures Paced(Next(p, s, m), j, calls)
  {
    assert O.JobOk(s, m.job);
  }

  /** A launch that is called at all is among the first 33. */
  lemma CallIsEarly(s: Sys, j: JobId, calls: nat)
    requires Held(s, j) && j in s.desk.jobs && Unlaunched(s.desk.jobs[j].status) && Paced(s, j, calls) && !Closed(s)
    ensures calls < MAX_LAUNCHES
  {
    LaunchesFit(calls + 1);
  }

  lemma DelaysGrow(k: int, n: int)
    requires 1 <= k <= n
    ensures LaunchRetryDelay(k) <= LaunchRetryDelay(n)
  {
    LaunchDelays(k);
    LaunchDelays(n);
  }

  /** A retry is scheduled later than now and no later than the end of the window, so the window is seen to close. */
  lemma RetryWithinWindow(job: Job, now: Time)
    requires job.first.Some? && !WindowClosed(job, now)
    ensures now < LaunchDue(job, now) <= job.first.value + LAUNCH_RETRY_WINDOW
    ensures WindowClosed(job, LaunchDue(job, now))
            <==> now + LaunchRetryDelay(job.attempts) >= job.first.value + LAUNCH_RETRY_WINDOW
  {}

  lemma RetryPaces(p: C.Policy, s: Sys, m: Move, calls: nat)
    requires O.HoldOk(s) && Can(s, m) && m.LaunchFailed? && m.transient && Paced(s, s.hold.job, calls)
    ensures Paced(Next(p, s, m), s.hold.job, calls + 1)
  {
    CallIsEarly(s, s.hold.job, calls);
    DelaysGrow(calls + 1, s.desk.jobs[s.hold.job].attempts);
    assert LaunchFloor(calls + 2) == LaunchFloor(calls + 1) + LaunchRetryDelay(calls + 1);
  }

  lemma AcceptPaces(p: C.Policy, s: Sys, m: Move, calls: nat)
    requires O.HoldOk(s) && Can(s, m) && m.LaunchAccepted? && Paced(s, s.hold.job, calls)
    ensures Paced(Next(p, s, m), s.hold.job, calls + Called(s, m, s.hold.job))
  {
    CallIsEarly(s, s.hold.job, calls);
  }

  /** Giving up always succeeds in queueing the failure. */
  lemma GivingUpPaces(p: C.Policy, s: Sys, m: Move, calls: nat)
    requires X.Ok(s) && Can(s, m) && (m.CloseWindow? || (m.LaunchFailed? && !m.transient))
             && Paced(s, s.hold.job, calls)
    ensures Paced(Next(p, s, m), s.hold.job, calls + Called(s, m, s.hold.job))
  {
    var j := s.hold.job;
    if m.LaunchFailed? {
      CallIsEarly(s, j, calls);
    }
    assert j in s.desk.terminals ==> X.NoteOk(s, j);
    assert j in s.desk.outbox.Keys <==> j in s.desk.terminals.Keys;
    X.QueuesResult(p, s, m);
    QueueLeaves(s.desk, j, X.Queued(s, m).value, s.hold.now);
  }

  lemma QueueLeaves(d: Desk, j: JobId, r: TerminalResult, now: Time)
    requires j in d.jobs && Unlaunched(d.jobs[j].status) && j !in d.terminals && j !in d.outbox
             && ValidResult(d.jobs[j], r) && r.payload.Text?
    ensures QueueResult(d, j, r, now).Some? && QueueResult(d, j, r, now).value.jobs[j].status.ReportPending?
  {}

  lemma LaunchAnswerPaces(p: C.Policy, s: Sys, m: Move, calls: nat)
    requires X.Ok(s) && Can(s, m) && O.IsAnswer(m) && s.hold.Launching? && Paced(s, s.hold.job, calls)
    ensures Paced(Next(p, s, m), s.hold.job, calls + Called(s, m, s.hold.job))
  {
    if m.LaunchAccepted? {
      AcceptPaces(p, s, m, calls);
    } else if m.LaunchFailed? && m.transient {
      RetryPaces(p, s, m, calls);
    } else {
      GivingUpPaces(p, s, m, calls);
    }
  }

  lemma OtherAnswersPace(p: C.Policy, s: Sys, m: Move, j: JobId)
    requires O.Ok(s) && Can(s, m) && O.IsAnswer(m) && !Held(s, j)
    ensures SameLaunch(s, Next(p, s, m), j)
  {
    O.AnswerTouches(p, s, m);
    if s.hold.job == j {
      AnswersStayLaunched(p, s, m);
    }
    AnswerHolds(p, s, m);
  }

  lemma AnswerHolds(p: C.Policy, s: Sys, m: Move)
    requires Can(s, m) && O.IsAnswer(m)
    ensures !Next(p, s, m).hold.Launching?
  {}

  lemma AnswersStayLaunched(p: C.Policy, s: Sys, m: Move)
    requires O.HoldOk(s) && Can(s, m) && O.IsAnswer(m) && !s.hold.Launching? && s.hold.job in s.desk.jobs
    ensures s.hold.job in Next(p, s, m).desk.jobs
    ensures Unlaunched(Next(p, s, m).desk.jobs[s.hold.job].status) ==> Next(p, s, m).desk == s.desk
  {
    if m.WaitReported? || m.NoLongerWaiting? || m.ProjectionFailed? {
      LongAnswersStayLaunched(p, s, m);
    }
  }

  lemma LongAnswersStayLaunched(p: C.Policy, s: Sys, m: Move)
    requires O.HoldOk(s) && Can(s, m) && (m.WaitReported? || m.NoLongerWaiting? || m.ProjectionFailed?)
             && s.hold.job in s.desk.jobs
    ensures s.hold.job in Next(p, s, m).desk.jobs
    ensures Unlaunched(Next(p, s, m).desk.jobs[s.hold.job].status) ==> Next(p, s, m).desk == s.desk
  {
    if m.WaitReported? {
      WaitStaysLaunched(p, s, m);
    }
  }

  lemma WaitStaysLaunched(p: C.Policy, s: Sys, m: Move)
    requires O.HoldOk(s) && Can(s, m) && m.WaitReported? && s.hold.job in s.desk.jobs
    ensures s.hold.job in Next(p, s, m).desk.jobs
    ensures Unlaunched(Next(p, s, m).desk.jobs[s.hold.job].status) ==> Next(p, s, m).desk == s.desk
  {}

  lemma EventsPace(p: C.Policy, s: Sys, m: Move, j: JobId)
    requires O.Ok(s) && Can(s, m) && (m.IssueEvent? || m.Operator? || m.ClaimNotice? || m.Crash? || m.EnterCi?)
    ensures SameLaunch(s, Next(p, s, m), j)
  {
    if m.IssueEvent? {
      WakesPace(s.desk, m.repository, m.issue, m.now, j);
    } else if m.EnterCi? {
      O.EnterShape(p, s, m);
    }
  }

  lemma WakesPace(d: Desk, repository: string, issue: int, now: Time, j: JobId)
    ensures
      var u := RecordWake(d, repository, issue, now);
      && (j in d.jobs <==> j in u.jobs)
      && (j in d.jobs ==>
         u.jobs[j].status == d.jobs[j].status && (Unlaunched(d.jobs[j].status) ==> u.jobs[j] == d.jobs[j]))
  {}

  lemma CiPaces(p: C.Policy, s: Sys, m: Move, j: JobId)
    requires O.Ok(s) && Can(s, m) && (m.Ci? || m.CiEvent?)
    ensures SameLaunch(s, Next(p, s, m), j)
  {
    J.CiOnlyParks(p, CiView(s), if m.Ci? then m.op else P.Webhook(m.event, m.now));
  }

  lemma ArrivePaces(p: C.Policy, s: Sys, m: Move, j: JobId, calls: nat)
    requires O.Ok(s) && Can(s, m) && m.Arrive? && Paced(s, j, calls)
    ensures Paced(Next(p, s, m), j, calls)
  {
    O.RecordShape(s.desk, m.signal, m.now);
    O.NextIdIsNew(s);
  }

  lemma StepPaces(p: C.Policy, s: Sys, m: Move, j: JobId, calls: nat)
    requires X.Ok(s) && Can(s, m) && Forward(s, m, j) && Paced(s, j, calls)
    ensures Paced(Next(p, s, m), j, calls + Called(s, m, j))
  {
    if O.IsAnswer(m) {
      if Held(s, j) {
        LaunchAnswerPaces(p, s, m, calls);
      } else {
        OtherAnswersPace(p, s, m, j);
        SameLaunchKeeps(s, Next(p, s, m), j, calls);
      }
    } else if m.ClaimJob? {
      ClaimPaces(p, s, m, j, calls);
    } else if m.Arrive? {
      ArrivePaces(p, s, m, j, calls);
    } else {
      if m.Ci? || m.CiEvent? {
        CiPaces(p, s, m, j);
      } else {
        EventsPace(p, s, m, j);
      }
      SameLaunchKeeps(s, Next(p, s, m), j, calls);
    }
  }

  lemma {:induction false} RunPaces(p: C.Policy, s: Sys, run: seq<Move>, j: JobId, calls: nat)
    requires X.Ok(s) && Legal(p, s, run) && ForwardRun(p, s, run, j) && Paced(s, j, calls)
    ensures calls + LaunchCalls(p, s, run, j) <= MAX_LAUNCHES
    decreases |run|
  {
    if run == [] {
    } else {
      StepPaces(p, s, run[0], j, calls);
      X.MoveKeeps(p, s, run[0]);
      RunPaces(p, Next(p, s, run[0]), run[1..], j, calls + Called(s, run[0], j));
    }
  }

  /**
   However long the run, and however often the worker crashes or loses an answer, at most 33 launches of a job are
   answered, as long as no launch of it is claimed at a time before the first.
   */
  lemma LaunchesAreBounded(p: C.Policy, clock: Time, run: seq<Move>, j: JobId)
    requires Legal(p, Start(clock), run) && ForwardRun(p, Start(clock), run, j)
    ensures LaunchCalls(p, Start(clock), run, j) <= 33
  {
    RunPaces(p, Start(clock), run, j, 0);
  }

  /** The first claim of a job still to be launched lies in an earlier pass or this one. */
  predicate FirstPast(l: Live, j: JobId) {
    var d := l.sys.desk;
    j in d.jobs && Unlaunched(d.jobs[j].status) && d.jobs[j].first.Some? ==> d.jobs[j].first.value <= l.pass
  }

  lemma LaunchAnswerKeepsFirst(p: C.Policy, s: Sys, m: Move)
    requires O.Ok(s) && Can(s, m) && O.IsAnswer(m) && s.hold.Launching?
    ensures
      var j := s.hold.job;
      j in s.desk.jobs && j in Next(p, s, m).desk.jobs && Next(p, s, m).desk.jobs[j].first == s.desk.jobs[j].first
  {
    O.AnswerTouches(p, s, m);
  }

  lemma ServedStaysPast(p: C.Policy, l: Live, m: Move, j: JobId)
    requires O.Ok(l.sys) && Serves(p, l, m) && FirstPast(l, j)
    ensures FirstPast(Served(p, l, m), j)
  {
    E.PassesGoOn(p, l, m);
    if O.IsAnswer(m) {
      if Held(l.sys, j) {
        LaunchAnswerKeepsFirst(p, l.sys, m);
      } else {
        OtherAnswersPace(p, l.sys, m, j);
      }
    } else if m.Arrive? {
      O.RecordShape(l.sys.desk, m.signal, m.now);
    } else if m.Ci? || m.CiEvent? {
      CiPaces(p, l.sys, m, j);
    } else if !m.ClaimJob? {
      EventsPace(p, l.sys, m, j);
    }
  }

  lemma ServedIsForward(p: C.Policy, l: Live, m: Move, j: JobId)
    requires Serves(p, l, m) && FirstPast(l, j)
    ensures Forward(l.sys, m, j)
  {}

  lemma {:induction false} OrderlyIsForward(p: C.Policy, l: Live, run: seq<Move>, j: JobId)
    requires O.Ok(l.sys) && Orderly(p, l, run) && FirstPast(l, j)
    ensures ForwardRun(p, l.sys, run, j)
    decreases |run|
  {
    if run == [] {
    } else {
      ServedIsForward(p, l, run[0], j);
      ServedStaysPast(p, l, run[0], j);
      O.MoveKeeps(p, l.sys, run[0]);
      OrderlyIsForward(p, Served(p, l, run[0]), run[1..], j);
    }
  }

  /** So in every orderly run at most 33 launches of a job are answered, crashes or not. */
  lemma OrderlyLaunchesAreBounded(p: C.Policy, clock: Time, run: seq<Move>, j: JobId)
    requires Orderly(p, Live(Start(clock), clock), run)
    ensures LaunchCalls(p, Start(clock), run, j) <= 33
  {
    OrderlyIsLegal(p, Live(Start(clock), clock), run);
    OrderlyIsForward(p, Live(Start(clock), clock), run, j);
    LaunchesAreBounded(p, clock, run, j);
  }

  // ---------- reports ----------

  /** A notice that has only failed transiently since its first attempt at `start`. */
  predicate NoticePaced(n: Notice, start: Time) {
    match n.state
    case Pending => n.attempts == 0
    case Retry => 1 <= n.attempts < REPORT_RETRY_MAX_ATTEMPTS && n.due >= start + ReportFloor(n.attempts + 1)
    case Blocked => n.attempts == REPORT_RETRY_MAX_ATTEMPTS && n.due >= start + ReportFloor(REPORT_RETRY_MAX_ATTEMPTS)
    case Sent => true
  }

  predicate ReportPaced(s: Sys, j: JobId, start: Time) {
    && j in s.desk.outbox && NoticePaced(s.desk.outbox[j], start)
    && (s.hold.Reporting? && s.hold.job == j ==>
          s.hold.attempts < REPORT_RETRY_MAX_ATTEMPTS && s.hold.now >= start + ReportFloor(s.hold.attempts + 1))
  }

  /** No attempt comes before `start`, every failure of the report is transient, and no operator requeues it. */
  predicate Gentle(s: Sys, m: Move, j: JobId, start: Time) {
    && (m.ClaimNotice? && m.job == j ==> m.now >= start)
    && (m.PostFailed? && s.hold.Reporting? && s.hold.job == j ==> m.transient)
    && !(m.Operator? && m.job == j)
  }

  ghost predicate GentleRun(p: C.Policy, s: Sys, run: seq<Move>, j: JobId, start: Time)
    decreases |run|
  {
    run == [] || (Gentle(s, run[0], j, start) && GentleRun(p, Next(p, s, run[0]), run[1..], j, start))
  }

  lemma FailedReportPaces(d: Desk, j: JobId, attempts: nat, message: string, now: Time, start: Time)
    requires j in d.outbox && d.outbox[j].attempts == attempts < REPORT_RETRY_MAX_ATTEMPTS
             && now >= start + ReportFloor(attempts + 1)
    requires NoticePaced(d.outbox[j], start)
    ensures
      var r := MarkReportFailure(d, j, attempts, Retries(true, attempts), message, now);
      r.Some? ==> j in r.value.outbox && NoticePaced(r.value.outbox[j], start)
  {
    assert ReportFloor(attempts + 2) == ReportFloor(attempts + 1) + ReportRetryDelay(attempts + 1);
  }

  lemma ReportAnswerPaces(p: C.Policy, s: Sys, m: Move, start: Time)
    requires O.HoldOk(s) && s.hold.Reporting? && Can(s, m) && O.IsAnswer(m)
    requires ReportPaced(s, s.hold.job, start) && Gentle(s, m, s.hold.job, start)
    ensures ReportPaced(Next(p, s, m), s.hold.job, start)
  {
    if m.PostFailed? {
      FailedReportPaces(s.desk, s.hold.job, s.hold.attempts, m.message, s.hold.now, start);
    }
  }

  lemma OtherReportPaces(p: C.Policy, s: Sys, m: Move, j: JobId, start: Time)
    requires X.Ok(s) && Can(s, m) && O.IsAnswer(m) && !(s.hold.Reporting? && s.hold.job == j)
             && ReportPaced(s, j, start)
    ensures ReportPaced(Next(p, s, m), j, start)
  {
    O.AnswerTouches(p, s, m);
    assert j in s.desk.outbox.Keys && X.NoteOk(s, j);
    ReportHolds(p, s, m);
  }

  lemma ReportHolds(p: C.Policy, s: Sys, m: Move)
    requires Can(s, m) && O.IsAnswer(m)
    ensures !Next(p, s, m).hold.Reporting?
  {}

  lemma EventReportPaces(p: C.Policy, s: Sys, m: Move, j: JobId, start: Time)
    requires Can(s, m) && !O.IsAnswer(m) && ReportPaced(s, j, start) && Gentle(s, m, j, start)
    ensures ReportPaced(Next(p, s, m), j, start)
  {
    if m.Arrive? {
      O.RecordShape(s.desk, m.signal, m.now);
    } else if m.IssueEvent? {
      O.WakeShape(s.desk, m.repository, m.issue, m.now);
    } else if m.ClaimNotice? && m.job == j {
      assert NoticeDue(s.desk, j, m.now);
    }
  }

  lemma {:induction false} ReportRunPaces(p: C.Policy, s: Sys, run: seq<Move>, j: JobId, start: Time)
    requires X.Ok(s) && Legal(p, s, run) && GentleRun(p, s, run, j, start) && ReportPaced(s, j, start)
    ensures ReportPaced(Exec(p, s, run), j, start)
    decreases |run|
  {
    if run == [] {
    } else {
      ReportStepPaces(p, s, run[0], j, start);
      X.MoveKeeps(p, s, run[0]);
      ReportRunPaces(p, Next(p, s, run[0]), run[1..], j, start);
    }
  }

  lemma ReportStepPaces(p: C.Policy, s: Sys, m: Move, j: JobId, start: Time)
    requires X.Ok(s) && Can(s, m) && Gentle(s, m, j, start) && ReportPaced(s, j, start)
    ensures ReportPaced(Next(p, s, m), j, start)
  {
    if !O.IsAnswer(m) {
      EventReportPaces(p, s, m, j, start);
    } else if s.hold.Reporting? && s.hold.job == j {
      ReportAnswerPaces(p, s, m, start);
    } else {
      OtherReportPaces(p, s, m, j, start);
    }
  }

  /**
   A report that fails only transiently blocks exactly on its 24th failure, and then no earlier than 61,410 seconds
   after its first attempt at `start`.
   */
  lemma ReportsBlockLate(p: C.Policy, clock: Time, before: seq<Move>, run: seq<Move>, j: JobId, start: Time)
    requires Legal(p, Start(clock), before)
    requires
      var s := Exec(p, Start(clock), before);
      && Legal(p, s, run) && GentleRun(p, s, run, j, start)
      && j in s.desk.outbox && s.desk.outbox[j].state.Pending? && s.desk.outbox[j].attempts == 0 && s.hold.Free?
    ensures
      var d := Exec(p, Exec(p, Start(clock), before), run).desk;
      && j in d.outbox
      && (d.outbox[j].state.Blocked? ==> d.outbox[j].attempts == 24 && d.outbox[j].due >= start + 61_410 * SECOND)
      && (d.outbox[j].Open() ==> d.outbox[j].attempts < 24)
  {
    X.RunKeeps(p, Start(clock), before);
    ReportRunPaces(p, Exec(p, Start(clock), before), run, j, start);
    LastReportFloor();
  }
}
