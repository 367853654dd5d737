/**
 Jobs that wait for GitHub: which of them a wake can still restore, and which stay where they are until a newer wait is
 reported.
 */
module DispatchStuck {
  import opened Basics
  import opened Jobs
  import opened DispatchTables
  import opened DispatchProtocol
  import opened DispatchTurns
  import C = CiTables
  import P = CiProtocol
  import J = CiJobs
  import O = DispatchOrder
  import X = DispatchOutbox
  import D = DispatchDrain
  import E = DispatchEngaged
  import W = DispatchWaits

  // ---------- a wait and its job ----------

  /** A recorded wait is one of the job's own run, a job that waits has one, and a job that is polled has a run. */
  predicate WaitOk(s: Sys, j: JobId) {
    && (Claimable(s.desk, j) && !Unlaunched(s.desk.jobs[j].status) ==> s.desk.jobs[j].run != "")
    && (j in s.desk.waits ==>
          j in s.desk.jobs && s.desk.waits[j].run == s.desk.jobs[j].run && !Unlaunched(s.desk.jobs[j].status))
    && (j in s.desk.jobs && s.desk.jobs[j].status.ExternalWaiting? ==> j in s.desk.waits)
  }

  lemma WaitKeepsOk(p: C.Policy, s: Sys, m: Move)
    requires O.HoldOk(s) && Can(s, m) && m.WaitReported? && WaitOk(s, s.hold.job)
    ensures WaitOk(Next(p, s, m), s.hold.job)
  {}

  lemma ResumeKeepsOk(p: C.Policy, s: Sys, m: Move)
    requires O.HoldOk(s) && Can(s, m) && (m.ResumeAccepted? || m.NoLongerWaiting?) && WaitOk(s, s.hold.job)
    ensures WaitOk(Next(p, s, m), s.hold.job)
  {}

  lemma ReportKeepsOk(p: C.Policy, s: Sys, m: Move)
    requires Can(s, m) && (m.Posted? || m.PostFailed?) && WaitOk(s, s.hold.job)
    ensures WaitOk(Next(p, s, m), s.hold.job)
  {}

  lemma LaunchKeepsOk(p: C.Policy, s: Sys, m: Move)
    requires O.HoldOk(s) && Can(s, m) && (m.LaunchAccepted? || m.LaunchFailed? || m.CloseWindow?)
             && WaitOk(s, s.hold.job)
    ensures WaitOk(Next(p, s, m), s.hold.job)
  {}

  lemma FollowKeepsOk(p: C.Policy, s: Sys, m: Move)
    requires O.HoldOk(s) && Can(s, m)
    requires m.ReporterMissing? || m.StatusLost? || m.ProjectionFailed? || m.ResumeFailed? || m.StillRunning?
    requires WaitOk(s, s.hold.job)
    ensures WaitOk(Next(p, s, m), s.hold.job)
  {}

  lemma QueueKeepsOk(p: C.Policy, s: Sys, m: Move)
    requires O.HoldOk(s) && Can(s, m) && (m.QueueFailure? || m.Finished?) && WaitOk(s, s.hold.job)
    ensures WaitOk(Next(p, s, m), s.hold.job)
  {}

  lemma OwnKeepsOk(p: C.Policy, s: Sys, m: Move)
    requires O.HoldOk(s) && Can(s, m) && O.IsAnswer(m) && WaitOk(s, s.hold.job)
    ensures WaitOk(Next(p, s, m), s.hold.job)
  {
    if m.WaitReported? {
      WaitKeepsOk(p, s, m);
    } else if m.ResumeAccepted? || m.NoLongerWaiting? {
      ResumeKeepsOk(p, s, m);
    } else if m.Posted? || m.PostFailed? {
      ReportKeepsOk(p, s, m);
    } else if m.LaunchAccepted? || m.LaunchFailed? || m.CloseWindow? {
      LaunchKeepsOk(p, s, m);
    } else if m.QueueFailure? || m.Finished? {
      QueueKeepsOk(p, s, m);
    } else {
      FollowKeepsOk(p, s, m);
    }
  }

  lemma AnswerKeepsOk(p: C.Policy, s: Sys, m: Move, j: JobId)
    requires O.Ok(s) && Can(s, m) && O.IsAnswer(m) && WaitOk(s, j)
    ensures WaitOk(Next(p, s, m), j)
  {
    if s.hold.job == j {
      OwnKeepsOk(p, s, m);
    } else {
      O.AnswerTouches(p, s, m);
    }
  }

  lemma CiKeepsOk(p: C.Policy, s: Sys, m: Move, j: JobId)
    requires O.Ok(s) && Can(s, m) && (m.Ci? || m.CiEvent?) && WaitOk(s, j)
    ensures WaitOk(Next(p, s, m), j)
  {
    J.CiOnlyParks(p, CiView(s), if m.Ci? then m.op else P.Webhook(m.event, m.now));
    ParkedKeepsOk(s, Next(p, s, m), j);
  }

  lemma ParkedKeepsOk(s: Sys, u: Sys, j: JobId)
    requires WaitOk(s, j) && J.OnlyParks(CiTablesOf(s), u.ci) && u.desk == s.desk.(jobs := u.ci.jobs)
    ensures WaitOk(u, j)
  {}

  lemma ArrivalKeepsOk(p: C.Policy, s: Sys, m: Move, j: JobId)
    requires O.Ok(s) && Can(s, m) && WaitOk(s, j) && m.Arrive?
    ensures WaitOk(Next(p, s, m), j)
  {
    O.RecordShape(s.desk, m.signal, m.now);
    O.NextIdIsNew(s);
  }

  lemma EntryKeepsOk(p: C.Policy, s: Sys, m: Move, j: JobId)
    requires O.Ok(s) && Can(s, m) && WaitOk(s, j) && m.EnterCi?
    ensures WaitOk(Next(p, s, m), j)
  {
    O.EnterShape(p, s, m);
  }

  lemma OtherKeepsOk(p: C.Policy, s: Sys, m: Move, j: JobId)
    requires O.Ok(s) && Can(s, m) && WaitOk(s, j)
    requires m.IssueEvent? || m.Operator? || m.Crash? || m.ClaimNotice? || m.ClaimJob?
    ensures WaitOk(Next(p, s, m), j)
  {
    if m.IssueEvent? {
      O.WakeShape(s.desk, m.repository, m.issue, m.now);
    }
  }

  lemma MoveKeepsOk(p: C.Policy, s: Sys, m: Move, j: JobId)
    requires O.Ok(s) && Can(s, m) && WaitOk(s, j)
    ensures WaitOk(Next(p, s, m), j)
  {
    if O.IsAnswer(m) {
      AnswerKeepsOk(p, s, m, j);
    } else if m.Ci? || m.CiEvent? {
      CiKeepsOk(p, s, m, j);
    } else if m.Arrive? {
      ArrivalKeepsOk(p, s, m, j);
    } else if m.EnterCi? {
      EntryKeepsOk(p, s, m, j);
    } else {
      OtherKeepsOk(p, s, m, j);
    }
  }

  /** In every run a job waits for GitHub only with a wait of its own run on record. */
  lemma {:induction false} WaitsBelong(p: C.Policy, s: Sys, run: seq<Move>, j: JobId)
    requires O.Ok(s) && Legal(p, s, run) && WaitOk(s, j)
    ensures WaitOk(Exec(p, s, run), j)
    decreases |run|
  {
    if run == [] {
    } else {
      MoveKeepsOk(p, s, run[0], j);
      O.MoveKeeps(p, s, run[0]);
      WaitsBelong(p, Next(p, s, run[0]), run[1..], j);
    }
  }

  /**
   A run that stopped waiting without a wake is not picked up: the reconciliation succeeds if and only if the row is
   ready, and otherwise the job stays `external_waiting`.
   */
  lemma MovedOnNeedsWake(p: C.Policy, clock: Time, run: seq<Move>)
    requires Legal(p, Start(clock), run) && Can(Exec(p, Start(clock), run), NoLongerWaiting)
    ensures
      var s := Exec(p, Start(clock), run);
      var u := Next(p, s, NoLongerWaiting);
      var j := s.hold.job;
      && j in u.desk.jobs && j in s.desk.waits
      && (u.desk.jobs[j].status.Launched? <==> s.desk.waits[j].state.ResumeReady?)
      && (!s.desk.waits[j].state.ResumeReady? ==> u == s.(hold := Free))
  {
    var s := Exec(p, Start(clock), run);
    O.RunKeeps(p, Start(clock), run);
    WaitsBelong(p, Start(clock), run, s.hold.job);
  }

  // ---------- stuck ----------

  /** The wait of `j` is ready to resume, or an issue event can make it so. */
  predicate Freeable(d: Desk, j: JobId)
    requires j in d.waits && j in d.jobs
  {
    d.waits[j].state.ResumeReady?
        || (d.waits[j].state.Waiting? && d.jobs[j].key.repository != "" && d.jobs[j].key.issue >= 1)
  }

  /** `j` waits for GitHub with a wait that nothing wakes, or CI has parked it since. */
  predicate Stuck(s: Sys, j: JobId) {
    && j in s.desk.jobs && j in s.desk.waits && j !in s.desk.terminals && !Freeable(s.desk, j)
    && (s.desk.jobs[j].status.ExternalWaiting? || J.Parked(s.desk.jobs[j].status))
  }

  /** The row of `j` stays, and so does its status unless CI has a task for it. */
  predicate Unmoved(s: Sys, u: Sys, j: JobId)
    requires j in s.desk.jobs && j in s.desk.waits
  {
    && j in u.desk.jobs && j in u.desk.waits && u.desk.waits[j] == s.desk.waits[j]
    && (j !in s.ci.tasks ==> j !in u.ci.tasks && u.desk.jobs[j].status == s.desk.jobs[j].status)
  }

  /** The run of `j` reports a wait newer than the one on record. */
  predicate Renews(s: Sys, m: Move, j: JobId) {
    && m.WaitReported? && !s.hold.Free? && s.hold.job == j
    && (j in s.desk.waits ==> m.wait.generation > s.desk.waits[j].wait.generation)
  }

  lemma OwnLeavesStuck(p: C.Policy, s: Sys, m: Move)
    requires O.HoldOk(s) && O.Tidy(s.desk) && Can(s, m) && O.IsAnswer(m) && Stuck(s, s.hold.job)
             && !Renews(s, m, s.hold.job)
    ensures Stuck(Next(p, s, m), s.hold.job) && Unmoved(s, Next(p, s, m), s.hold.job)
  {
    assert s.hold.Polling? || s.hold.Failing? || s.hold.Resuming?;
    if m.WaitReported? {
      ReplayLeavesStuck(p, s, m);
    } else {
      FollowLeavesStuck(p, s, m);
    }
  }

  lemma ReplayLeavesStuck(p: C.Policy, s: Sys, m: Move)
    requires O.HoldOk(s) && Can(s, m) && m.WaitReported? && Stuck(s, s.hold.job) && !Renews(s, m, s.hold.job)
    ensures Stuck(Next(p, s, m), s.hold.job) && Unmoved(s, Next(p, s, m), s.hold.job)
  {}

  lemma FollowLeavesStuck(p: C.Policy, s: Sys, m: Move)
    requires O.HoldOk(s) && Can(s, m) && O.IsAnswer(m) && !m.WaitReported? && Stuck(s, s.hold.job)
    requires s.hold.Polling? || s.hold.Failing? || s.hold.Resuming?
    ensures Stuck(Next(p, s, m), s.hold.job) && Unmoved(s, Next(p, s, m), s.hold.job)
  {}

  lemma AnswerLeavesStuck(p: C.Policy, s: Sys, m: Move, j: JobId)
    requires O.Ok(s) && Can(s, m) && O.IsAnswer(m) && Stuck(s, j) && !Renews(s, m, j)
    ensures Stuck(Next(p, s, m), j) && Unmoved(s, Next(p, s, m), j)
  {
    if s.hold.job == j {
      OwnLeavesStuck(p, s, m);
    } else {
      O.AnswerTouches(p, s, m);
    }
  }

  lemma CiLeavesStuck(p: C.Policy, s: Sys, m: Move, j: JobId)
    requires O.Ok(s) && Can(s, m) && (m.Ci? || m.CiEvent?) && Stuck(s, j)
    ensures Stuck(Next(p, s, m), j) && Unmoved(s, Next(p, s, m), j)
  {
    J.CiOnlyParks(p, CiView(s), if m.Ci? then m.op else P.Webhook(m.event, m.now));
  }

  lemma EnterLeavesStuck(p: C.Policy, s: Sys, m: Move, j: JobId)
    requires O.Ok(s) && Can(s, m) && Stuck(s, j) && m.EnterCi?
    ensures Stuck(Next(p, s, m), j) && Unmoved(s, Next(p, s, m), j)
  {
    O.EnterShape(p, s, m);
  }

  lemma ArrivalLeavesStuck(p: C.Policy, s: Sys, m: Move, j: JobId)
    requires O.Ok(s) && Can(s, m) && Stuck(s, j) && m.Arrive?
    ensures Stuck(Next(p, s, m), j) && Unmoved(s, Next(p, s, m), j)
  {
    O.RecordShape(s.desk, m.signal, m.now);
    O.NextIdIsNew(s);
  }

  lemma OtherLeavesStuck(p: C.Policy, s: Sys, m: Move, j: JobId)
    requires O.Ok(s) && Can(s, m) && Stuck(s, j)
    requires m.IssueEvent? || m.Operator? || m.Crash? || m.ClaimNotice? || m.ClaimJob?
    ensures Stuck(Next(p, s, m), j) && Unmoved(s, Next(p, s, m), j)
  {
    if m.IssueEvent? {
      O.WakeShape(s.desk, m.repository, m.issue, m.now);
    }
  }

  lemma MoveLeavesStuck(p: C.Policy, s: Sys, m: Move, j: JobId)
    requires O.Ok(s) && Can(s, m) && Stuck(s, j) && !Renews(s, m, j)
    ensures Stuck(Next(p, s, m), j) && Unmoved(s, Next(p, s, m), j)
  {
    if O.IsAnswer(m) {
      AnswerLeavesStuck(p, s, m, j);
    } else if m.Ci? || m.CiEvent? {
      CiLeavesStuck(p, s, m, j);
    } else if m.Arrive? {
      ArrivalLeavesStuck(p, s, m, j);
    } else if m.EnterCi? {
      EnterLeavesStuck(p, s, m, j);
    } else {
      OtherLeavesStuck(p, s, m, j);
    }
  }

  ghost predicate NeverRenews(p: C.Policy, s: Sys, run: seq<Move>, j: JobId)
    decreases |run|
  {
    run == [] || (!Renews(s, run[0], j) && NeverRenews(p, Next(p, s, run[0]), run[1..], j))
  }

  /**
   Over every run in which the job's run reports no newer wait, a stuck job stays stuck: whatever issue events arrive,
   it is not `launched` again, and unless CI has a task for it every claim of a job takes this one, so nothing else is
   launched.
   */
  lemma {:induction false} StuckStays(p: C.Policy, s: Sys, run: seq<Move>, j: JobId)
    requires O.Ok(s) && Legal(p, s, run) && Stuck(s, j) && NeverRenews(p, s, run, j)
    ensures Stuck(Exec(p, s, run), j) && Unmoved(s, Exec(p, s, run), j)
    ensures
      j !in s.ci.tasks && s.desk.jobs[j].status.ExternalWaiting? ==>
        forall k | 0 <= k < |run| && run[k].ClaimJob? :: run[k].job == j
    decreases |run|
  {
    if run == [] {
    } else {
      MoveLeavesStuck(p, s, run[0], j);
      O.MoveKeeps(p, s, run[0]);
      StuckStays(p, Next(p, s, run[0]), run[1..], j);
      if run[0].ClaimJob? && s.desk.jobs[j].status.ExternalWaiting? {
        W.WaitingBlocks(s, run[0], j);
      }
    }
  }

  // ---------- and not stuck ----------

  ghost predicate Frees(p: C.Policy, l: Live, run: seq<Move>, j: JobId) {
    && Orderly(p, l, run) && Legal(p, l.sys, run) && NeverRenews(p, l.sys, run, j)
    && StatusOf(After(p, l, run).sys, j).Launched?
  }

  /** The job's own issue event. */
  function WakeOf(s: Sys, j: JobId, now: Time): Move
    requires j in s.desk.jobs
  {
    IssueEvent(s.desk.jobs[j].key.repository, s.desk.jobs[j].key.issue, now)
  }

  lemma Wakens(p: C.Policy, l: Live, j: JobId, now: Time)
    requires j in l.sys.desk.jobs && l.sys.desk.jobs[j].status.ExternalWaiting? && l.sys.desk.jobs[j].due <= now
    requires j in l.sys.desk.waits && Freeable(l.sys.desk, j) && l.pass <= now
    ensures
      var m := WakeOf(l.sys, j, now);
      && Serves(p, l, m)
      && var u := Served(p, l, m);
      && u == Live(l.sys.(desk := u.sys.desk), l.pass) && u.sys.desk.outbox == l.sys.desk.outbox
      && u.sys.desk.jobs.Keys == l.sys.desk.jobs.Keys
      && j in u.sys.desk.waits && u.sys.desk.waits[j] == l.sys.desk.waits[j].(state := ResumeReady)
      && u.sys.desk.jobs[j].status.ExternalWaiting? && u.sys.desk.jobs[j].due <= now
      && u.sys.desk.jobs[j].run == l.sys.desk.jobs[j].run
  {}

  lemma WokenIsQuiet(p: C.Policy, s: Sys, u: Sys, now: Time)
    requires u == s.(desk := u.desk) && u.desk.outbox == s.desk.outbox && u.desk.jobs.Keys == s.desk.jobs.Keys
             && Quiet(p, s, now)
    ensures Quiet(p, u, now)
  {
    D.SameQuiet(CiTablesOf(s), CiTablesOf(u), now);
    assert DueNotices(u.desk, now) == DueNotices(s.desk, now);
  }

  lemma ClaimsWoken(p: C.Policy, l: Live, j: JobId, now: Time)
    requires O.Ok(l.sys) && Idle(l.sys) && Quiet(p, l.sys, now) && l.pass <= now
    requires j in l.sys.desk.jobs && l.sys.desk.jobs[j].status.ExternalWaiting? && l.sys.desk.jobs[j].due <= now
    ensures Serves(p, l, ClaimJob(j, now))
            && Served(p, l, ClaimJob(j, now)) == Live(l.sys.(hold := Polling(j, now)), now)
  {
    W.WaitingIsClaimed(p, l, j, now);
  }

  lemma PicksUp(p: C.Policy, l: Live, j: JobId, now: Time)
    requires l.sys.hold == Polling(j, now) && WaitOk(l.sys, j)
    requires j in l.sys.desk.jobs && l.sys.desk.jobs[j].status.ExternalWaiting?
             && l.sys.desk.waits[j].state.ResumeReady?
    ensures Serves(p, l, NoLongerWaiting) && StatusOf(Served(p, l, NoLongerWaiting).sys, j).Launched?
  {}

  lemma WokenIsPickedUp(p: C.Policy, l: Live, j: JobId, now: Time)
    requires O.Ok(l.sys) && WaitOk(l.sys, j) && Idle(l.sys) && Quiet(p, l.sys, now) && l.pass <= now
    requires j in l.sys.desk.jobs && l.sys.desk.jobs[j].status.ExternalWaiting? && l.sys.desk.jobs[j].due <= now
    requires l.sys.desk.waits[j].state.ResumeReady?
    ensures
      var run := [ClaimJob(j, now), NoLongerWaiting];
      Orderly(p, l, run) && StatusOf(After(p, l, run).sys, j).Launched?
  {
    ClaimsWoken(p, l, j, now);
    PicksUp(p, Served(p, l, ClaimJob(j, now)), j, now);
    Two(p, l, ClaimJob(j, now), NoLongerWaiting);
  }

  lemma Restores(p: C.Policy, l: Live, j: JobId, now: Time) returns (run: seq<Move>)
    requires O.Ok(l.sys) && WaitOk(l.sys, j) && Idle(l.sys) && Quiet(p, l.sys, now) && l.pass <= now
    requires j in l.sys.desk.jobs && l.sys.desk.jobs[j].status.ExternalWaiting? && l.sys.desk.jobs[j].due <= now
    requires Freeable(l.sys.desk, j)
    ensures Orderly(p, l, run) && StatusOf(After(p, l, run).sys, j).Launched?
    ensures run == [WakeOf(l.sys, j, now), ClaimJob(j, now), NoLongerWaiting]
  {
    var m, rest := WakeOf(l.sys, j, now), [ClaimJob(j, now), NoLongerWaiting];
    Wakens(p, l, j, now);
    var u := Served(p, l, m);
    O.MoveKeeps(p, l.sys, m);
    WokenIsQuiet(p, l.sys, u.sys, now);
    WokenIsPickedUp(p, u, j, now);
    One(p, l, m);
    Join(p, l, [m], rest);
    run := [m] + rest;
  }

  lemma {:induction false} QuietRuns(p: C.Policy, s: Sys, run: seq<Move>, j: JobId)
    requires Legal(p, s, run) && forall k | 0 <= k < |run| :: !run[k].WaitReported?
    ensures NeverRenews(p, s, run, j)
    decreases |run|
  {
    if run == [] {
    } else {
      assert !run[0].WaitReported?;
      QuietRuns(p, Next(p, s, run[0]), run[1..], j);
    }
  }

  lemma WaitingHasNoReport(s: Sys, j: JobId)
    requires X.Ok(s) && j in s.desk.jobs && s.desk.jobs[j].status.ExternalWaiting?
    ensures j !in s.desk.terminals && j !in s.desk.outbox
  {
    forall i | i in s.desk.terminals
      ensures i != j
    {
      assert X.NoteOk(s, i);
    }
    assert j in s.desk.outbox.Keys <==> j in s.desk.terminals.Keys;
  }

  lemma NotFreeableIsStuck(p: C.Policy, l: Live, run: seq<Move>, j: JobId)
    requires X.Ok(l.sys) && WaitOk(l.sys, j) && Frees(p, l, run, j)
    requires j in l.sys.desk.jobs && l.sys.desk.jobs[j].status.ExternalWaiting?
    ensures Freeable(l.sys.desk, j)
  {
    if !Freeable(l.sys.desk, j) {
      WaitingHasNoReport(l.sys, j);
      OrderlyIsLegal(p, l, run);
      StuckStays(p, l.sys, run, j);
      assert false;
    }
  }

  /** The worker restarts, whatever is due is put off, and then the wake restores the job. */
  lemma FreedBy(p: C.Policy, l: Live, j: JobId) returns (run: seq<Move>)
    requires E.Sound(l.sys) && WaitOk(l.sys, j) && D.AllInStep(l.sys.desk)
    requires j in l.sys.desk.jobs && l.sys.desk.jobs[j].status.ExternalWaiting? && Freeable(l.sys.desk, j)
    ensures Frees(p, l, run, j)
  {
    var now := Max(l.pass, l.sys.desk.jobs[j].due);
    var u := Restarts(p, l, j, now);
    var a, v := D.DrainAll(p, u, j, now);
    DrainedIsFit(p, u, a, v, j, now);
    var b := Restores(p, v, j, now);
    One(p, l, Crash);
    Join(p, u, a, b);
    Join(p, l, [Crash], a + b);
    run := [Crash] + (a + b);
    OrderlyIsLegal(p, l, run);
    QuietRuns(p, l.sys, run, j);
  }

  lemma Restarts(p: C.Policy, l: Live, j: JobId, now: Time) returns (u: Live)
    requires E.Sound(l.sys) && WaitOk(l.sys, j) && D.AllInStep(l.sys.desk) && l.pass <= now
    requires j in l.sys.desk.jobs && l.sys.desk.jobs[j].status.ExternalWaiting?
    ensures Serves(p, l, Crash) && u == Served(p, l, Crash) && u.sys.desk == l.sys.desk
    ensures D.Fit(u, j, now) && WaitOk(u.sys, j) && j !in u.sys.desk.outbox
  {
    u := Served(p, l, Crash);
    E.MoveSound(p, l.sys, Crash);
    D.InStepIsHealthy(l.sys);
    WaitingHasNoReport(l.sys, j);
  }

  lemma DrainedIsFit(p: C.Policy, l: Live, run: seq<Move>, u: Live, j: JobId, now: Time)
    requires D.Fit(l, j, now) && D.PutsOff(p, l, run, u, j, now) && WaitOk(l.sys, j)
    ensures WaitOk(u.sys, j) && O.Ok(u.sys)
  {
    OrderlyIsLegal(p, l, run);
    WaitsBelong(p, l.sys, run, j);
  }

  /**
   While all reports are in step, an `external_waiting` job can get back to `launched` without a newer wait if and only
   if its wait is not yet resumed, and is ready or can be woken by its issue.
   */
  lemma RestorableIff(p: C.Policy, clock: Time, prefix: seq<Move>, j: JobId)
    requires Orderly(p, Live(Start(clock), clock), prefix)
    requires
      var l := After(p, Live(Start(clock), clock), prefix);
      D.AllInStep(l.sys.desk) && j in l.sys.desk.jobs && l.sys.desk.jobs[j].status.ExternalWaiting?
    ensures
      var l := After(p, Live(Start(clock), clock), prefix);
      && j in l.sys.desk.waits
      && ((exists run :: Frees(p, l, run, j)) <==> Freeable(l.sys.desk, j))
  {
    var start := Live(Start(clock), clock);
    var l := After(p, start, prefix);
    E.StartSound(clock);
    D.OrderlySound(p, start, prefix);
    OrderlyIsLegal(p, start, prefix);
    WaitsBelong(p, start.sys, prefix, j);
    if Freeable(l.sys.desk, j) {
      var run := FreedBy(p, l, j);
    }
    forall run | Frees(p, l, run, j)
      ensures Freeable(l.sys.desk, j)
    {
      NotFreeableIsStuck(p, l, run, j);
    }
  }
}
