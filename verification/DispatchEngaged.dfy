/**
 Jobs in CI, however they entered: what their status still says about their task, and what a report out of step leads
 to.
 */
module DispatchEngaged {
  import opened Basics
  import opened Jobs
  import opened DispatchTables
  import opened DispatchProtocol
  import opened DispatchTurns
  import C = CiTables
  import P = CiProtocol
  import J = CiJobs
  import O = DispatchOrder
  import X = DispatchOutbox

  // ---------- an invariant of all runs ----------

  /** A job whose task is past waiting is out of the launch order, and shows the repair or escalation under way. */
  predicate Engages(s: Sys, i: JobId) {
    J.MirrorsJob(CiTablesOf(s), i, false)
  }

  ghost predicate Sound(s: Sys) {
    X.Ok(s) && forall i :: Engages(s, i)
  }

  lemma ClaimableIsLaunchable(d: Desk, j: JobId)
    requires Claimable(d, j)
    ensures J.Launchable(d.jobs[j].status)
  {}

  lemma CiEngages(p: C.Policy, s: Sys, m: Move, i: JobId)
    requires X.Ok(s) && Can(s, m) && (m.Ci? || m.CiEvent?) && Engages(s, i)
    ensures Engages(Next(p, s, m), i)
  {
    J.CiMirrors(p, CiView(s), if m.Ci? then m.op else P.Webhook(m.event, m.now), i, false);
    O.CiMoves(p, s, m);
  }

  lemma EnterTasks(p: C.Policy, s: Sys, m: Move, i: JobId)
    requires Can(s, m) && m.EnterCi?
    ensures
      var u := Next(p, s, m);
      && (i in s.ci.tasks ==> i in u.ci.tasks && u.ci.tasks[i] == s.ci.tasks[i])
      && (i in u.ci.tasks && i !in s.ci.tasks ==> i == m.entry.job && u.ci.tasks[i] == m.entry.NewTask())
  {}

  lemma EnterEngages(p: C.Policy, s: Sys, m: Move, i: JobId)
    requires X.Ok(s) && Can(s, m) && m.EnterCi? && Engages(s, i)
    ensures Engages(Next(p, s, m), i)
  {
    O.EnterShape(p, s, m);
    EnterTasks(p, s, m, i);
    ClaimableIsLaunchable(s.desk, s.hold.job);
  }

  lemma ReportEngages(p: C.Policy, s: Sys, m: Move)
    requires O.HoldOk(s) && Can(s, m) && (m.Posted? || m.PostFailed?) && Engages(s, s.hold.job)
    ensures Engages(Next(p, s, m), s.hold.job)
  {}

  lemma AnswerEngages(p: C.Policy, s: Sys, m: Move, i: JobId)
    requires X.Ok(s) && Can(s, m) && O.IsAnswer(m) && Engages(s, i)
    ensures Engages(Next(p, s, m), i)
  {
    O.AnswerTouches(p, s, m);
    if s.hold.Reporting? {
      if i == s.hold.job {
        ReportEngages(p, s, m);
      }
    } else {
      ClaimableIsLaunchable(s.desk, s.hold.job);
    }
  }

  lemma OtherEngages(p: C.Policy, s: Sys, m: Move, i: JobId)
    requires X.Ok(s) && Can(s, m) && Engages(s, i)
    requires m.Arrive? || m.IssueEvent? || m.Operator? || m.Crash? || m.ClaimNotice? || m.ClaimJob?
    ensures Engages(Next(p, s, m), i)
  {
    if m.Arrive? {
      O.RecordShape(s.desk, m.signal, m.now);
      O.NextIdIsNew(s);
    } else if m.IssueEvent? {
      O.WakeShape(s.desk, m.repository, m.issue, m.now);
    }
  }

  lemma MoveEngages(p: C.Policy, s: Sys, m: Move, i: JobId)
    requires X.Ok(s) && Can(s, m) && Engages(s, i)
    ensures Engages(Next(p, s, m), i)
  {
    if m.Ci? || m.CiEvent? {
      CiEngages(p, s, m, i);
    } else if m.EnterCi? {
      EnterEngages(p, s, m, i);
    } else if O.IsAnswer(m) {
      AnswerEngages(p, s, m, i);
    } else {
      OtherEngages(p, s, m, i);
    }
  }

  lemma MoveSound(p: C.Policy, s: Sys, m: Move)
    requires Sound(s) && Can(s, m)
    ensures Sound(Next(p, s, m))
  {
    X.MoveKeeps(p, s, m);
    forall i
      ensures Engages(Next(p, s, m), i)
    {
      MoveEngages(p, s, m, i);
    }
  }

  lemma {:induction false} RunSound(p: C.Policy, s: Sys, run: seq<Move>)
    requires Sound(s) && Legal(p, s, run)
    ensures Sound(Exec(p, s, run))
    decreases |run|
  {
    if run == [] {
    } else {
      MoveSound(p, s, run[0]);
      RunSound(p, Next(p, s, run[0]), run[1..]);
    }
  }

  lemma StartSound(clock: Time)
    ensures Sound(Start(clock))
  {}

  // ---------- a report out of step ----------

  /** The report of `j` is still to be delivered, but its job no longer waits for it and is out of the launch order. */
  predicate Torn(d: Desk, j: JobId) {
    && j in d.terminals && j in d.outbox && j in d.jobs && d.outbox[j].Open() && !Claimable(d, j)
    && !d.jobs[j].status.ReportPending? && !d.jobs[j].status.ReportRetry?
  }

  lemma TornIsOutOfStep(d: Desk, j: JobId)
    requires Torn(d, j)
    ensures !X.InStep(d, j)
  {}

  lemma AnswerStaysTorn(p: C.Policy, s: Sys, m: Move, j: JobId)
    requires O.Ok(s) && Can(s, m) && O.IsAnswer(m) && Torn(s.desk, j)
    ensures Torn(Next(p, s, m).desk, j) && Next(p, s, m).desk.outbox[j] == s.desk.outbox[j]
  {
    O.AnswerTouches(p, s, m);
    if s.hold.Reporting? && s.hold.job == j {
      RefusedReport(p, s, m);
    }
  }

  /** Neither a success nor a failure of such a report can be recorded. */
  lemma RefusedReport(p: C.Policy, s: Sys, m: Move)
    requires Can(s, m) && (m.Posted? || m.PostFailed?) && Torn(s.desk, s.hold.job)
    ensures Next(p, s, m) == s.(hold := Free)
  {}

  lemma CiStaysTorn(p: C.Policy, s: Sys, m: Move, j: JobId)
    requires O.Ok(s) && Can(s, m) && (m.Ci? || m.CiEvent?) && Torn(s.desk, j)
    ensures Torn(Next(p, s, m).desk, j) && Next(p, s, m).desk.outbox[j] == s.desk.outbox[j]
  {
    J.CiOnlyParks(p, CiView(s), if m.Ci? then m.op else P.Webhook(m.event, m.now));
    ParkedStaysTorn(s, Next(p, s, m), j);
  }

  lemma ParkedStaysTorn(s: Sys, u: Sys, j: JobId)
    requires Torn(s.desk, j) && J.OnlyParks(CiTablesOf(s), u.ci) && u.desk == s.desk.(jobs := u.ci.jobs)
    ensures Torn(u.desk, j) && u.desk.outbox[j] == s.desk.outbox[j]
  {}

  lemma OtherStaysTorn(p: C.Policy, s: Sys, m: Move, j: JobId)
    requires O.Ok(s) && Can(s, m) && Torn(s.desk, j)
    requires m.Arrive? || m.IssueEvent? || m.Operator? || m.Crash? || m.ClaimNotice? || m.ClaimJob? || m.EnterCi?
    ensures Torn(Next(p, s, m).desk, j) && Next(p, s, m).desk.outbox[j] == s.desk.outbox[j]
  {
    if m.Arrive? {
      O.RecordShape(s.desk, m.signal, m.now);
      O.NextIdIsNew(s);
    } else if m.IssueEvent? {
      O.WakeShape(s.desk, m.repository, m.issue, m.now);
    } else if m.EnterCi? {
      O.EnterShape(p, s, m);
    }
  }

  lemma StaysTorn(p: C.Policy, s: Sys, m: Move, j: JobId)
    requires O.Ok(s) && Can(s, m) && Torn(s.desk, j)
    ensures Torn(Next(p, s, m).desk, j) && Next(p, s, m).desk.outbox[j] == s.desk.outbox[j]
  {
    if O.IsAnswer(m) {
      AnswerStaysTorn(p, s, m, j);
    } else if m.Ci? || m.CiEvent? {
      CiStaysTorn(p, s, m, j);
    } else {
      OtherStaysTorn(p, s, m, j);
    }
  }

  /**
   Over every run a report out of step stays so: it is neither delivered nor blocked, and no operator can requeue it.
   */
  lemma {:induction false} TornForever(p: C.Policy, s: Sys, run: seq<Move>, j: JobId)
    requires O.Ok(s) && Legal(p, s, run) && Torn(s.desk, j)
    ensures
      var d := Exec(p, s, run).desk;
      && Torn(d, j) && d.outbox[j] == s.desk.outbox[j]
      && forall run, key, now :: Requeue(d, j, run, key, now).None?
    decreases |run|
  {
    if run == [] {
    } else {
      StaysTorn(p, s, run[0], j);
      O.MoveKeeps(p, s, run[0]);
      TornForever(p, Next(p, s, run[0]), run[1..], j);
    }
  }

  /**
   And once it is due, every pass that gets past CI repair is spent on a notice: no job is claimed any more, so nothing
   is launched or polled again.
   */
  lemma {:induction false} TornStopsLaunches(p: C.Policy, l: Live, run: seq<Move>, j: JobId)
    requires O.Ok(l.sys) && Orderly(p, l, run) && Torn(l.sys.desk, j) && l.sys.desk.outbox[j].due <= l.pass
    ensures forall k | 0 <= k < |run| :: !run[k].ClaimJob?
    decreases |run|
  {
    if run == [] {
    } else {
      NoJobClaimed(p, l, run[0], j);
      StaysTorn(p, l.sys, run[0], j);
      O.MoveKeeps(p, l.sys, run[0]);
      PassesGoOn(p, l, run[0]);
      TornStopsLaunches(p, Served(p, l, run[0]), run[1..], j);
    }
  }

  lemma NoJobClaimed(p: C.Policy, l: Live, m: Move, j: JobId)
    requires Serves(p, l, m) && Torn(l.sys.desk, j) && l.sys.desk.outbox[j].due <= l.pass
    ensures !m.ClaimJob?
  {
    forall now | now >= l.pass
      ensures DueNotices(l.sys.desk, now) != {}
    {
      assert j in DueNotices(l.sys.desk, now);
    }
  }

  lemma PassesGoOn(p: C.Policy, l: Live, m: Move)
    requires Serves(p, l, m)
    ensures l.pass <= Served(p, l, m).pass
  {}
}
