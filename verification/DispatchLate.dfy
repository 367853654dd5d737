/** A job that enters CI while `report_pending`: some orderly run from there on parts its report from its status. */
module DispatchLate {
  import opened Basics
  import opened Delays
  import opened Jobs
  import opened DispatchTables
  import opened DispatchProtocol
  import opened DispatchTurns
  import opened DispatchEngaged
  import opened DispatchDrain
  import C = CiTables
  import P = CiProtocol
  import D = CiDeferrals
  import O = DispatchOrder
  import X = DispatchOutbox
  import S = DispatchStuck

  // ---------- entering CI ----------

  /** The poll of a `report_pending` job is about to hand it to CI. */
  ghost predicate EntersLate(p: C.Policy, l: Live, e: C.Entry) {
    && Sound(l.sys) && Serves(p, l, EnterCi(e)) && C.BeginWait(CiTablesOf(l.sys), e, l.sys.hold.now).Some?
    && StatusOf(l.sys, l.sys.hold.job).ReportPending? && AllInStep(l.sys.desk) && S.WaitOk(l.sys, l.sys.hold.job)
  }

  lemma Enters(p: C.Policy, l: Live, e: C.Entry)
    requires EntersLate(p, l, e)
    ensures
      var u := Served(p, l, EnterCi(e));
      var j := l.sys.hold.job;
      && u.pass == l.pass && u.sys.desk == l.sys.desk && Idle(u.sys)
      && j in u.sys.ci.tasks && C.IsSha(u.sys.ci.tasks[j].head)
  {
    var s := l.sys;
    var t := C.BeginWait(CiTablesOf(s), e, s.hold.now).value;
    assert t.jobs == s.desk.jobs && e.Matches(t.tasks[e.job]);
  }

  lemma EntryWaits(s: Sys, j: JobId)
    requires Sound(s) && O.InFlight(s.desk, j) && j in s.ci.tasks
    ensures s.ci.tasks[j].state == C.WaitingCi
  {
    ClaimableIsLaunchable(s.desk, j);
    assert Engages(s, j);
  }

  lemma EntryIsFit(p: C.Policy, l: Live, e: C.Entry, now: Time)
    requires EntersLate(p, l, e) && l.pass <= now
    ensures
      var u := Served(p, l, EnterCi(e));
      && p.Valid() && Fit(u, l.sys.hold.job, now) && WaitsInCi(u.sys, l.sys.hold.job)
      && O.InFlight(u.sys.desk, l.sys.hold.job)
  {
    Enters(p, l, e);
    MoveSound(p, l.sys, EnterCi(e));
    InStepIsHealthy(l.sys);
    EntryWaits(Served(p, l, EnterCi(e)).sys, l.sys.hold.job);
  }

  // ---------- a result of its own ----------

  const LOST := "unusable result"

  /** The job after a permanent failure to fetch its result. */
  function Failed(job: Job, now: Time): Job {
    job.(preOutbox := job.preOutbox + 1, due := now + PreOutboxRetryDelay(job.preOutbox + 1), lastError := LOST)
  }

  function Reported(d: Desk, j: JobId, now: Time): Desk
    requires j in d.jobs
  {
    var job := Failed(d.jobs[j], now);
    var result := ProjectionFailure(job, LOST);
    d.(terminals := d.terminals[j := result], outbox := d.outbox[j := NewNotice(d, job, result, now)],
       jobs := d.jobs[j := job.(status := ReportPending, due := now, lastError := "", preOutbox := 0)])
  }

  lemma ClaimAgain(p: C.Policy, l: Live, j: JobId, now: Time)
    requires Fit(l, j, now) && O.InFlight(l.sys.desk, j) && l.sys.desk.jobs[j].due <= now && Quiet(p, l.sys, now)
    requires l.sys.desk.jobs[j].status.ReportPending?
    ensures Serves(p, l, ClaimJob(j, now))
            && Served(p, l, ClaimJob(j, now)) == Live(l.sys.(hold := Polling(j, now)), now)
  {
    X.InFlightIsHead(l.sys, j);
  }

  function FailMove(job: Job, now: Time): Move {
    ProjectionFailed(ReportPending, false, now + PreOutboxRetryDelay(job.preOutbox + 1), LOST)
  }

  lemma Fails(p: C.Policy, l: Live, j: JobId, now: Time)
    requires l.sys.hold == Polling(j, now) && j in l.sys.desk.jobs && l.sys.desk.jobs[j].status.ReportPending?
    requires j !in l.sys.desk.terminals
    ensures
      var m := FailMove(l.sys.desk.jobs[j], now);
      var d := Put(l.sys.desk, j, Failed(l.sys.desk.jobs[j], now));
      Serves(p, l, m) && Served(p, l, m) == Live(l.sys.(desk := d, hold := Failing(j, now)), l.pass)
  {
    assert JobOf(l.sys) == l.sys.desk.jobs[j];
  }

  lemma QueuesFailure(d: Desk, j: JobId, now: Time)
    requires j in d.jobs && d.jobs[j].status.ReportPending? && d.jobs[j].run != "" && j !in d.terminals
             && j !in d.outbox
    ensures
      var job := Failed(d.jobs[j], now);
      QueueResult(Put(d, j, job), j, ProjectionFailure(job, LOST), now) == Some(Reported(d, j, now))
  {
    var job := Failed(d.jobs[j], now);
    var queued := job.(status := ReportPending, due := now, lastError := "", preOutbox := 0);
    assert d.jobs[j := job][j := queued] == d.jobs[j := queued];
    assert NewNotice(Put(d, j, job), job, ProjectionFailure(job, LOST), now)
        == NewNotice(d, job, ProjectionFailure(job, LOST), now);
  }

  lemma Queues(p: C.Policy, l: Live, d: Desk, j: JobId, now: Time)
    requires j in d.jobs && d.jobs[j].status.ReportPending? && d.jobs[j].run != "" && j !in d.terminals
             && j !in d.outbox
    requires l.sys.desk == Put(d, j, Failed(d.jobs[j], now)) && l.sys.hold == Failing(j, now)
    ensures
      var m := QueueFailure(LOST);
      Serves(p, l, m) && Served(p, l, m) == Live(l.sys.(desk := Reported(d, j, now), hold := Free), l.pass)
  {
    QueuesFailure(d, j, now);
    assert JobOf(l.sys) == Failed(d.jobs[j], now);
  }

  /** The next poll of the job cannot get its result, and a failure report is queued. */
  lemma ReportsLate(p: C.Policy, l: Live, j: JobId, now: Time) returns (run: seq<Move>, u: Live)
    requires Fit(l, j, now) && O.InFlight(l.sys.desk, j) && l.sys.desk.jobs[j].due <= now && Quiet(p, l.sys, now)
    requires l.sys.desk.jobs[j].status.ReportPending? && l.sys.desk.jobs[j].run != ""
    ensures Orderly(p, l, run) && After(p, l, run) == u
    ensures u == Live(l.sys.(desk := Reported(l.sys.desk, j, now)), now)
  {
    ClaimAgain(p, l, j, now);
    var v := Served(p, l, ClaimJob(j, now));
    var rest;
    rest, u := PollFails(p, v, j, now);
    One(p, l, ClaimJob(j, now));
    Join(p, l, [ClaimJob(j, now)], rest);
    run := [ClaimJob(j, now)] + rest;
  }

  lemma PollFails(p: C.Policy, l: Live, j: JobId, now: Time) returns (run: seq<Move>, u: Live)
    requires l.sys.hold == Polling(j, now) && j in l.sys.desk.jobs && l.sys.desk.jobs[j].status.ReportPending?
    requires l.sys.desk.jobs[j].run != "" && j !in l.sys.desk.terminals && j !in l.sys.desk.outbox
    ensures Orderly(p, l, run) && After(p, l, run) == u
    ensures u == Live(l.sys.(desk := Reported(l.sys.desk, j, now), hold := Free), l.pass)
  {
    var m, n := FailMove(l.sys.desk.jobs[j], now), QueueFailure(LOST);
    Fails(p, l, j, now);
    Queues(p, Served(p, l, m), l.sys.desk, j, now);
    Two(p, l, m, n);
    run, u := [m, n], Served(p, Served(p, l, m), n);
  }

  lemma ReportedIsFit(p: C.Policy, l: Live, run: seq<Move>, u: Live, j: JobId, now: Time)
    requires Fit(l, j, now) && WaitsInCi(l.sys, j) && Orderly(p, l, run) && After(p, l, run) == u
             && j !in l.sys.desk.outbox
    requires u == Live(l.sys.(desk := Reported(l.sys.desk, j, now)), now)
    ensures Fit(u, j, now) && WaitsInCi(u.sys, j)
    ensures j in u.sys.desk.terminals && j in u.sys.desk.outbox && u.sys.desk.outbox[j].state.Pending?
  {
    OrderlySound(p, l, run);
    assert Healthy(u.sys.desk) && WaitsInCi(u.sys, j);
  }

  // ---------- and CI's verdict ----------

  lemma VerdictSteps(p: C.Policy, t: C.Tables, j: JobId, now: Time)
    requires p.Valid() && j in t.tasks && j in t.jobs && t.tasks[j].state == C.WaitingCi && C.IsSha(t.tasks[j].head)
    requires NextRec(t, C.RecId(j, t.tasks[j].head), now)
    ensures
      var r := C.RecId(j, t.tasks[j].head);
      var s, a := P.Sys(t, P.Idle), P.ClaimRec(r, now);
      var b := P.Apply(C.Observation(t.tasks[j].repository, t.tasks[j].pull, t.tasks[j].head, C.Success), now);
      && P.Enabled(s, a) && P.Enabled(P.Step(p, s, a), b)
      && P.Step(p, P.Step(p, s, a), b).t.jobs == t.jobs[j := t.jobs[j].(status := Completed)]
  {}

  lemma Completes(p: C.Policy, l: Live, j: JobId, now: Time) returns (run: seq<Move>)
    requires p.Valid() && Idle(l.sys) && l.pass <= now && EscalationsQuiet(T(l), now) && WaitsInCi(l.sys, j)
    requires C.IsSha(l.sys.ci.tasks[j].head) && NextRec(T(l), C.RecId(j, l.sys.ci.tasks[j].head), now)
    ensures Orderly(p, l, run)
    ensures After(p, l, run).sys.desk == l.sys.desk.(jobs :=
            l.sys.desk.jobs[j := l.sys.desk.jobs[j].(status := Completed)])
  {
    var task := l.sys.ci.tasks[j];
    var a := P.ClaimRec(C.RecId(j, task.head), now);
    var b := P.Apply(C.Observation(task.repository, task.pull, task.head, C.Success), now);
    VerdictSteps(p, T(l), j, now);
    var u;
    run, u := CiPass(p, l, a, b, now);
  }

  lemma CompletedIsTorn(d: Desk, j: JobId)
    requires j in d.terminals && j in d.outbox && j in d.jobs && d.outbox[j].state.Pending?
    ensures Torn(d.(jobs := d.jobs[j := d.jobs[j].(status := Completed)]), j)
  {}

  lemma DeadlineIsOpen(t: C.Tables, j: JobId, now: Time)
    requires j in t.tasks && t.tasks[j].state == C.WaitingCi && t.tasks[j].deadline <= now
    ensures C.RecId(j, t.tasks[j].head) in OpenRecs(t, now)
  {
    D.DueAfterWake(t, C.RecId(j, t.tasks[j].head), now);
  }

  /** Once its deadline has passed, the head of `j` can be brought first in line, whatever else is due. */
  lemma Leading(p: C.Policy, l: Live, j: JobId, now: Time) returns (run: seq<Move>, u: Live)
    requires p.Valid() && Fit(l, j, now) && WaitsInCi(l.sys, j) && l.sys.ci.tasks[j].deadline <= now
    ensures PutsOff(p, l, run, u, j, now) && EscalationsQuiet(T(u), now)
    ensures NextRec(T(u), C.RecId(j, l.sys.ci.tasks[j].head), now)
  {
    var a, v := DrainEscalations(p, l, j, now);
    DeadlineIsOpen(T(v), j, now);
    var b;
    b, u := DrainRecsTo(p, v, C.RecId(j, l.sys.ci.tasks[j].head), j, now);
    Chain(p, l, a, v, b, u, j, now);
    run := a + b;
  }

  // ---------- together ----------

  /** The report of `j` is queued, and its job and its task still wait. */
  ghost predicate Queued(p: C.Policy, l: Live, j: JobId, now: Time) {
    && p.Valid() && Fit(l, j, now) && WaitsInCi(l.sys, j) && C.IsSha(l.sys.ci.tasks[j].head)
    && j in l.sys.desk.terminals && j in l.sys.desk.outbox && l.sys.desk.outbox[j].state.Pending?
  }

  lemma UpToReport(p: C.Policy, l: Live, e: C.Entry) returns (run: seq<Move>, u: Live, now: Time)
    requires EntersLate(p, l, e)
    ensures Orderly(p, l, run) && After(p, l, run) == u && run != [] && run[0] == EnterCi(e)
    ensures e.job == l.sys.hold.job && Queued(p, u, e.job, now)
  {
    var j := l.sys.hold.job;
    now := Max(l.pass, l.sys.desk.jobs[j].due);
    Enters(p, l, e);
    EntryIsFit(p, l, e, now);
    var v := Served(p, l, EnterCi(e));
    var a, w := DrainAll(p, v, j, now);
    var b;
    b, u := ReportsLate(p, w, j, now);
    ReportedIsFit(p, w, b, u, j, now);
    Join(p, v, a, b);
    One(p, l, EnterCi(e));
    Join(p, l, [EnterCi(e)], a + b);
    run := [EnterCi(e)] + (a + b);
  }

  lemma FromReport(p: C.Policy, l: Live, j: JobId, now: Time) returns (run: seq<Move>)
    requires Queued(p, l, j, now)
    ensures Orderly(p, l, run) && Torn(After(p, l, run).sys.desk, j)
  {
    var later := Max(now, l.sys.ci.tasks[j].deadline);
    var a, v := Leading(p, l, j, later);
    var b := Completes(p, v, j, later);
    CompletedIsTorn(v.sys.desk, j);
    Join(p, l, a, b);
    run := a + b;
  }

  lemma Tears(p: C.Policy, l: Live, e: C.Entry) returns (rest: seq<Move>)
    requires EntersLate(p, l, e)
    ensures rest != [] && rest[0] == EnterCi(e) && Orderly(p, l, rest) && Torn(After(p, l, rest).sys.desk, e.job)
  {
    var a, u, now := UpToReport(p, l, e);
    var b := FromReport(p, u, e.job, now);
    Join(p, l, a, b);
    rest := a + b;
  }

  lemma TearsAfter(p: C.Policy, clock: Time, prefix: seq<Move>, e: C.Entry) returns (rest: seq<Move>)
    requires Orderly(p, Live(Start(clock), clock), prefix)
    requires
      var l := After(p, Live(Start(clock), clock), prefix);
      && Serves(p, l, EnterCi(e)) && C.BeginWait(CiTablesOf(l.sys), e, l.sys.hold.now).Some?
      && StatusOf(l.sys, l.sys.hold.job).ReportPending? && AllInStep(l.sys.desk)
    ensures rest != [] && rest[0] == EnterCi(e) && Orderly(p, Live(Start(clock), clock), prefix + rest)
    ensures
      var d := After(p, Live(Start(clock), clock), prefix + rest).sys.desk;
      && Torn(d, e.job) && !X.InStep(d, e.job)
  {
    var start := Live(Start(clock), clock);
    var l := After(p, start, prefix);
    StartSound(clock);
    OrderlySound(p, start, prefix);
    OrderlyIsLegal(p, start, prefix);
    S.WaitsBelong(p, start.sys, prefix, l.sys.hold.job);
    rest := Tears(p, l, e);
    Join(p, start, prefix, rest);
    TornIsOutOfStep(After(p, l, rest).sys.desk, e.job);
  }

  /** The run ends with a report of `j` that its job no longer waits for. */
  ghost predicate EndsTorn(p: C.Policy, l: Live, run: seq<Move>, j: JobId) {
    Orderly(p, l, run) && Torn(After(p, l, run).sys.desk, j) && !X.InStep(After(p, l, run).sys.desk, j)
  }

  /**
   Whenever the poll of a `report_pending` job hands it to CI, an orderly continuation ends with CI completing the job
   while a failure report of its own is still to be delivered: the rule that keeps them in step has no other exception
   than this entry.
   */
  lemma EnteringLateTears(p: C.Policy, clock: Time, prefix: seq<Move>, e: C.Entry)
    requires Orderly(p, Live(Start(clock), clock), prefix)
    requires
      var l := After(p, Live(Start(clock), clock), prefix);
      && Serves(p, l, EnterCi(e)) && C.BeginWait(CiTablesOf(l.sys), e, l.sys.hold.now).Some?
      && StatusOf(l.sys, l.sys.hold.job).ReportPending? && AllInStep(l.sys.desk)
    ensures exists rest ::
              rest != [] && rest[0] == EnterCi(e) && EndsTorn(p, Live(Start(clock), clock), prefix + rest, e.job)
  {
    var rest := TearsAfter(p, clock, prefix, e);
    assert EndsTorn(p, Live(Start(clock), clock), prefix + rest, e.job);
  }
}
