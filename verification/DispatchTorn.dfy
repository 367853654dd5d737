/** Runs in which CI finishes a job whose own report is still open: the job entered CI while `report_pending`. */
module DispatchTorn {
  import opened Basics
  import opened Delays
  import opened Jobs
  import opened DispatchTables
  import opened DispatchProtocol
  import opened DispatchTurns
  import opened DispatchWitness
  import C = CiTables
  import P = CiProtocol
  import E = DispatchEngaged
  import X = DispatchOutbox

  const RESULT := TerminalResult(RESULT_VERSION, "run", "model", "org/repo", RunFailed, true, false, Text("gone"))
  const ENTRY := EntryAt(4000)

  // ---------- entering late ----------

  const FAILED_ONCE := Row(ReportPending, 1, 4000, "timeout")
  const JOBS := map[1 := FAILED_ONCE]
  const FRESH := C.Rec(C.Queued, false, false, 0, 4000)
  const PUT_OFF := Taken(FRESH, 4000).(state := C.Queued, operations := 1, due := 6000)

  function Entered(rec: C.Rec, ciHold: P.Hold, hold: Hold): Live {
    Live(InCi(DeskOf(FAILED_ONCE), ENTRY, rec, JOBS, ciHold, hold), 4000)
  }

  lemma FailsOnce()
    ensures Steps(FOLLOWED, LATE[0], Live(Plain(DeskOf(FAILED_ONCE), Free), 2000))
  {
    assert map[1 := LAUNCHED][1 := FAILED_ONCE] == JOBS;
  }

  lemma Enters()
    ensures Steps(Live(Plain(DeskOf(FAILED_ONCE), Polling(1, 4000)), 4000), LATE[2], Entered(FRESH, P.Idle, Free))
  {
    EntersCi(FAILED_ONCE, 4000);
  }

  lemma PutsOff()
    ensures Steps(Entered(Taken(FRESH, 4000), P.Observing(REC, 0), Free), LATE[4], Entered(PUT_OFF, P.Idle, Free))
  {
    assert map[REC := Taken(FRESH, 4000)][REC := PUT_OFF] == map[REC := PUT_OFF];
  }

  /** Before 6000 the put-off reconciliation leaves CI repair with nothing to do. */
  lemma CiIsQuiet(desk: Desk, now: Time)
    requires now < 6000
    ensures CiQuiet(CiTablesOf(InCi(desk, ENTRY, PUT_OFF, JOBS, P.Idle, Free)), now)
  {
    NotYetDue(CiTablesOf(InCi(desk, ENTRY, PUT_OFF, JOBS, P.Idle, Free)), ENTRY, now);
  }

  lemma ClaimsAgain()
    ensures Steps(Entered(PUT_OFF, P.Idle, Free), LATE[5], Entered(PUT_OFF, P.Idle, Polling(1, 4000)))
  {
    OnlyJob(DeskOf(FAILED_ONCE));
    CiIsQuiet(DeskOf(FAILED_ONCE), 4000);
  }

  // ---------- the report of the run ----------

  const NOTICE := Notice(0, RESULT_VERSION, Body(CANDIDATE.Key(), RESULT), ReportKey(CANDIDATE.Key(), RESULT_VERSION),
                         NoticeState.Pending, 0, 4000, "", None)

  function Reported(job: Job, notice: Notice): Desk {
    DeskOf(job).(terminals := map[1 := RESULT], outbox := map[1 := notice])
  }

  const QUEUED := Row(ReportPending, 0, 4000, "")
  const REPORTING := Live(InCi(Reported(QUEUED, NOTICE), ENTRY, PUT_OFF, JOBS, P.Idle, Reporting(1, 0, 4000)), 4000)

  const GONE := Row(ReportPending, 2, 8000, "gone")

  lemma Fails()
    ensures Steps(Entered(PUT_OFF, P.Idle, Polling(1, 4000)), LATE[6],
                  Live(InCi(DeskOf(GONE), ENTRY, PUT_OFF, JOBS, P.Idle, Failing(1, 4000)), 4000))
  {
    BackOffDoubles(STATUS_POLL_INTERVAL, 5, MINUTE, 1);
    assert map[1 := FAILED_ONCE][1 := GONE] == map[1 := GONE];
  }

  lemma Reports()
    ensures Steps(Live(InCi(DeskOf(GONE), ENTRY, PUT_OFF, JOBS, P.Idle, Failing(1, 4000)), 4000), LATE[7],
                  Live(InCi(Reported(QUEUED, NOTICE), ENTRY, PUT_OFF, JOBS, P.Idle, Free), 4000))
  {
    assert map[1 := GONE][1 := QUEUED] == map[1 := QUEUED];
  }

  lemma ClaimsNotice()
    ensures Steps(Live(InCi(Reported(QUEUED, NOTICE), ENTRY, PUT_OFF, JOBS, P.Idle, Free), 4000), LATE[8], REPORTING)
  {
    CiIsQuiet(Reported(QUEUED, NOTICE), 4000);
    assert DueNotices(Reported(QUEUED, NOTICE), 4000) == {1};
  }

  const LATE: seq<Move> := [
    ProjectionFailed(ReportPending, true, 4000, "timeout"), ClaimJob(1, 4000), EnterCi(ENTRY),
    Ci(P.ClaimRec(REC, 4000)), Ci(P.FailObserve(C.Retryable, 4000)),
    ClaimJob(1, 4000), ProjectionFailed(ReportPending, false, 8000, "gone"), QueueFailure("gone"), ClaimNotice(1, 4000)]

  lemma FromPoll()
    ensures Leads(POLICY, Entered(PUT_OFF, P.Idle, Free), LATE, 5, REPORTING)
  {
    Arrived(POLICY, LATE, REPORTING);
    ClaimsNotice();
    Prepend(POLICY, Live(InCi(Reported(QUEUED, NOTICE), ENTRY, PUT_OFF, JOBS, P.Idle, Free), 4000), LATE, 8,
        REPORTING, REPORTING);
    Reports();
    Prepend(POLICY, Live(InCi(DeskOf(GONE), ENTRY, PUT_OFF, JOBS, P.Idle, Failing(1, 4000)), 4000), LATE, 7,
            Live(InCi(Reported(QUEUED, NOTICE), ENTRY, PUT_OFF, JOBS, P.Idle, Free), 4000), REPORTING);
    Fails();
    Prepend(POLICY, Entered(PUT_OFF, P.Idle, Polling(1, 4000)), LATE, 6,
            Live(InCi(DeskOf(GONE), ENTRY, PUT_OFF, JOBS, P.Idle, Failing(1, 4000)), 4000), REPORTING);
    ClaimsAgain();
    Prepend(POLICY, Entered(PUT_OFF, P.Idle, Free), LATE, 5, Entered(PUT_OFF, P.Idle, Polling(1, 4000)), REPORTING);
  }

  lemma FromCi()
    ensures Leads(POLICY, Entered(FRESH, P.Idle, Free), LATE, 3, REPORTING)
  {
    FromPoll();
    PutsOff();
    Prepend(POLICY, Entered(Taken(FRESH, 4000), P.Observing(REC, 0), Free), LATE, 4, Entered(PUT_OFF, P.Idle, Free),
        REPORTING);
    TakesRec(DeskOf(FAILED_ONCE), ENTRY, FRESH, JOBS, 4000, 4000);
    Prepend(POLICY, Entered(FRESH, P.Idle, Free), LATE, 3, Entered(Taken(FRESH, 4000), P.Observing(REC, 0), Free),
        REPORTING);
  }

  lemma IntoCi()
    ensures Leads(POLICY, Live(Plain(DeskOf(FAILED_ONCE), Free), 2000), LATE, 1, REPORTING)
  {
    FromCi();
    Enters();
    Prepend(POLICY, Live(Plain(DeskOf(FAILED_ONCE), Polling(1, 4000)), 4000), LATE, 2, Entered(FRESH, P.Idle, Free),
        REPORTING);
    Polls(DeskOf(FAILED_ONCE), FAILED_ONCE, 2000, 4000);
    Prepend(POLICY, Live(Plain(DeskOf(FAILED_ONCE), Free), 2000), LATE, 1,
            Live(Plain(DeskOf(FAILED_ONCE), Polling(1, 4000)), 4000), REPORTING);
  }

  /**
   Fetching the result fails once, the next poll enters CI, CI puts its first look off, and the poll after that fails
   for good.
   */
  lemma ReportsLate()
    ensures Orderly(POLICY, FOLLOWED, LATE) && After(POLICY, FOLLOWED, LATE) == REPORTING
  {
    IntoCi();
    FailsOnce();
    Prepend(POLICY, FOLLOWED, LATE, 0, Live(Plain(DeskOf(FAILED_ONCE), Free), 2000), REPORTING);
    Whole(POLICY, FOLLOWED, LATE, REPORTING);
  }

  // ---------- CI finishes first ----------

  /** What the failed post leaves: a retry in half a minute, or a blocked report. */
  function Missed(transient: bool): Desk {
    if transient
    then Reported(Row(ReportRetry, 0, 34000, "post failed"),
        NOTICE.(state := Retry, attempts := 1, due := 34000, lastError := "post failed"))
    else Reported(Row(ReportBlocked, 0, 4000, "post failed"),
        NOTICE.(state := Blocked, attempts := 1, lastError := "post failed"))
  }

  function Completion(transient: bool): seq<Move> {
    [PostFailed(transient, "post failed"), Ci(P.ClaimRec(REC, 6000)),
     Ci(P.Apply(C.Observation("org/repo", 7, HEAD, C.Success), 6000))]
  }

  function Observing(d: Desk): Live {
    Live(InCi(d, ENTRY, Taken(PUT_OFF, 6000), d.jobs, P.Observing(REC, 1), Free), 6000)
  }

  lemma PostFails(transient: bool)
    ensures Steps(REPORTING, PostFailed(transient, "post failed"),
                  Live(InCi(Missed(transient), ENTRY, PUT_OFF, JOBS, P.Idle, Free), 4000))
  {
    var d := Missed(transient);
    assert map[1 := QUEUED][1 := d.jobs[1]] == d.jobs && map[1 := NOTICE][1 := d.outbox[1]] == d.outbox;
    assert ReportRetryDelay(1) == 30000;
  }

  lemma Succeeds(d: Desk)
    requires 1 in d.jobs
    ensures
      var m := Ci(P.Apply(C.Observation("org/repo", 7, HEAD, C.Success), 6000));
      && Serves(POLICY, Observing(d), m)
      && Served(POLICY, Observing(d), m).sys.desk == d.(jobs := d.jobs[1 := d.jobs[1].(status := Completed)])
  {
    assert C.IsSha(HEAD);
  }

  lemma LooksAgain(transient: bool, last: Live)
    requires Leads(POLICY, Observing(Missed(transient)), Completion(transient), 2, last)
    ensures Leads(POLICY, Live(InCi(Missed(transient), ENTRY, PUT_OFF, JOBS, P.Idle, Free), 4000),
            Completion(transient), 1, last)
  {
    var d := Missed(transient);
    TakesRec(d, ENTRY, PUT_OFF, JOBS, 4000, 6000);
    Prepend(POLICY, Live(InCi(d, ENTRY, PUT_OFF, JOBS, P.Idle, Free), 4000), Completion(transient), 1, Observing(d),
        last);
  }

  lemma Completes(transient: bool)
    ensures Orderly(POLICY, REPORTING, Completion(transient))
    ensures
      var d := Missed(transient);
      After(POLICY, REPORTING, Completion(transient)).sys.desk
          == d.(jobs := d.jobs[1 := d.jobs[1].(status := Completed)])
  {
    var run, d := Completion(transient), Missed(transient);
    Succeeds(d);
    var last := Served(POLICY, Observing(d), run[2]);
    Arrived(POLICY, run, last);
    Prepend(POLICY, Observing(d), run, 2, last, last);
    LooksAgain(transient, last);
    PostFails(transient);
    Prepend(POLICY, REPORTING, run, 0, Live(InCi(d, ENTRY, PUT_OFF, JOBS, P.Idle, Free), 4000), last);
    Whole(POLICY, REPORTING, run, last);
  }

  ghost function WholeRun(transient: bool): seq<Move> {
    MOVES + LATE + Completion(transient)
  }

  lemma RunEnds(transient: bool)
    ensures Orderly(POLICY, START, WholeRun(transient))
    ensures
      var d := Missed(transient);
      After(POLICY, START, WholeRun(transient)).sys.desk == d.(jobs := d.jobs[1 := d.jobs[1].(status := Completed)])
  {
    Follows();
    ReportsLate();
    Join(POLICY, START, MOVES, LATE);
    Completes(transient);
    Join(POLICY, START, MOVES + LATE, Completion(transient));
  }

  /**
   A report and its job can come apart: the job ends completed while the report of its failed run is still to be
   retried.
   */
  lemma ReportAndJobComeApart()
    ensures Orderly(POLICY, START, WholeRun(true))
    ensures
      var d := After(POLICY, START, WholeRun(true)).sys.desk;
      E.Torn(d, 1) && d.jobs[1].status.Completed? && d.outbox[1].state.Retry? && !X.InStep(d, 1)
  {
    RunEnds(true);
  }

  /** And a blocked report can become one that no operator may requeue, whatever evidence they show. */
  lemma RequeueCanBeRefused()
    ensures Orderly(POLICY, START, WholeRun(false))
    ensures
      var d := After(POLICY, START, WholeRun(false)).sys.desk;
      && 1 in d.terminals && 1 in d.outbox && 1 in d.jobs && d.outbox[1].state.Blocked? && !X.InStep(d, 1)
      && forall run, key, now :: Requeue(d, 1, run, key, now).None?
  {
    RunEnds(false);
  }
}
