/**
 One job from its delivery to the first poll of its run: the common start of the concrete runs that show what can
 happen.
 */
module DispatchWitness {
  import opened Basics
  import opened Delays
  import opened Jobs
  import opened DispatchTables
  import opened DispatchProtocol
  import opened DispatchTurns
  import C = CiTables
  import P = CiProtocol

  const POLICY := C.Policy(MINUTE, 60, 1)
  const HEAD := "aaaaaaaaaaaaaaaaaaaaaaaaaaaaaaaaaaaaaaaa"
  const CANDIDATE := Candidate("route", "model", "org/repo", 1, "delivery")
  const REC := C.RecId(1, HEAD)
  const START := Live(Start(0), 0)

  // ---------- states ----------

  function Row(status: Status, preOutbox: nat, due: Time, error: string): Job {
    Job(CANDIDATE.Key(), "model", "delivery", "run", status, 1, preOutbox, Some(0), due, error, 0)
  }

  function DeskOf(job: Job): Desk {
    EMPTY_DESK.(jobs := map[1 := job], lastJob := 1, checkpoint := 1,
                deliveries := map["delivery" := Delivered("selected", Some(CANDIDATE.Key()), 1, 0)])
  }

  const CLAIMED := NewJob(CANDIDATE, 0).(attempts := 1, first := Some(0))
  const LAUNCHED := Row(Launched, 0, 2000, "")

  /** Before the job enters CI. */
  function Plain(desk: Desk, hold: Hold): Sys {
    Sys(desk, NO_CI, P.Idle, hold, 0)
  }

  function EntryAt(now: Time): C.Entry {
    C.Entry(1, "org/repo", 1, 7, "branch", HEAD, "model", now + MINUTE, "initial")
  }

  // ---------- single moves ----------

  /** One move of the worker, or one that lands between two of them. */
  ghost predicate Steps(l: Live, m: Move, u: Live) {
    Serves(POLICY, l, m) && Served(POLICY, l, m) == u
  }

  lemma OnlyJob(d: Desk)
    requires d.jobs.Keys == {1} && Claimable(d, 1)
    ensures IsFirst(ClaimableJobs(d), JobRank(d), 1)
  {}

  lemma PlainIsQuiet(desk: Desk, hold: Hold, now: Time)
    requires desk.outbox == map[]
    ensures Quiet(POLICY, Plain(desk, hold), now)
  {
    var t := CiTablesOf(Plain(desk, hold));
    assert C.WakeDeadlines(t, now).recs == map[];
  }

  lemma Polls(desk: Desk, job: Job, pass: Time, now: Time)
    requires desk.jobs == map[1 := job] && desk.outbox == map[] && Claimable(desk, 1) && !Unlaunched(job.status)
    requires job.due <= now && pass <= now
    ensures Steps(Live(Plain(desk, Free), pass), ClaimJob(1, now), Live(Plain(desk, Polling(1, now)), now))
  {
    OnlyJob(desk);
    PlainIsQuiet(desk, Free, now);
  }

  // ---------- the common start ----------

  lemma Records()
    ensures Steps(START, MOVES[0], Live(Plain(DeskOf(NewJob(CANDIDATE, 0)), Free), 0))
  {
    assert CANDIDATE.Key() == SemanticKey("route", "org/repo", 1);
    assert !HasKey(EMPTY_DESK, CANDIDATE.Key());
  }

  lemma ClaimsLaunch()
    ensures Steps(Live(Plain(DeskOf(NewJob(CANDIDATE, 0)), Free), 0), MOVES[1],
            Live(Plain(DeskOf(CLAIMED), Launching(1, 0)), 0))
  {
    OnlyJob(DeskOf(NewJob(CANDIDATE, 0)));
    PlainIsQuiet(DeskOf(NewJob(CANDIDATE, 0)), Free, 0);
    assert map[1 := NewJob(CANDIDATE, 0)][1 := CLAIMED] == map[1 := CLAIMED];
  }

  lemma Launches()
    ensures Steps(Live(Plain(DeskOf(CLAIMED), Launching(1, 0)), 0), MOVES[2], Live(Plain(DeskOf(LAUNCHED), Free), 0))
  {
    assert map[1 := CLAIMED][1 := LAUNCHED] == map[1 := LAUNCHED];
  }

  const MOVES: seq<Move> := [
    Arrive(Message("delivery", "selected", 1, Some(CANDIDATE)), 0),
    ClaimJob(1, 0), LaunchAccepted("run"), ClaimJob(1, 2000)]

  const FOLLOWED := Live(Plain(DeskOf(LAUNCHED), Polling(1, 2000)), 2000)

  /** The job is recorded, launched and polled for the first time. */
  lemma Follows()
    ensures Orderly(POLICY, START, MOVES) && After(POLICY, START, MOVES) == FOLLOWED
  {
    Arrived(POLICY, MOVES, FOLLOWED);
    Polls(DeskOf(LAUNCHED), LAUNCHED, 0, 2000);
    Prepend(POLICY, Live(Plain(DeskOf(LAUNCHED), Free), 0), MOVES, 3, FOLLOWED, FOLLOWED);
    Launches();
    Prepend(POLICY, Live(Plain(DeskOf(CLAIMED), Launching(1, 0)), 0), MOVES, 2,
        Live(Plain(DeskOf(LAUNCHED), Free), 0), FOLLOWED);
    ClaimsLaunch();
    Prepend(POLICY, Live(Plain(DeskOf(NewJob(CANDIDATE, 0)), Free), 0), MOVES, 1,
        Live(Plain(DeskOf(CLAIMED), Launching(1, 0)), 0), FOLLOWED);
    Records();
    Prepend(POLICY, START, MOVES, 0, Live(Plain(DeskOf(NewJob(CANDIDATE, 0)), Free), 0), FOLLOWED);
    Whole(POLICY, START, MOVES, FOLLOWED);
  }

  // ---------- a task in CI ----------

  /** The job has a task under `entry` and one reconciliation; `copy` is the job table as CI last saw it. */
  function InCi(desk: Desk, entry: C.Entry, rec: C.Rec, copy: map<JobId, Job>, ciHold: P.Hold, hold: Hold): Sys {
    Sys(desk, C.Tables(map[1 := entry.NewTask()], map[], map[REC := rec], map[], {}, copy), ciHold, hold, 0)
  }

  /** The job's row after it enters CI: a `launched` one moves on, any other stays. */
  function Entering(job: Job, now: Time): Job {
    if job.status.Launched? then job.(status := CiWaiting, due := now + MINUTE, lastError := "") else job
  }

  lemma BeginsWait(t: C.Tables, job: Job, now: Time)
    requires t == NO_CI.(jobs := map[1 := job]) && !job.status.CiWaiting?
    ensures
      var rec := C.Rec(C.Queued, false, false, 0, now);
      var jobs := map[1 := Entering(job, now)];
      C.BeginWait(t, EntryAt(now), now) == Some(C.Tables(map[1 := EntryAt(now).NewTask()], map[], map[REC := rec],
          map[], {}, jobs))
  {
    assert C.IsSha(HEAD) && EntryAt(now).Valid(now);
    assert map[1 := job][1 := Entering(job, now)] == map[1 := Entering(job, now)];
  }

  lemma EntersCi(job: Job, now: Time)
    requires !Unlaunched(job.status) && !job.status.ExternalWaiting? && !job.status.CiWaiting?
    requires job.key == CANDIDATE.Key() && job.profile == "model"
    ensures
      var rec := C.Rec(C.Queued, false, false, 0, now);
      Steps(Live(Plain(DeskOf(job), Polling(1, now)), now), EnterCi(EntryAt(now)),
            Live(InCi(DeskOf(Entering(job, now)), EntryAt(now), rec, map[1 := Entering(job, now)], P.Idle, Free), now))
  {
    var s := Plain(DeskOf(job), Polling(1, now));
    BeginsWait(CiTablesOf(s), job, now);
    assert CANDIDATE.Key() == SemanticKey("route", "org/repo", 1);
  }

  function Taken(rec: C.Rec, now: Time): C.Rec {
    rec.(state := C.InFlight, dirty := false, due := now + CI_RECONCILE_LEASE)
  }

  lemma NotYetDue(t: C.Tables, entry: C.Entry, now: Time)
    requires t.tasks == map[1 := entry.NewTask()] && t.recs.Keys == {REC} && now < entry.deadline
    ensures C.WakeDeadlines(t, now) == t
  {
    assert C.WakeDeadlines(t, now).recs == t.recs;
  }

  lemma TakesRec(desk: Desk, entry: C.Entry, rec: C.Rec, copy: map<JobId, Job>, pass: Time, now: Time)
    requires rec.state == C.Queued && rec.due <= now < entry.deadline && pass <= now
    ensures Steps(Live(InCi(desk, entry, rec, copy, P.Idle, Free), pass), Ci(P.ClaimRec(REC, now)),
                  Live(InCi(desk, entry, Taken(rec, now), desk.jobs, P.Observing(REC, rec.operations), Free), now))
  {
    var t := CiTablesOf(InCi(desk, entry, rec, copy, P.Idle, Free));
    NotYetDue(t, entry, now);
    assert C.DueRecs(t, now) == {REC};
    assert map[REC := rec][REC := Taken(rec, now)] == map[REC := Taken(rec, now)];
  }
}
