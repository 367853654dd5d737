/** Two runs that stall: a replayed wait that is already resumed, and a webhook swallowed by a stale-head answer. */
module DispatchStalls {
  import opened Basics
  import opened ExternalWaits
  import opened Jobs
  import opened DispatchTables
  import opened DispatchProtocol
  import opened DispatchTurns
  import opened DispatchWitness
  import C = CiTables
  import P = CiProtocol
  import S = DispatchStuck
  import W = CiWakes

  // ---------- a resumed wait reported again ----------

  const WAIT := ExternalWait(GitHub, Preparation, IssueRead, Unavailable, 1, Some(1000))

  function Waited(job: Job, state: WaitState): Desk {
    DeskOf(job).(waits := map[1 := NewWait(1, "run", WAIT).(state := state)])
  }

  const WOKEN := Row(ExternalWaiting, 0, 3000, "")
  const RESUMED := Row(Launched, 0, 5000, "")
  const RESUMING := Live(Plain(Waited(Row(ExternalWaiting, 0, 63000, ""), ResumeReady),
                               Resuming(1, NewWait(1, "run", WAIT).(state := ResumeReady), 3000)), 3000)
  const STUCK := Live(Plain(Waited(Row(ExternalWaiting, 0, 65000, ""), WaitState.Resumed), Free), 5000)

  const REPLAY: seq<Move> := [
    WaitReported(WAIT, 62000), IssueEvent("org/repo", 1, 3000),
    ClaimJob(1, 3000), WaitReported(WAIT, 63000), ResumeAccepted,
    ClaimJob(1, 5000), WaitReported(WAIT, 65000)]

  lemma Waits()
    ensures Steps(FOLLOWED, REPLAY[0], Live(Plain(Waited(Row(ExternalWaiting, 0, 62000, ""), WaitState.Waiting),
            Free), 2000))
  {
    assert map[1 := LAUNCHED][1 := Row(ExternalWaiting, 0, 62000, "")] == map[1 := Row(ExternalWaiting, 0, 62000, "")];
  }

  lemma Wakes()
    ensures Steps(Live(Plain(Waited(Row(ExternalWaiting, 0, 62000, ""), WaitState.Waiting), Free), 2000), REPLAY[1],
                  Live(Plain(Waited(WOKEN, ResumeReady), Free), 2000))
  {
    var d := Waited(Row(ExternalWaiting, 0, 62000, ""), WaitState.Waiting);
    assert CANDIDATE.Key() == SemanticKey("route", "org/repo", 1);
    assert Woken(d, 1, "org/repo", 1);
    assert RecordWake(d, "org/repo", 1, 3000).jobs == map[1 := WOKEN];
    assert RecordWake(d, "org/repo", 1, 3000).waits == Waited(WOKEN, ResumeReady).waits;
  }

  lemma StillWaits()
    ensures Steps(Live(Plain(Waited(WOKEN, ResumeReady), Polling(1, 3000)), 3000), REPLAY[3], RESUMING)
  {
    assert map[1 := WOKEN][1 := Row(ExternalWaiting, 0, 63000, "")] == map[1 := Row(ExternalWaiting, 0, 63000, "")];
  }

  lemma Resumes()
    ensures Steps(RESUMING, REPLAY[4], Live(Plain(Waited(RESUMED, WaitState.Resumed), Free), 3000))
  {
    var w := NewWait(1, "run", WAIT);
    assert map[1 := Row(ExternalWaiting, 0, 63000, "")][1 := RESUMED] == map[1 := RESUMED];
    assert map[1 := w.(state := ResumeReady)][1 := w.(state := WaitState.Resumed)]
           == map[1 := w.(state := WaitState.Resumed)];
  }

  lemma WaitsAgain()
    ensures Steps(Live(Plain(Waited(RESUMED, WaitState.Resumed), Polling(1, 5000)), 5000), REPLAY[6], STUCK)
  {
    assert map[1 := RESUMED][1 := Row(ExternalWaiting, 0, 65000, "")] == map[1 := Row(ExternalWaiting, 0, 65000, "")];
  }

  lemma FromResume()
    ensures Leads(POLICY, RESUMING, REPLAY, 4, STUCK)
  {
    Arrived(POLICY, REPLAY, STUCK);
    WaitsAgain();
    Prepend(POLICY, Live(Plain(Waited(RESUMED, WaitState.Resumed), Polling(1, 5000)), 5000), REPLAY, 6, STUCK, STUCK);
    Polls(Waited(RESUMED, WaitState.Resumed), RESUMED, 3000, 5000);
    Prepend(POLICY, Live(Plain(Waited(RESUMED, WaitState.Resumed), Free), 3000), REPLAY, 5,
            Live(Plain(Waited(RESUMED, WaitState.Resumed), Polling(1, 5000)), 5000), STUCK);
    Resumes();
    Prepend(POLICY, RESUMING, REPLAY, 4, Live(Plain(Waited(RESUMED, WaitState.Resumed), Free), 3000), STUCK);
  }

  lemma FromWake()
    ensures Leads(POLICY, Live(Plain(Waited(WOKEN, ResumeReady), Free), 2000), REPLAY, 2, STUCK)
  {
    FromResume();
    StillWaits();
    Prepend(POLICY, Live(Plain(Waited(WOKEN, ResumeReady), Polling(1, 3000)), 3000), REPLAY, 3, RESUMING, STUCK);
    Polls(Waited(WOKEN, ResumeReady), WOKEN, 2000, 3000);
    Prepend(POLICY, Live(Plain(Waited(WOKEN, ResumeReady), Free), 2000), REPLAY, 2,
            Live(Plain(Waited(WOKEN, ResumeReady), Polling(1, 3000)), 3000), STUCK);
  }

  lemma Replays()
    ensures Orderly(POLICY, FOLLOWED, REPLAY) && After(POLICY, FOLLOWED, REPLAY) == STUCK
  {
    FromWake();
    Wakes();
    Prepend(POLICY, Live(Plain(Waited(Row(ExternalWaiting, 0, 62000, ""), WaitState.Waiting), Free), 2000), REPLAY, 1,
            Live(Plain(Waited(WOKEN, ResumeReady), Free), 2000), STUCK);
    Waits();
    Prepend(POLICY, FOLLOWED, REPLAY, 0, Live(Plain(Waited(Row(ExternalWaiting, 0, 62000, ""), WaitState.Waiting),
        Free), 2000), STUCK);
    Whole(POLICY, FOLLOWED, REPLAY, STUCK);
  }

  /**
   A wait is reported, woken, resumed and then reported once more: the job waits again for a wake that cannot come.
   */
  lemma ReplayedWaitGetsStuck()
    ensures Orderly(POLICY, START, MOVES + REPLAY)
    ensures
      var s := After(POLICY, START, MOVES + REPLAY).sys;
      S.Stuck(s, 1) && s.desk.jobs[1].status.ExternalWaiting? && s.desk.waits[1].state.Resumed? && 1 !in s.ci.tasks
  {
    Follows();
    Replays();
    Join(POLICY, START, MOVES, REPLAY);
  }

  // ---------- a run that moves on by itself ----------

  const UNWOKEN := Waited(Row(ExternalWaiting, 0, 62000, ""), WaitState.Waiting)
  const MOVED_ON: seq<Move> := [REPLAY[0], ClaimJob(1, 62000)]

  lemma PollsUnwoken()
    ensures Orderly(POLICY, FOLLOWED, MOVED_ON)
    ensures After(POLICY, FOLLOWED, MOVED_ON) == Live(Plain(UNWOKEN, Polling(1, 62000)), 62000)
  {
    Waits();
    Polls(UNWOKEN, Row(ExternalWaiting, 0, 62000, ""), 2000, 62000);
    Two(POLICY, FOLLOWED, REPLAY[0], ClaimJob(1, 62000));
  }

  /** A poll that finds the run no longer waiting, with no wake on record, leaves the job `external_waiting`. */
  lemma MovedOnIsNotPickedUp()
    ensures Orderly(POLICY, START, MOVES + MOVED_ON)
    ensures
      var l := After(POLICY, START, MOVES + MOVED_ON);
      var u := Served(POLICY, l, NoLongerWaiting).sys;
      && Serves(POLICY, l, NoLongerWaiting) && u == l.sys.(hold := Free)
      && 1 in u.desk.jobs && u.desk.jobs[1].status.ExternalWaiting? && 1 in u.desk.waits
      && u.desk.waits[1].state.Waiting?
  {
    Follows();
    PollsUnwoken();
    Join(POLICY, START, MOVES, MOVED_ON);
  }

  // ---------- a webhook lost ----------

  const ENTRY := EntryAt(2000)
  const WAITING := Row(CiWaiting, 0, 62000, "")
  const FRESH := C.Rec(C.Queued, false, false, 0, 2000)
  const DIRTY := Taken(FRESH, 2000).(dirty := true, due := 2000)
  const LEFT := DIRTY.(state := C.Done, operations := 1)
  const EVENT := C.CiEvent("hook", "org/repo", 7, HEAD, C.CheckRun, "completed", "digest")

  function Waiting(rec: C.Rec, events: set<C.CiEvent>, hold: P.Hold): Live {
    var s := InCi(DeskOf(WAITING), ENTRY, rec, map[1 := WAITING], hold, Free);
    Live(s.(ci := s.ci.(events := events)), 2000)
  }

  const SWALLOW: seq<Move> := [
    EnterCi(ENTRY), Ci(P.ClaimRec(REC, 2000)), CiEvent(EVENT, 2000), Ci(P.FailObserve(C.StaleHead, 2000))]

  lemma Enters()
    ensures Steps(FOLLOWED, SWALLOW[0], Waiting(FRESH, {}, P.Idle))
  {
    EntersCi(LAUNCHED, 2000);
  }

  lemma EventTables(t: C.Tables)
    requires t == Waiting(Taken(FRESH, 2000), {}, P.Idle).sys.ci
    ensures C.RecordEvent(t, EVENT, 2000) == Some(Waiting(DIRTY, {EVENT}, P.Idle).sys.ci)
  {
    assert C.IsSha(HEAD) && !C.Known(t, EVENT) && C.Requeues(t, EVENT, REC);
    assert C.RequeuedRecs(t, EVENT, 2000) == map[REC := DIRTY];
    assert C.WokenAttempts(t, EVENT, 2000) == map[] && t.events + {EVENT} == {EVENT};
  }

  lemma EventLands()
    ensures Steps(Waiting(Taken(FRESH, 2000), {}, P.Observing(REC, 0)), SWALLOW[2],
            Waiting(DIRTY, {EVENT}, P.Observing(REC, 0)))
  {
    var l := Waiting(Taken(FRESH, 2000), {}, P.Observing(REC, 0));
    assert CiTablesOf(l.sys) == Waiting(Taken(FRESH, 2000), {}, P.Idle).sys.ci;
    EventTables(CiTablesOf(l.sys));
  }

  lemma StaleTables(t: C.Tables)
    requires t == Waiting(DIRTY, {EVENT}, P.Idle).sys.ci
    ensures C.FailRec(t, REC, 0, C.StaleHead, POLICY, 2000) == Some(Waiting(LEFT, {EVENT}, P.Idle).sys.ci)
  {
    assert map[REC := DIRTY][REC := LEFT] == map[REC := LEFT];
    assert map[1 := ENTRY.NewTask()][1 := ENTRY.NewTask()] == map[1 := ENTRY.NewTask()];
    assert map[1 := WAITING][1 := WAITING] == map[1 := WAITING];
  }

  lemma HeadIsStale()
    ensures Steps(Waiting(DIRTY, {EVENT}, P.Observing(REC, 0)), SWALLOW[3], Waiting(LEFT, {EVENT}, P.Idle))
  {
    var l := Waiting(DIRTY, {EVENT}, P.Observing(REC, 0));
    assert CiTablesOf(l.sys) == l.sys.ci;
    StaleTables(l.sys.ci);
  }

  lemma FromEntry()
    ensures Leads(POLICY, Waiting(FRESH, {}, P.Idle), SWALLOW, 1, Waiting(LEFT, {EVENT}, P.Idle))
  {
    var goal := Waiting(LEFT, {EVENT}, P.Idle);
    Arrived(POLICY, SWALLOW, goal);
    HeadIsStale();
    Prepend(POLICY, Waiting(DIRTY, {EVENT}, P.Observing(REC, 0)), SWALLOW, 3, goal, goal);
    EventLands();
    Prepend(POLICY, Waiting(Taken(FRESH, 2000), {}, P.Observing(REC, 0)), SWALLOW, 2,
        Waiting(DIRTY, {EVENT}, P.Observing(REC, 0)), goal);
    TakesRec(DeskOf(WAITING), ENTRY, FRESH, map[1 := WAITING], 2000, 2000);
    Prepend(POLICY, Waiting(FRESH, {}, P.Idle), SWALLOW, 1, Waiting(Taken(FRESH, 2000), {}, P.Observing(REC, 0)), goal);
  }

  lemma Swallows()
    ensures Orderly(POLICY, FOLLOWED, SWALLOW) && After(POLICY, FOLLOWED, SWALLOW) == Waiting(LEFT, {EVENT}, P.Idle)
  {
    FromEntry();
    Enters();
    Prepend(POLICY, FOLLOWED, SWALLOW, 0, Waiting(FRESH, {}, P.Idle), Waiting(LEFT, {EVENT}, P.Idle));
    Whole(POLICY, FOLLOWED, SWALLOW, Waiting(LEFT, {EVENT}, P.Idle));
  }

  /**
   The event is on record and its task still waits, but nothing is left to reconcile before the new deadline a minute
   later.
   */
  lemma WebhookCanBeLost()
    ensures Orderly(POLICY, START, MOVES + SWALLOW)
    ensures
      var t := CiTablesOf(After(POLICY, START, MOVES + SWALLOW).sys);
      && EVENT in t.events && 1 in t.tasks && t.tasks[1].state == C.WaitingCi && t.tasks[1].head == EVENT.head
      && !W.Armed(t, REC)
      && forall now | now < 62000 :: C.DueRecs(C.WakeDeadlines(t, now), now) == {}
  {
    Follows();
    Swallows();
    Join(POLICY, START, MOVES, SWALLOW);
    var t := CiTablesOf(Waiting(LEFT, {EVENT}, P.Idle).sys);
    forall now | now < 62000
      ensures C.DueRecs(C.WakeDeadlines(t, now), now) == {}
    {
      NotYetDue(t, ENTRY, now);
    }
  }
}
