/** External waits of repository runs: generations only advance, and each is resumed once, after a wake. */
module DispatchWaits {
  import opened Basics
  import opened ExternalWaits
  import opened Jobs
  import opened DispatchTables
  import opened DispatchProtocol
  import opened DispatchTurns
  import C = CiTables
  import O = DispatchOrder
  import X = DispatchOutbox

  function Phase(w: WaitRow): nat {
    match w.state
    case Waiting => 0
    case ResumeReady => 1
    case Resumed => 2
  }

  predicate KeyDerived(j: JobId, w: WaitRow) {
    w.key == RunResumeKey(j, w.run, w.wait.generation)
  }

  predicate KeysDerived(d: Desk) {
    forall j | j in d.waits :: KeyDerived(j, d.waits[j])
  }

  /** The same generation at a later phase, or a newer generation. */
  predicate Ahead(a: WaitRow, b: WaitRow) {
    || (a.(state := b.state) == b && Phase(a) <= Phase(b))
    || a.wait.generation < b.wait.generation
  }

  // ---------- one step ----------

  /** The issue event of a move wakes job `j`'s wait. */
  predicate Wakes(s: Sys, m: Move, j: JobId) {
    m.IssueEvent? && m.repository != "" && m.issue >= 1 && Woken(s.desk, j, m.repository, m.issue)
  }

  /** The move records that job `j`'s run was resumed. */
  predicate MarksResumed(s: Sys, m: Move, j: JobId) {
    && (m.ResumeAccepted? || m.NoLongerWaiting?) && !s.hold.Free? && s.hold.job == j
    && j in s.desk.waits && s.desk.waits[j].state.ResumeReady?
  }

  /** Everything that may happen to a wait row. */
  predicate WaitStep(s: Sys, m: Move, u: Sys, j: JobId)
    requires j in s.desk.waits
  {
    && j in u.desk.waits
    && var a, b := s.desk.waits[j], u.desk.waits[j];
    || b == a
    || (Wakes(s, m, j) && b == a.(state := ResumeReady) && !a.state.Resumed?)
    || (MarksResumed(s, m, j) && b == a.(state := Resumed))
    || (a.wait.generation < b.wait.generation && b.state.Waiting? && KeyDerived(j, b))
  }

  lemma AnswerWaits(p: C.Policy, s: Sys, m: Move, j: JobId)
    requires Can(s, m) && O.IsAnswer(m) && O.Tidy(s.desk) && O.JobKnown(s) && j in s.desk.waits
    ensures WaitStep(s, m, Next(p, s, m), j)
  {
    O.AnswerTouches(p, s, m);
    if s.hold.job == j {
      OwnAnswerWaits(p, s, m);
    }
  }

  lemma OwnAnswerWaits(p: C.Policy, s: Sys, m: Move)
    requires Can(s, m) && O.IsAnswer(m) && s.hold.job in s.desk.waits
    ensures WaitStep(s, m, Next(p, s, m), s.hold.job)
  {
    if m.WaitReported? {
      ReportWaits(p, s, m);
    } else if !m.ResumeAccepted? && !m.NoLongerWaiting? {
      KeepWaits(p, s, m);
    }
  }

  lemma ReportWaits(p: C.Policy, s: Sys, m: Move)
    requires Can(s, m) && m.WaitReported? && s.hold.job in s.desk.waits
    ensures WaitStep(s, m, Next(p, s, m), s.hold.job)
  {}

  lemma KeepWaits(p: C.Policy, s: Sys, m: Move)
    requires Can(s, m) && O.IsAnswer(m) && !m.WaitReported? && !m.ResumeAccepted? && !m.NoLongerWaiting?
    ensures Next(p, s, m).desk.waits == s.desk.waits
  {
    if m.Finished? || m.QueueFailure? || m.CloseWindow? || m.LaunchFailed? {
      QueueKeepsWaits(p, s, m);
    }
  }

  lemma QueueKeepsWaits(p: C.Policy, s: Sys, m: Move)
    requires Can(s, m) && (m.Finished? || m.QueueFailure? || m.CloseWindow? || m.LaunchFailed?)
    ensures Next(p, s, m).desk.waits == s.desk.waits
  {}

  lemma EventWaits(p: C.Policy, s: Sys, m: Move, j: JobId)
    requires Can(s, m) && !O.IsAnswer(m) && j in s.desk.waits
    ensures WaitStep(s, m, Next(p, s, m), j)
  {
    if m.Arrive? {
      O.RecordShape(s.desk, m.signal, m.now);
    }
  }

  lemma StepWaits(p: C.Policy, s: Sys, m: Move, j: JobId)
    requires O.Ok(s) && Can(s, m) && j in s.desk.waits
    ensures WaitStep(s, m, Next(p, s, m), j)
  {
    if O.IsAnswer(m) {
      AnswerWaits(p, s, m, j);
    } else {
      EventWaits(p, s, m, j);
    }
  }

  /** A new row starts out waiting, under the key of its generation. */
  lemma NewWaits(p: C.Policy, s: Sys, m: Move, j: JobId)
    requires O.Ok(s) && Can(s, m) && j !in s.desk.waits && j in Next(p, s, m).desk.waits
    ensures Next(p, s, m).desk.waits[j].state.Waiting? && KeyDerived(j, Next(p, s, m).desk.waits[j])
  {
    if O.IsAnswer(m) {
      O.AnswerTouches(p, s, m);
      if !m.WaitReported? && !m.ResumeAccepted? && !m.NoLongerWaiting? {
        KeepWaits(p, s, m);
      }
    } else if m.Arrive? {
      O.RecordShape(s.desk, m.signal, m.now);
    }
  }

  // ---------- whole runs ----------

  lemma StepKeys(p: C.Policy, s: Sys, m: Move)
    requires O.Ok(s) && Can(s, m) && KeysDerived(s.desk)
    ensures KeysDerived(Next(p, s, m).desk)
  {
    forall j | j in Next(p, s, m).desk.waits
      ensures KeyDerived(j, Next(p, s, m).desk.waits[j])
    {
      if j in s.desk.waits {
        StepWaits(p, s, m, j);
      } else {
        NewWaits(p, s, m, j);
      }
    }
  }

  /** Recorded generations and their phases never go back, and every row carries the key derived from its generation. */
  lemma {:induction false} WaitsOnlyAdvance(p: C.Policy, s: Sys, run: seq<Move>, j: JobId)
    requires O.Ok(s) && KeysDerived(s.desk) && Legal(p, s, run) && j in s.desk.waits
    ensures
      var d := Exec(p, s, run).desk;
      j in d.waits && Ahead(s.desk.waits[j], d.waits[j]) && KeyDerived(j, d.waits[j])
    decreases |run|
  {
    if run == [] {
    } else {
      StepWaits(p, s, run[0], j);
      StepKeys(p, s, run[0]);
      O.MoveKeeps(p, s, run[0]);
      WaitsOnlyAdvance(p, Next(p, s, run[0]), run[1..], j);
    }
  }

  /** How often a run records that generation `g` of job `j` was resumed. */
  ghost function Resumptions(p: C.Policy, s: Sys, run: seq<Move>, j: JobId, g: int): nat
    decreases |run|
  {
    if run == [] then 0
    else
      var u := Next(p, s, run[0]);
      (if j in s.desk.waits && j in u.desk.waits && u.desk.waits[j].wait.generation == g
          && u.desk.waits[j].state.Resumed?
          && s.desk.waits[j] != u.desk.waits[j] then 1 else 0)
      + Resumptions(p, u, run[1..], j, g)
  }

  /** Generation `g` cannot be resumed any more. */
  predicate Past(s: Sys, j: JobId, g: int) {
    && j in s.desk.waits
    && (s.desk.waits[j].wait.generation > g || (s.desk.waits[j].wait.generation == g && s.desk.waits[j].state.Resumed?))
  }

  lemma {:induction false} ResumedOnceFrom(p: C.Policy, s: Sys, run: seq<Move>, j: JobId, g: int)
    requires O.Ok(s) && Legal(p, s, run)
    ensures Resumptions(p, s, run, j, g) <= if Past(s, j, g) then 0 else 1
    decreases |run|
  {
    if run == [] {
    } else {
      if j in s.desk.waits {
        StepWaits(p, s, run[0], j);
      }
      O.MoveKeeps(p, s, run[0]);
      ResumedOnceFrom(p, Next(p, s, run[0]), run[1..], j, g);
    }
  }

  /** Each generation is recorded as resumed at most once in a whole run. */
  lemma ResumedOnce(p: C.Policy, clock: Time, run: seq<Move>, j: JobId, g: int)
    requires Legal(p, Start(clock), run)
    ensures Resumptions(p, Start(clock), run, j, g) <= 1
  {
    ResumedOnceFrom(p, Start(clock), run, j, g);
  }

  /** Somewhere in the run an issue event wakes job `j` while its row is at generation `g`. */
  ghost predicate WokenIn(p: C.Policy, s: Sys, run: seq<Move>, j: JobId, g: int)
    decreases |run|
  {
    && run != []
    && ((Wakes(s, run[0], j) && s.desk.waits[j].wait.generation == g) || WokenIn(p, Next(p, s, run[0]), run[1..], j, g))
  }

  predicate Stirred(s: Sys, j: JobId, g: int) {
    j in s.desk.waits && s.desk.waits[j].wait.generation == g && !s.desk.waits[j].state.Waiting?
  }

  lemma {:induction false} WakeComesFirst(p: C.Policy, s: Sys, run: seq<Move>, j: JobId, g: int)
    requires O.Ok(s) && Legal(p, s, run) && Stirred(Exec(p, s, run), j, g)
    ensures Stirred(s, j, g) || WokenIn(p, s, run, j, g)
    decreases |run|
  {
    if run == [] {
    } else {
      O.MoveKeeps(p, s, run[0]);
      WakeComesFirst(p, Next(p, s, run[0]), run[1..], j, g);
      if j in s.desk.waits {
        StepWaits(p, s, run[0], j);
      } else if j in Next(p, s, run[0]).desk.waits {
        NewWaits(p, s, run[0], j);
      }
    }
  }

  /**
   A generation is ready to resume, or resumed, only if a matching GitHub event arrived after that generation was
   recorded.
   */
  lemma ResumedOnlyAfterWake(p: C.Policy, clock: Time, run: seq<Move>, j: JobId)
    requires Legal(p, Start(clock), run) && j in Exec(p, Start(clock), run).desk.waits
    requires !Exec(p, Start(clock), run).desk.waits[j].state.Waiting?
    ensures WokenIn(p, Start(clock), run, j, Exec(p, Start(clock), run).desk.waits[j].wait.generation)
  {
    WakeComesFirst(p, Start(clock), run, j, Exec(p, Start(clock), run).desk.waits[j].wait.generation);
  }

  // ---------- replays and runs that move on by themselves ----------

  /**
   Reporting the recorded generation again keeps its row, so a wake already noted is not lost; an older one is refused.
   */
  lemma ReplayKeepsWake(d: Desk, j: JobId, run: string, wait: ExternalWait, wake: Time)
    requires j in d.waits && wait.generation <= d.waits[j].wait.generation && RecordWait(d, j, run, wait, wake).Some?
    ensures RecordWait(d, j, run, wait, wake).value.waits == d.waits
  {}

  /** While `j` waits for GitHub, no other job can be claimed. */
  lemma WaitingBlocks(s: Sys, m: Move, j: JobId)
    requires O.Ok(s) && Can(s, m) && m.ClaimJob? && j in s.desk.jobs && s.desk.jobs[j].status.ExternalWaiting?
    ensures m.job == j
  {
    assert O.JobOk(s, j) && O.JobOk(s, m.job) && O.InFlight(s.desk, j);
    X.InFlightIsHead(s, j);
  }

  lemma WakeIsDue(p: C.Policy, s: Sys, m: Move, j: JobId)
    requires O.Ok(s) && Idle(s) && Wakes(s, m, j)
    ensures
      var u := Next(p, s, m);
      && O.Ok(u) && Idle(u) && j in u.desk.waits && u.desk.waits[j].state.ResumeReady?
      && j in u.desk.jobs && u.desk.jobs[j].status.ExternalWaiting? && u.desk.jobs[j].due == m.now
  {
    O.MoveKeeps(p, s, m);
  }

  /** A waiting job is claimed once it is due and a pass finds neither CI work nor a notice to serve first. */
  lemma WaitingIsClaimed(p: C.Policy, l: Live, j: JobId, now: Time)
    requires O.Ok(l.sys) && Idle(l.sys) && l.pass <= now
    requires j in l.sys.desk.jobs && l.sys.desk.jobs[j].status.ExternalWaiting? && l.sys.desk.jobs[j].due <= now
    ensures Serves(p, l, ClaimJob(j, now)) <==> Quiet(p, l.sys, now)
  {
    assert O.JobOk(l.sys, j) && O.InFlight(l.sys.desk, j);
    X.InFlightIsHead(l.sys, j);
  }

  /**
   A wake makes the waiting job the next one that is claimed, at once: no other job can be, and this one is by the first
   pass that finds neither CI work nor a notice to serve before it.
   */
  lemma WokenRunIsNext(p: C.Policy, l: Live, m: Move, j: JobId)
    requires O.Ok(l.sys) && Idle(l.sys) && Wakes(l.sys, m, j) && Serves(p, l, m)
    ensures
      var u := Served(p, l, m);
      && Idle(u.sys) && j in u.sys.desk.waits && u.sys.desk.waits[j].state.ResumeReady?
      && (forall i, now :: Can(u.sys, ClaimJob(i, now)) ==> i == j)
      && (forall now | now >= m.now :: Serves(p, u, ClaimJob(j, now)) <==> Quiet(p, u.sys, now))
  {
    var u := Served(p, l, m);
    WakeIsDue(p, l.sys, m, j);
    forall i, now | Can(u.sys, ClaimJob(i, now))
      ensures i == j
    {
      WaitingBlocks(u.sys, ClaimJob(i, now), j);
    }
    forall now | now >= m.now
      ensures Serves(p, u, ClaimJob(j, now)) <==> Quiet(p, u.sys, now)
    {
      WaitingIsClaimed(p, u, j, now);
    }
  }

  /** The broker is asked to resume a run only while its generation is marked ready. */
  lemma ResumesOnlyWhenReady(p: C.Policy, s: Sys, m: Move)
    requires Can(s, m) && Next(p, s, m).hold.Resuming? && !s.hold.Resuming?
    ensures
      var u := Next(p, s, m);
      && u.hold.job in u.desk.waits && u.desk.waits[u.hold.job] == u.hold.wait && u.hold.wait.state.ResumeReady?
  {}
}
