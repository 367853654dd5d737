/**
 The order in which one pass of the worker looks for work, and the arguments it passes on. The protocol leaves both
 open, which is sound for what holds of all runs; to show that something can happen, a run must also be one the worker
 makes.
 */
module DispatchTurns {
  import opened Basics
  import opened Delays
  import opened Jobs
  import opened DispatchTables
  import opened DispatchProtocol
  import C = CiTables
  import P = CiProtocol

  // ---------- one pass ----------

  predicate EscalationsQuiet(t: C.Tables, now: Time) {
    C.DueEscalations(t, now) == {}
  }

  predicate RecsQuiet(t: C.Tables, now: Time) {
    EscalationsQuiet(t, now) && C.DueRecs(C.WakeDeadlines(t, now), now) == {}
  }

  predicate LaunchesQuiet(t: C.Tables, now: Time) {
    RecsQuiet(t, now) && C.DueLaunches(t, now) == {}
  }

  /** No claim of CI repair finds anything. */
  predicate CiQuiet(t: C.Tables, now: Time) {
    LaunchesQuiet(t, now) && C.DueStatuses(t, now) == {}
  }

  /** Nothing that a pass serves before jobs is due; CI repair is served only under a valid policy. */
  predicate Quiet(p: C.Policy, s: Sys, now: Time) {
    (p.Valid() ==> CiQuiet(CiTablesOf(s), now)) && DueNotices(s.desk, now) == {}
  }

  /**
   Escalations, reconciliations, repair launches, repair statuses: in this order, and answers at the time of the pass.
   */
  predicate CiInTurn(s: P.Sys, op: P.Op, pass: Time) {
    match op
    case ClaimEscalation(_, now) => now >= pass
    case ClaimRec(_, now) => now >= pass && EscalationsQuiet(s.t, now)
    case ClaimLaunch(_, now) => now >= pass && RecsQuiet(s.t, now)
    case ClaimStatus(_, now) => now >= pass && LaunchesQuiet(s.t, now)
    case FailObserve(_, now) => now == pass
    case Apply(_, now) => now == pass
    case Bind(_, now) => now == pass
    case Postpone(due, now) =>
      && now == pass && s.hold.Launching? && C.Has(s.t, s.hold.id)
      && due == now + LaunchRetryDelay(C.At(s.t, s.hold.id).operations + 1)
    case Abandon(now) => now == pass
    case Resumes(_, _, due, now) => now == pass && due == now + STATUS_POLL_INTERVAL
    case Reschedule(counted, due, now) =>
      && now == pass && s.hold.Polling? && C.Has(s.t, s.hold.id)
      && due == now + (if counted then PreOutboxRetryDelay(C.At(s.t, s.hold.id).operations + 1)
         else STATUS_POLL_INTERVAL)
    case Finish(_, _, now) => now == pass
    case Complete(_, now) => now == pass
    case FailReport(_, _, now) => now == pass
    case _ => true
  }

  /**
   A move that a worker with a reporter makes in a pass that began at `pass`, or that lands during or after it. Some
   arguments are more restricted here than in the code.
   */
  predicate InTurn(p: C.Policy, s: Sys, m: Move, pass: Time) {
    && Can(s, m)
    && match m
       case Arrive(_, now) => now >= pass
       case CiEvent(_, now) => now >= pass
       case IssueEvent(_, _, now) => now >= pass
       case Operator(_, _, _, now) => now >= pass
       case Ci(op) => p.Valid() && CiInTurn(CiView(s), op, pass)
       case ClaimNotice(_, now) => now >= pass && (p.Valid() ==> CiQuiet(CiTablesOf(s), now))
       case ClaimJob(_, now) => now >= pass && Quiet(p, s, now)
       case ReporterMissing(_) => false
       case ProjectionFailed(_, _, due, message) =>
         due == s.hold.now + PreOutboxRetryDelay(JobOf(s).preOutbox + 1) && message != ""
       case WaitReported(_, wake) => wake == s.hold.now + p.wake
       case ResumeFailed(due, _) => due == s.hold.now + EXTERNAL_RECOVERY_WAKE
       case EnterCi(e) => p.Valid() && Coordinates(JobOf(s), e) && e.deadline == s.hold.now + p.wake
       case Finished(r) =>
         ValidResult(JobOf(s), r) && r.payload.Text? && !(r.outcome.ReadyForReview? && p.Valid())
       case _ => true
  }

  predicate Coordinates(job: Job, e: C.Entry) {
    e.repository == job.key.repository && e.issue == job.key.issue && e.model == job.profile
  }

  // ---------- runs of the worker ----------

  /** `pass` is the time at which the current pass began. */
  datatype Live = Live(sys: Sys, pass: Time)

  /** A claim opens a pass. */
  function PassAfter(m: Move, pass: Time): Time {
    match m
    case ClaimNotice(_, now) => now
    case ClaimJob(_, now) => now
    case Ci(op) =>
      (match op
       case ClaimEscalation(_, now) => now
       case ClaimRec(_, now) => now
       case ClaimLaunch(_, now) => now
       case ClaimStatus(_, now) => now
       case _ => pass)
    case _ => pass
  }

  predicate Serves(p: C.Policy, l: Live, m: Move) {
    InTurn(p, l.sys, m, l.pass)
  }

  function Served(p: C.Policy, l: Live, m: Move): Live {
    Live(Next(p, l.sys, m), PassAfter(m, l.pass))
  }

  ghost predicate Orderly(p: C.Policy, l: Live, run: seq<Move>)
    decreases |run|
  {
    run == [] || (Serves(p, l, run[0]) && Orderly(p, Served(p, l, run[0]), run[1..]))
  }

  ghost function After(p: C.Policy, l: Live, run: seq<Move>): Live
    decreases |run|
  {
    if run == [] then l else After(p, Served(p, l, run[0]), run[1..])
  }

  /** An orderly run is a run of the protocol, so everything proved of those holds of it. */
  lemma {:induction false} OrderlyIsLegal(p: C.Policy, l: Live, run: seq<Move>)
    requires Orderly(p, l, run)
    ensures Legal(p, l.sys, run) && Exec(p, l.sys, run) == After(p, l, run).sys
    decreases |run|
  {
    if run == [] {
    } else {
      OrderlyIsLegal(p, Served(p, l, run[0]), run[1..]);
    }
  }

  lemma {:induction false} Join(p: C.Policy, l: Live, a: seq<Move>, b: seq<Move>)
    requires Orderly(p, l, a) && Orderly(p, After(p, l, a), b)
    ensures Orderly(p, l, a + b) && After(p, l, a + b) == After(p, After(p, l, a), b)
    decreases |a|
  {
    if a == [] {
      assert a + b == b;
    } else {
      assert (a + b)[0] == a[0] && (a + b)[1..] == a[1..] + b;
      Join(p, Served(p, l, a[0]), a[1..], b);
    }
  }

  lemma One(p: C.Policy, l: Live, m: Move)
    requires Serves(p, l, m)
    ensures Orderly(p, l, [m]) && After(p, l, [m]) == Served(p, l, m)
  {
    assert [m][1..] == [];
    assert Orderly(p, Served(p, l, m), []);
  }

  lemma Two(p: C.Policy, l: Live, m: Move, n: Move)
    requires Serves(p, l, m) && Serves(p, Served(p, l, m), n)
    ensures Orderly(p, l, [m, n]) && After(p, l, [m, n]) == Served(p, Served(p, l, m), n)
  {
    One(p, l, m);
    One(p, Served(p, l, m), n);
    Join(p, l, [m], [n]);
    assert [m] + [n] == [m, n];
  }

  /** The rest of `run` from its `k`-th move on leads from `l` to `goal`. */
  ghost predicate Leads(p: C.Policy, l: Live, run: seq<Move>, k: nat, goal: Live)
    requires k <= |run|
  {
    Orderly(p, l, run[k..]) && After(p, l, run[k..]) == goal
  }

  lemma Arrived(p: C.Policy, run: seq<Move>, goal: Live)
    ensures Leads(p, goal, run, |run|, goal)
  {
    assert run[|run|..] == [];
  }

  lemma Prepend(p: C.Policy, l: Live, run: seq<Move>, k: nat, u: Live, goal: Live)
    requires k < |run| && Serves(p, l, run[k]) && Served(p, l, run[k]) == u && Leads(p, u, run, k + 1, goal)
    ensures Leads(p, l, run, k, goal)
  {
    assert run[k..][0] == run[k] && run[k..][1..] == run[k + 1..];
  }

  lemma Whole(p: C.Policy, l: Live, run: seq<Move>, goal: Live)
    requires Leads(p, l, run, 0, goal)
    ensures Orderly(p, l, run) && After(p, l, run) == goal
  {
    assert run[0..] == run;
  }
}
