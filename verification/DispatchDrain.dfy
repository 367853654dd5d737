/**
 Everything else a pass would serve first can be put off: from any healthy state there is an orderly run to a quiet one.
 */
module DispatchDrain {
  import opened Basics
  import opened Delays
  import opened Jobs
  import opened DispatchTables
  import opened DispatchProtocol
  import opened DispatchTurns
  import opened DispatchEngaged
  import C = CiTables
  import P = CiProtocol
  import D = CiDeferrals
  import O = DispatchOrder
  import X = DispatchOutbox

  // ---------- what a drain keeps ----------

  /** Every report still to be delivered belongs to a job that waits for it. */
  predicate Healthy(d: Desk) {
    forall i | i in d.outbox && d.outbox[i].Open() ::
      i in d.jobs && (d.jobs[i].status.ReportPending? || d.jobs[i].status.ReportRetry?)
  }

  predicate AllInStep(d: Desk) {
    forall i | i in d.terminals && i in d.outbox && i in d.jobs :: X.InStep(d, i)
  }

  lemma InStepIsHealthy(s: Sys)
    requires O.Ok(s) && AllInStep(s.desk)
    ensures Healthy(s.desk)
  {}

  /** `j` waits for CI although its own report or run is still open. */
  predicate WaitsInCi(s: Sys, j: JobId) {
    && j in s.desk.jobs && (s.desk.jobs[j].status.ReportPending? || s.desk.jobs[j].status.ReportRetry?)
    && j in s.ci.tasks && s.ci.tasks[j].state == C.WaitingCi
  }

  /** A job that a drain leaves where it is. */
  predicate Standing(s: Sys, j: JobId) {
    WaitsInCi(s, j) || (j in s.desk.jobs && s.desk.jobs[j].status.ExternalWaiting?)
  }

  /** The rows of `j` are the same, but for the deadline of its task. */
  predicate Kept(s: Sys, u: Sys, j: JobId) {
    && j in s.desk.jobs && j in u.desk.jobs && u.desk.jobs[j] == s.desk.jobs[j] && u.desk.waits == s.desk.waits
    && SameTask(CiTablesOf(s), CiTablesOf(u), j)
    && (j in s.desk.terminals <==> j in u.desk.terminals)
    && (j in s.desk.terminals ==> u.desk.terminals[j] == s.desk.terminals[j])
    && (j in s.desk.outbox <==> j in u.desk.outbox)
    && (j in s.desk.outbox ==> u.desk.outbox[j] == s.desk.outbox[j])
  }

  predicate SameTask(t: C.Tables, u: C.Tables, j: JobId) {
    && (j in t.tasks <==> j in u.tasks)
    && (j in t.tasks ==> u.tasks[j] == t.tasks[j].(deadline := u.tasks[j].deadline))
  }

  predicate NoWaits(run: seq<Move>) {
    forall k | 0 <= k < |run| :: !run[k].WaitReported?
  }

  ghost predicate Fit(l: Live, j: JobId, now: Time) {
    Sound(l.sys) && Idle(l.sys) && Healthy(l.sys.desk) && l.pass <= now && Standing(l.sys, j)
  }

  /** The run puts something off and leaves `j` alone. */
  ghost predicate PutsOff(p: C.Policy, l: Live, run: seq<Move>, u: Live, j: JobId, now: Time) {
    && Orderly(p, l, run) && After(p, l, run) == u && NoWaits(run)
    && Fit(u, j, now) && Kept(l.sys, u.sys, j)
  }

  function T(l: Live): C.Tables {
    CiTablesOf(l.sys)
  }

  lemma OrderlySound(p: C.Policy, l: Live, run: seq<Move>)
    requires Sound(l.sys) && Orderly(p, l, run)
    ensures Sound(After(p, l, run).sys)
  {
    OrderlyIsLegal(p, l, run);
    RunSound(p, l.sys, run);
  }

  lemma Chain(p: C.Policy, l: Live, a: seq<Move>, v: Live, b: seq<Move>, u: Live, j: JobId, now: Time)
    requires PutsOff(p, l, a, v, j, now) && PutsOff(p, v, b, u, j, now)
    ensures PutsOff(p, l, a + b, u, j, now)
  {
    Join(p, l, a, b);
  }

  // ---------- two steps of CI repair ----------

  lemma CiMove(p: C.Policy, l: Live, op: P.Op)
    requires p.Valid() && l.sys.hold.Free? && IsWorkerOp(op)
    requires P.Enabled(CiView(l.sys), op) && CiInTurn(CiView(l.sys), op, l.pass)
    ensures Serves(p, l, Ci(op))
    ensures Served(p, l, Ci(op)) == Live(FromCi(l.sys, P.Step(p, CiView(l.sys), op)), PassAfter(Ci(op), l.pass))
  {}

  lemma CiPass(p: C.Policy, l: Live, a: P.Op, b: P.Op, now: Time) returns (run: seq<Move>, u: Live)
    requires p.Valid() && l.sys.hold.Free? && IsWorkerOp(a) && IsWorkerOp(b)
    requires P.Enabled(CiView(l.sys), a) && CiInTurn(CiView(l.sys), a, l.pass)
    requires PassAfter(Ci(a), l.pass) == now && PassAfter(Ci(b), now) == now
    requires P.Enabled(P.Step(p, CiView(l.sys), a), b) && CiInTurn(P.Step(p, CiView(l.sys), a), b, now)
    ensures Orderly(p, l, run) && After(p, l, run) == u && NoWaits(run)
    ensures u == Live(FromCi(l.sys, P.Step(p, P.Step(p, CiView(l.sys), a), b)), now)
  {
    CiMove(p, l, a);
    var v := Served(p, l, Ci(a));
    assert CiView(v.sys) == P.Step(p, CiView(l.sys), a);
    CiMove(p, v, b);
    Two(p, l, Ci(a), Ci(b));
    run, u := [Ci(a), Ci(b)], Served(p, v, Ci(b));
  }

  /** A pass of CI repair that ends idle with tables `t` puts something off. */
  lemma CiPutsOff(p: C.Policy, l: Live, run: seq<Move>, t: C.Tables, u: Live, j: JobId, now: Time)
    requires Fit(l, j, now) && Orderly(p, l, run) && After(p, l, run) == u && NoWaits(run)
    requires u == Live(FromCi(l.sys, P.Sys(t, P.Idle)), now)
    requires t.jobs.Keys == l.sys.desk.jobs.Keys && t.jobs[j] == l.sys.desk.jobs[j] && SameTask(T(l), t, j)
    requires forall i | i in t.jobs && i in l.sys.desk.outbox && l.sys.desk.outbox[i].Open() ::
               t.jobs[i].status == l.sys.desk.jobs[i].status
    ensures PutsOff(p, l, run, u, j, now) && T(u) == t
  {
    OrderlySound(p, l, run);
    CiLeaves(l.sys, t, u.sys, j);
  }

  lemma CiLeaves(s: Sys, t: C.Tables, u: Sys, j: JobId)
    requires Standing(s, j) && Healthy(s.desk) && u == FromCi(s, P.Sys(t, P.Idle)) && SameTask(CiTablesOf(s), t, j)
    requires t.jobs.Keys == s.desk.jobs.Keys && t.jobs[j] == s.desk.jobs[j]
    requires forall i | i in t.jobs && i in s.desk.outbox && s.desk.outbox[i].Open() ::
               t.jobs[i].status == s.desk.jobs[i].status
    ensures Standing(u, j) && Healthy(u.desk) && Kept(s, u, j)
  {}

  // ---------- one row at a time ----------

  const BUSY := "unavailable"

  lemma EscalationSteps(p: C.Policy, t: C.Tables, i: JobId, now: Time)
    requires IsFirst(C.DueEscalations(t, now), C.EscalationRank(t), i)
    ensures
      var s := P.Sys(t, P.Idle);
      && P.Enabled(s, P.ClaimEscalation(i, now))
      && P.Enabled(P.Step(p, s, P.ClaimEscalation(i, now)), P.FailReport(true, BUSY, now))
      && P.Step(p, P.Step(p, s, P.ClaimEscalation(i, now)), P.FailReport(true, BUSY, now))
         == P.Sys(D.FailedReport(t, i, BUSY, now), P.Idle)
  {}

  lemma EscalationPass(p: C.Policy, l: Live, i: JobId, j: JobId, now: Time) returns (run: seq<Move>, u: Live)
    requires p.Valid() && Fit(l, j, now) && IsFirst(C.DueEscalations(T(l), now), C.EscalationRank(T(l)), i)
    ensures PutsOff(p, l, run, u, j, now) && C.DueEscalations(T(u), now) == C.DueEscalations(T(l), now) - {i}
    ensures j in l.sys.ci.tasks ==> u.sys.ci.tasks[j] == l.sys.ci.tasks[j]
  {
    var a, b := P.ClaimEscalation(i, now), P.FailReport(true, BUSY, now);
    EscalationSteps(p, T(l), i, now);
    run, u := CiPass(p, l, a, b, now);
    D.FailedReportDrains(T(l), i, BUSY, now);
    EscalationIsOther(l.sys, i, j);
    CiPutsOff(p, l, run, D.FailedReport(T(l), i, BUSY, now), u, j, now);
  }

  /** A job being escalated is not one a drain must leave alone, and has no report to deliver. */
  lemma EscalationIsOther(s: Sys, i: JobId, j: JobId)
    requires Sound(s) && Healthy(s.desk) && Standing(s, j) && i in s.ci.escalations
             && s.ci.escalations[i].state == C.Undelivered
    ensures i != j && (i in s.desk.outbox ==> !s.desk.outbox[i].Open())
  {
    var t := CiTablesOf(s);
    assert i in t.escalations.Keys && i in t.tasks.Keys && P.TaskOk(t, i);
    assert Engages(s, i) && Engages(s, j);
  }

  lemma RecSteps(p: C.Policy, t: C.Tables, r: C.RecId, now: Time)
    requires IsFirst(C.DueRecs(C.WakeDeadlines(t, now), now), C.RecRank(C.WakeDeadlines(t, now)), r)
    ensures
      var s := P.Sys(t, P.Idle);
      && r in C.WakeDeadlines(t, now).recs
      && P.Enabled(s, P.ClaimRec(r, now))
      && P.Enabled(P.Step(p, s, P.ClaimRec(r, now)), P.FailObserve(C.StaleHead, now))
      && P.Step(p, P.Step(p, s, P.ClaimRec(r, now)), P.FailObserve(C.StaleHead, now))
         == P.Sys(D.StaleRec(t, r, p, now), P.Idle)
  {}

  lemma RecPass(p: C.Policy, l: Live, r: C.RecId, j: JobId, now: Time) returns (run: seq<Move>, u: Live)
    requires p.Valid() && Fit(l, j, now) && EscalationsQuiet(T(l), now)
    requires IsFirst(C.DueRecs(C.WakeDeadlines(T(l), now), now), C.RecRank(C.WakeDeadlines(T(l), now)), r)
    ensures PutsOff(p, l, run, u, j, now) && EscalationsQuiet(T(u), now)
    ensures C.DueRecs(C.WakeDeadlines(T(u), now), now) == C.DueRecs(C.WakeDeadlines(T(l), now), now) - {r}
  {
    run, u := RecRun(p, l, r, now);
    D.StaleRecDrains(T(l), r, p, now);
    StaleLeaves(l.sys, r, p, j, now);
    CiPutsOff(p, l, run, D.StaleRec(T(l), r, p, now), u, j, now);
    SameEscalations(T(l), T(u), now);
  }

  lemma RecRun(p: C.Policy, l: Live, r: C.RecId, now: Time) returns (run: seq<Move>, u: Live)
    requires p.Valid() && Idle(l.sys) && l.pass <= now && EscalationsQuiet(T(l), now)
    requires IsFirst(C.DueRecs(C.WakeDeadlines(T(l), now), now), C.RecRank(C.WakeDeadlines(T(l), now)), r)
    ensures Orderly(p, l, run) && After(p, l, run) == u && NoWaits(run) && r in C.WakeDeadlines(T(l), now).recs
    ensures u == Live(FromCi(l.sys, P.Sys(D.StaleRec(T(l), r, p, now), P.Idle)), now)
  {
    RecSteps(p, T(l), r, now);
    run, u := CiPass(p, l, P.ClaimRec(r, now), P.FailObserve(C.StaleHead, now), now);
  }

  lemma StaleLeaves(s: Sys, r: C.RecId, p: C.Policy, j: JobId, now: Time)
    requires r in C.DueRecs(C.WakeDeadlines(CiTablesOf(s), now), now) && Standing(s, j) && Healthy(s.desk)
    ensures
      var t := D.StaleRec(CiTablesOf(s), r, p, now);
      && t.jobs.Keys == s.desk.jobs.Keys && t.jobs[j] == s.desk.jobs[j] && t.escalations == s.ci.escalations
      && SameTask(CiTablesOf(s), t, j)
      && forall i | i in t.jobs && i in s.desk.outbox && s.desk.outbox[i].Open() ::
         t.jobs[i].status == s.desk.jobs[i].status
  {
    D.StaleRecShape(CiTablesOf(s), r, p, now);
  }

  lemma SameEscalations(t: C.Tables, u: C.Tables, now: Time)
    requires u.escalations == t.escalations && u.jobs.Keys == t.jobs.Keys
    ensures C.DueEscalations(u, now) == C.DueEscalations(t, now)
  {
    forall i
      ensures i in C.DueEscalations(u, now) <==> i in C.DueEscalations(t, now)
    {
      assert i in u.jobs.Keys <==> i in t.jobs.Keys;
    }
  }

  lemma SameRecs(t: C.Tables, u: C.Tables, now: Time)
    requires u.recs == t.recs && u.tasks == t.tasks
    ensures C.DueRecs(C.WakeDeadlines(u, now), now) == C.DueRecs(C.WakeDeadlines(t, now), now)
  {
    forall x
      ensures x in C.DueRecs(C.WakeDeadlines(u, now), now) <==> x in C.DueRecs(C.WakeDeadlines(t, now), now)
    {
      D.DueAfterWake(t, x, now);
      D.DueAfterWake(u, x, now);
    }
  }

  lemma LaunchSteps(p: C.Policy, t: C.Tables, id: C.AttemptId, now: Time)
    requires IsFirst(C.DueLaunches(t, now), C.AttemptRank(t), id)
    ensures
      && C.Has(t, id)
      && var s := P.Sys(t, P.Idle);
      var op := P.Postpone(now + LaunchRetryDelay(C.At(t, id).operations + 1), now);
      && P.Enabled(s, P.ClaimLaunch(id, now)) && P.Enabled(P.Step(p, s, P.ClaimLaunch(id, now)), op)
      && CiInTurn(P.Step(p, s, P.ClaimLaunch(id, now)), op, now)
      && P.Step(p, P.Step(p, s, P.ClaimLaunch(id, now)), op) == P.Sys(D.PostponedLaunch(t, id, p, now), P.Idle)
  {
    D.LaunchIsDue(t, id, now);
    var v := C.TakeLaunch(t, id, p);
    assert C.Has(v, id) && C.At(v, id) == C.WithRuntime(C.At(t, id), p);
  }

  lemma LaunchPass(p: C.Policy, l: Live, id: C.AttemptId, j: JobId, now: Time) returns (run: seq<Move>, u: Live)
    requires p.Valid() && Fit(l, j, now) && RecsQuiet(T(l), now)
             && IsFirst(C.DueLaunches(T(l), now), C.AttemptRank(T(l)), id)
    ensures PutsOff(p, l, run, u, j, now) && RecsQuiet(T(u), now)
    ensures C.DueLaunches(T(u), now) == C.DueLaunches(T(l), now) - {id}
  {
    LaunchSteps(p, T(l), id, now);
    var a, b := P.ClaimLaunch(id, now), P.Postpone(now + LaunchRetryDelay(C.At(T(l), id).operations + 1), now);
    run, u := CiPass(p, l, a, b, now);
    D.PostponedDrains(T(l), id, p, now);
    CiPutsOff(p, l, run, D.PostponedLaunch(T(l), id, p, now), u, j, now);
    SameEscalations(T(l), T(u), now);
    SameRecs(T(l), T(u), now);
  }

  lemma StatusSteps(p: C.Policy, t: C.Tables, id: C.AttemptId, now: Time)
    requires IsFirst(C.DueStatuses(t, now), C.AttemptRank(t), id)
    ensures
      && C.Has(t, id)
      && var s := P.Sys(t, P.Idle);
      var op := P.Reschedule(true, now + PreOutboxRetryDelay(C.At(t, id).operations + 1), now);
      && P.Enabled(s, P.ClaimStatus(id, now)) && P.Enabled(P.Step(p, s, P.ClaimStatus(id, now)), op)
      && CiInTurn(P.Step(p, s, P.ClaimStatus(id, now)), op, now)
      && P.Step(p, P.Step(p, s, P.ClaimStatus(id, now)), op) == P.Sys(D.DeferredStatus(t, id, p, now), P.Idle)
  {
    D.LaunchIsDue(t, id, now);
    var v := C.TakeStatus(t, id, p, now);
    assert C.Has(v, id) && C.At(v, id) == C.WithRuntime(C.At(t, id), p).(due := now + CI_RECONCILE_LEASE);
  }

  lemma StatusPass(p: C.Policy, l: Live, id: C.AttemptId, j: JobId, now: Time) returns (run: seq<Move>, u: Live)
    requires p.Valid() && Fit(l, j, now) && LaunchesQuiet(T(l), now)
             && IsFirst(C.DueStatuses(T(l), now), C.AttemptRank(T(l)), id)
    ensures PutsOff(p, l, run, u, j, now) && LaunchesQuiet(T(u), now)
    ensures C.DueStatuses(T(u), now) == C.DueStatuses(T(l), now) - {id}
  {
    StatusSteps(p, T(l), id, now);
    var a, b := P.ClaimStatus(id, now), P.Reschedule(true, now + PreOutboxRetryDelay(C.At(T(l), id).operations + 1),
        now);
    run, u := CiPass(p, l, a, b, now);
    D.DeferredDrains(T(l), id, p, now);
    CiPutsOff(p, l, run, D.DeferredStatus(T(l), id, p, now), u, j, now);
    SameEscalations(T(l), T(u), now);
    SameRecs(T(l), T(u), now);
  }

  function FailedPost(d: Desk, i: JobId, now: Time): Option<Desk>
    requires i in d.outbox
  {
    MarkReportFailure(d, i, d.outbox[i].attempts, Retries(true, d.outbox[i].attempts), BUSY, now)
  }

  lemma FailedPostDrains(d: Desk, i: JobId, now: Time)
    requires i in DueNotices(d, now) && Healthy(d)
    ensures FailedPost(d, i, now).Some?
    ensures
      var u := FailedPost(d, i, now).value;
      && DueNotices(u, now) == DueNotices(d, now) - {i} && Healthy(u) && u.jobs.Keys == d.jobs.Keys
      && u.terminals == d.terminals && u.outbox.Keys == d.outbox.Keys
      && (forall x | x in d.jobs && x != i :: u.jobs[x] == d.jobs[x])
      && (forall x | x in d.outbox && x != i :: u.outbox[x] == d.outbox[x])
  {}

  lemma NoticeMoves(p: C.Policy, l: Live, i: JobId, now: Time) returns (run: seq<Move>, u: Live)
    requires Idle(l.sys) && l.pass <= now && (p.Valid() ==> CiQuiet(T(l), now))
    requires IsFirst(DueNotices(l.sys.desk, now), NoticeRank(l.sys.desk), i)
    ensures i in l.sys.desk.outbox && Orderly(p, l, run) && After(p, l, run) == u && NoWaits(run)
    ensures u == Live(Answer(l.sys, FailedPost(l.sys.desk, i, now)), now)
  {
    var m, n := ClaimNotice(i, now), PostFailed(true, BUSY);
    assert Serves(p, l, m);
    assert Served(p, l, m) == Live(l.sys.(hold := Reporting(i, l.sys.desk.outbox[i].attempts, now)), now);
    Two(p, l, m, n);
    run, u := [m, n], Served(p, Served(p, l, m), n);
  }

  lemma NoticePass(p: C.Policy, l: Live, i: JobId, j: JobId, now: Time) returns (run: seq<Move>, u: Live)
    requires Fit(l, j, now) && (p.Valid() ==> CiQuiet(T(l), now)) && j !in l.sys.desk.outbox
    requires IsFirst(DueNotices(l.sys.desk, now), NoticeRank(l.sys.desk), i)
    ensures PutsOff(p, l, run, u, j, now) && (p.Valid() ==> CiQuiet(T(u), now))
    ensures DueNotices(u.sys.desk, now) == DueNotices(l.sys.desk, now) - {i}
  {
    run, u := NoticeMoves(p, l, i, now);
    FailedPostDrains(l.sys.desk, i, now);
    OrderlySound(p, l, run);
    SameQuiet(T(l), T(u), now);
  }

  lemma SameQuiet(t: C.Tables, u: C.Tables, now: Time)
    requires u == t.(jobs := u.jobs) && u.jobs.Keys == t.jobs.Keys
    ensures CiQuiet(u, now) <==> CiQuiet(t, now)
  {
    SameEscalations(t, u, now);
    SameRecs(t, u, now);
    forall id
      ensures id in C.DueLaunches(u, now) <==> id in C.DueLaunches(t, now)
      ensures id in C.DueStatuses(u, now) <==> id in C.DueStatuses(t, now)
    {
      D.LaunchIsDue(t, id, now);
      D.LaunchIsDue(u, id, now);
    }
    assert C.DueLaunches(u, now) == C.DueLaunches(t, now) && C.DueStatuses(u, now) == C.DueStatuses(t, now);
  }

  // ---------- all rows of a kind, and then all of them ----------

  lemma Nothing(p: C.Policy, l: Live, j: JobId, now: Time)
    requires Fit(l, j, now)
    ensures PutsOff(p, l, [], l, j, now)
  {}

  lemma OneEscalation(p: C.Policy, l: Live, j: JobId, now: Time) returns (run: seq<Move>, u: Live)
    requires p.Valid() && Fit(l, j, now)
    requires C.DueEscalations(T(l), now) != {}
    ensures PutsOff(p, l, run, u, j, now) && (j in l.sys.ci.tasks ==> u.sys.ci.tasks[j] == l.sys.ci.tasks[j])
    ensures |C.DueEscalations(T(u), now)| < |C.DueEscalations(T(l), now)|
  {
    FirstExists(C.DueEscalations(T(l), now), C.EscalationRank(T(l)));
    var i :| IsFirst(C.DueEscalations(T(l), now), C.EscalationRank(T(l)), i);
    run, u := EscalationPass(p, l, i, j, now);
  }

  lemma {:induction false} DrainEscalations(p: C.Policy, l: Live, j: JobId, now: Time) returns (run: seq<Move>, u: Live)
    requires p.Valid() && Fit(l, j, now)
    ensures PutsOff(p, l, run, u, j, now) && EscalationsQuiet(T(u), now)
    ensures j in l.sys.ci.tasks ==> u.sys.ci.tasks[j] == l.sys.ci.tasks[j]
    decreases |C.DueEscalations(T(l), now)|
  {
    if EscalationsQuiet(T(l), now) {
      Nothing(p, l, j, now);
      run, u := [], l;
    } else {
      var a, v := OneEscalation(p, l, j, now);
      var b;
      b, u := DrainEscalations(p, v, j, now);
      Chain(p, l, a, v, b, u, j, now);
      run := a + b;
    }
  }

  function OpenRecs(t: C.Tables, now: Time): set<C.RecId> {
    C.DueRecs(C.WakeDeadlines(t, now), now)
  }

  predicate NextRec(t: C.Tables, r: C.RecId, now: Time) {
    IsFirst(OpenRecs(t, now), C.RecRank(C.WakeDeadlines(t, now)), r)
  }

  lemma NextRecExists(t: C.Tables, now: Time) returns (r: C.RecId)
    requires OpenRecs(t, now) != {}
    ensures NextRec(t, r, now) && r in OpenRecs(t, now)
  {
    var w := C.WakeDeadlines(t, now);
    FirstExists(C.DueRecs(w, now), C.RecRank(w));
    r :| IsFirst(C.DueRecs(w, now), C.RecRank(w), r);
  }

  lemma OneRec(p: C.Policy, l: Live, r: C.RecId, j: JobId, now: Time) returns (run: seq<Move>, u: Live)
    requires p.Valid() && Fit(l, j, now) && EscalationsQuiet(T(l), now) && NextRec(T(l), r, now)
             && r in OpenRecs(T(l), now)
    ensures PutsOff(p, l, run, u, j, now) && EscalationsQuiet(T(u), now)
    ensures OpenRecs(T(u), now) == OpenRecs(T(l), now) - {r} && |OpenRecs(T(u), now)| < |OpenRecs(T(l), now)|
  {
    run, u := RecPass(p, l, r, j, now);
  }

  lemma {:induction false} DrainRecs(p: C.Policy, l: Live, j: JobId, now: Time) returns (run: seq<Move>, u: Live)
    requires p.Valid() && Fit(l, j, now) && EscalationsQuiet(T(l), now)
    ensures PutsOff(p, l, run, u, j, now) && EscalationsQuiet(T(u), now) && OpenRecs(T(u), now) == {}
    decreases |OpenRecs(T(l), now)|
  {
    if OpenRecs(T(l), now) == {} {
      Nothing(p, l, j, now);
      run, u := [], l;
    } else {
      var r := NextRecExists(T(l), now);
      var a, v := OneRec(p, l, r, j, now);
      var b;
      b, u := DrainRecs(p, v, j, now);
      Chain(p, l, a, v, b, u, j, now);
      run := a + b;
    }
  }

  /** Puts off other reconciliations until `target` is the one a claim takes. */
  lemma {:induction false} DrainRecsTo(p: C.Policy, l: Live, target: C.RecId, j: JobId, now: Time)
    returns (run: seq<Move>, u: Live)
    requires p.Valid() && Fit(l, j, now) && EscalationsQuiet(T(l), now) && target in OpenRecs(T(l), now)
    ensures PutsOff(p, l, run, u, j, now) && EscalationsQuiet(T(u), now) && NextRec(T(u), target, now)
    decreases |OpenRecs(T(l), now)|
  {
    var r := NextRecExists(T(l), now);
    if r == target {
      Nothing(p, l, j, now);
      run, u := [], l;
    } else {
      var a, v := OneRec(p, l, r, j, now);
      var b;
      b, u := DrainRecsTo(p, v, target, j, now);
      Chain(p, l, a, v, b, u, j, now);
      run := a + b;
    }
  }

  lemma OneLaunch(p: C.Policy, l: Live, j: JobId, now: Time) returns (run: seq<Move>, u: Live)
    requires p.Valid() && Fit(l, j, now) && RecsQuiet(T(l), now)
    requires C.DueLaunches(T(l), now) != {}
    ensures PutsOff(p, l, run, u, j, now) && RecsQuiet(T(u), now)
    ensures |C.DueLaunches(T(u), now)| < |C.DueLaunches(T(l), now)|
  {
    FirstExists(C.DueLaunches(T(l), now), C.AttemptRank(T(l)));
    var id :| IsFirst(C.DueLaunches(T(l), now), C.AttemptRank(T(l)), id);
    run, u := LaunchPass(p, l, id, j, now);
  }

  lemma {:induction false} DrainLaunches(p: C.Policy, l: Live, j: JobId, now: Time) returns (run: seq<Move>, u: Live)
    requires p.Valid() && Fit(l, j, now) && RecsQuiet(T(l), now)
    ensures PutsOff(p, l, run, u, j, now) && LaunchesQuiet(T(u), now)
    decreases |C.DueLaunches(T(l), now)|
  {
    if LaunchesQuiet(T(l), now) {
      Nothing(p, l, j, now);
      run, u := [], l;
    } else {
      var a, v := OneLaunch(p, l, j, now);
      var b;
      b, u := DrainLaunches(p, v, j, now);
      Chain(p, l, a, v, b, u, j, now);
      run := a + b;
    }
  }

  lemma OneStatus(p: C.Policy, l: Live, j: JobId, now: Time) returns (run: seq<Move>, u: Live)
    requires p.Valid() && Fit(l, j, now) && LaunchesQuiet(T(l), now)
    requires C.DueStatuses(T(l), now) != {}
    ensures PutsOff(p, l, run, u, j, now) && LaunchesQuiet(T(u), now)
    ensures |C.DueStatuses(T(u), now)| < |C.DueStatuses(T(l), now)|
  {
    FirstExists(C.DueStatuses(T(l), now), C.AttemptRank(T(l)));
    var id :| IsFirst(C.DueStatuses(T(l), now), C.AttemptRank(T(l)), id);
    run, u := StatusPass(p, l, id, j, now);
  }

  lemma {:induction false} DrainStatuses(p: C.Policy, l: Live, j: JobId, now: Time) returns (run: seq<Move>, u: Live)
    requires p.Valid() && Fit(l, j, now) && LaunchesQuiet(T(l), now)
    ensures PutsOff(p, l, run, u, j, now) && CiQuiet(T(u), now)
    decreases |C.DueStatuses(T(l), now)|
  {
    if CiQuiet(T(l), now) {
      Nothing(p, l, j, now);
      run, u := [], l;
    } else {
      var a, v := OneStatus(p, l, j, now);
      var b;
      b, u := DrainStatuses(p, v, j, now);
      Chain(p, l, a, v, b, u, j, now);
      run := a + b;
    }
  }

  lemma OneNotice(p: C.Policy, l: Live, j: JobId, now: Time) returns (run: seq<Move>, u: Live)
    requires Fit(l, j, now) && (p.Valid() ==> CiQuiet(T(l), now)) && j !in l.sys.desk.outbox
    requires DueNotices(l.sys.desk, now) != {}
    ensures PutsOff(p, l, run, u, j, now) && (p.Valid() ==> CiQuiet(T(u), now))
    ensures |DueNotices(u.sys.desk, now)| < |DueNotices(l.sys.desk, now)|
  {
    FirstExists(DueNotices(l.sys.desk, now), NoticeRank(l.sys.desk));
    var i :| IsFirst(DueNotices(l.sys.desk, now), NoticeRank(l.sys.desk), i);
    run, u := NoticePass(p, l, i, j, now);
  }

  lemma {:induction false} DrainNotices(p: C.Policy, l: Live, j: JobId, now: Time) returns (run: seq<Move>, u: Live)
    requires Fit(l, j, now) && (p.Valid() ==> CiQuiet(T(l), now)) && j !in l.sys.desk.outbox
    ensures PutsOff(p, l, run, u, j, now) && Quiet(p, u.sys, now)
    decreases |DueNotices(l.sys.desk, now)|
  {
    if DueNotices(l.sys.desk, now) == {} {
      Nothing(p, l, j, now);
      run, u := [], l;
    } else {
      var a, v := OneNotice(p, l, j, now);
      var b;
      b, u := DrainNotices(p, v, j, now);
      Chain(p, l, a, v, b, u, j, now);
      run := a + b;
    }
  }

  lemma DrainCi(p: C.Policy, l: Live, j: JobId, now: Time) returns (run: seq<Move>, u: Live)
    requires p.Valid() && Fit(l, j, now)
    ensures PutsOff(p, l, run, u, j, now) && CiQuiet(T(u), now)
  {
    var a, v := DrainEscalations(p, l, j, now);
    var b, w := DrainRecs(p, v, j, now);
    Chain(p, l, a, v, b, w, j, now);
    var c, x := DrainLaunches(p, w, j, now);
    Chain(p, l, a + b, w, c, x, j, now);
    var d;
    d, u := DrainStatuses(p, x, j, now);
    Chain(p, l, a + b + c, x, d, u, j, now);
    run := a + b + c + d;
  }

  /** Whatever is due, answers that put it off lead to a pass in which only jobs are left to serve. */
  lemma DrainAll(p: C.Policy, l: Live, j: JobId, now: Time) returns (run: seq<Move>, u: Live)
    requires Fit(l, j, now) && j !in l.sys.desk.outbox
    ensures PutsOff(p, l, run, u, j, now) && Quiet(p, u.sys, now)
  {
    if p.Valid() {
      var a, v := DrainCi(p, l, j, now);
      var b;
      b, u := DrainNotices(p, v, j, now);
      Chain(p, l, a, v, b, u, j, now);
      run := a + b;
    } else {
      run, u := DrainNotices(p, l, j, now);
    }
  }
}
