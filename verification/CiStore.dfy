/** The CI repair store: each method is one transaction, written as the sequence of row updates it makes. */
module CiStore {
  import opened Basics
  import opened Delays
  import opened ExternalWaits
  import opened Jobs
  import opened CiTables

  /** A transaction that fails leaves every table as it was. */
  predicate Committed(before: Tables, after: Tables, outcome: Option<Tables>, ok: bool) {
    ok == outcome.Some? && after == if outcome.Some? then outcome.value else before
  }

  class Store {
    var tasks: map<JobId, Task>
    var attempts: map<JobId, map<int, Attempt>>
    var recs: map<RecId, Rec>
    var escalations: map<JobId, Escalation>
    var events: set<CiEvent>
    var jobs: map<JobId, Job>
    const policy: Policy

    function T(): Tables
      reads this
    {
      Tables(tasks, attempts, recs, escalations, events, jobs)
    }

    constructor (policy: Policy)
      ensures T() == Tables(map[], map[], map[], map[], {}, map[]) && this.policy == policy
    {
      this.policy := policy;
      tasks, attempts, recs, escalations, events, jobs := map[], map[], map[], map[], {}, map[];
    }

    method SetJobStatus(j: JobId, status: Status)
      modifies this`jobs
      ensures jobs == SetJob(old(jobs), j, status)
    {
      if j in jobs {
        jobs := jobs[j := jobs[j].(status := status)];
      }
    }

    method SetAttempt(id: AttemptId, a: Attempt)
      modifies this`attempts
      ensures attempts == old(Put(T(), id, a))
    {
      var book := if id.job in attempts then attempts[id.job] else map[];
      book := book[id.number := a];
      attempts := attempts[id.job := book];
    }

    method BeginCiWait(e: Entry, now: Time) returns (ok: bool)
      modifies this
      ensures Committed(old(T()), T(), old(BeginWait(T(), e, now)), ok)
    {
      if !e.Valid(now) || e.job !in jobs {
        return false;
      }
      if e.job in tasks && !e.Matches(tasks[e.job]) {
        return false;
      }
      if e.job !in tasks {
        tasks := tasks[e.job := e.NewTask()];
      }
      var job := jobs[e.job];
      if job.status == Launched || job.status == CiWaiting {
        jobs := jobs[e.job := job.(status := CiWaiting, due := e.deadline, lastError := "")];
      }
      var r := RecId(e.job, e.head);
      if r !in recs {
        recs := recs[r := Rec(Queued, false, false, 0, now)];
      }
      return true;
    }

    method VisitTarget(e: CiEvent, j: JobId, now: Time) returns (stirred: bool)
      requires Concerns(T(), e, j)
      modifies this`attempts, this`recs
      ensures stirred == old(Stirs(T(), e, j))
      ensures attempts == if j in old(attempts) then old(attempts)[j := old(WokenBook(T(), e, j, now))]
              else old(attempts)
      ensures
        var r := RecId(j, e.head);
        recs == if tasks[j].state != WaitingCi then old(recs)
                else old(recs)[r := if r in old(recs) then Requeued(old(recs)[r], now)
                    else Rec(Queued, false, false, 0, now)]
    {
      stirred := Stirs(T(), e, j);
      if tasks[j].state == RepairRunning {
        if j in attempts {
          attempts := attempts[j := WokenBook(T(), e, j, now)];
        }
      } else {
        assert forall n :: !WakesRun(T(), e, AttemptId(j, n));
        assert j in attempts ==> WokenBook(T(), e, j, now) == attempts[j] == Book(T(), j);
        assert j in attempts ==> attempts == attempts[j := WokenBook(T(), e, j, now)];
        if tasks[j].state == WaitingCi {
          var r := RecId(j, e.head);
          recs := recs[r := if r in recs then Requeued(recs[r], now) else Rec(Queued, false, false, 0, now)];
        }
      }
    }

    /** Visits every task the event concerns, one at a time. */
    method RecordCiEvent(e: CiEvent, now: Time) returns (ok: bool, queued: bool)
      modifies this
      ensures Committed(old(T()), T(), old(RecordEvent(T(), e, now)), ok)
      ensures queued <==> ok && T() != old(T()) && exists j | j in old(tasks) :: old(Stirs(T(), e, j))
    {
      queued := false;
      if e.delivery == "" || e.repository == "" || !IsSha(e.head) {
        return false, false;
      }
      if e.kind.OtherEvent? || Known(T(), e) {
        return true, false;
      }
      assert e !in events by {
        assert e.SameAs(e);
      }
      queued := VisitTargets(e, now);
      events := events + {e};
      return true, queued;
    }

    /** Brings the event to every task it concerns, one by one. */
    method VisitTargets(e: CiEvent, now: Time) returns (queued: bool)
      modifies this
      ensures
        T() == old(T()).(attempts := WokenAttempts(old(T()), e, now), recs := RequeuedRecs(old(T()), e, now))
      ensures queued <==> exists j | j in old(tasks) :: old(Stirs(T(), e, j))
    {
      ghost var t := T();
      queued := false;
      var targets := set j | j in tasks && Concerns(T(), e, j);
      ghost var visited := {};
      while targets != {}
        invariant T() == t.(attempts := attempts, recs := recs)
        invariant forall j :: j in targets + visited <==> Concerns(t, e, j)
        invariant targets !! visited
        invariant PartlyVisited(t, attempts, recs, e, visited, now)
        invariant queued <==> exists j | j in visited :: Stirs(t, e, j)
      {
        var j :| j in targets;
        SameTarget(t, T(), e, j, visited, now);
        var stirred := VisitTarget(e, j, now);
        VisitOne(t, attempts, recs, e, visited, j, now);
        queued := queued || stirred;
        targets, visited := targets - {j}, visited + {j};
      }
      AllVisited(t, attempts, recs, e, visited, now);
    }

    /** Wakes every overdue task, then takes the first due reconciliation. */
    method ClaimReconciliation(now: Time) returns (work: Option<RecId>)
      modifies this
      ensures
        var t := WakeDeadlines(old(T()), now);
        match work
        case None => DueRecs(t, now) == {} && T() == t
        case Some(r) => IsFirst(DueRecs(t, now), RecRank(t), r) && T() == TakeRec(t, r, now)
    {
      recs := WakeDeadlines(T(), now).recs;
      var due := DueRecs(T(), now);
      if due == {} {
        return None;
      }
      var r := QueryFirst(due, RecRank(T()));
      recs := recs[r := recs[r].(state := InFlight, dirty := false, due := now + CI_RECONCILE_LEASE)];
      return Some(r);
    }

    method QueueEscalation(j: JobId, reason: Reason, repairs: nat, now: Time)
      requires j in tasks
      modifies this
      ensures T() == Escalate(old(T()), j, reason, repairs, now)
    {
      if j !in escalations {
        escalations := escalations[j := Escalation(Undelivered, reason, repairs, 0, now, None)];
      }
      tasks := tasks[j := tasks[j].(state := EscalationPending)];
      SetJobStatus(j, CiEscalation);
    }

    method FailReconciliation(r: RecId, operations: nat, failure: ObserveFailure, now: Time) returns (ok: bool)
      modifies this
      ensures Committed(old(T()), T(), old(FailRec(T(), r, operations, failure, policy, now)), ok)
    {
      if r !in recs || recs[r].state != InFlight || r.job !in tasks {
        return false;
      }
      var rec := recs[r].(operations := recs[r].operations + 1);
      if failure == Retryable {
        recs := recs[r := rec.(state := Queued, due := now + PreOutboxRetryDelay(operations + 1))];
        return true;
      }
      recs := recs[r := rec.(state := Done)];
      if failure == StaleHead {
        var wake := now + policy.wake;
        if tasks[r.job].state == WaitingCi {
          tasks := tasks[r.job := tasks[r.job].(deadline := wake)];
        }
        if r.job in jobs && jobs[r.job].status == CiWaiting {
          jobs := jobs[r.job := jobs[r.job].(due := wake)];
        }
      } else {
        QueueEscalation(r.job, ObservationInvalid, tasks[r.job].repairs, now);
      }
      return true;
    }

    method ApplyCiObservation(r: RecId, o: Observation, now: Time) returns (ok: bool)
      modifies this
      ensures Committed(old(T()), T(), old(ApplyObservation(T(), r, o, policy, now)), ok)
    {
      var j := r.job;
      if !(1 <= policy.maxAttempts <= 2) || j !in tasks {
        return false;
      }
      if o.repository != tasks[j].repository || o.pull != tasks[j].pull || !IsSha(o.head) {
        return false;
      }
      if Terminal(tasks[j].state) {
        return true;
      }
      var id := AttemptId(j, tasks[j].repairs + 1);
      if o.verdict == CodeFailure && tasks[j].repairs < policy.maxAttempts && Has(T(), id)
         && (At(T(), id).failedHead != o.head || At(T(), id).model != tasks[j].model) {
        return false;
      }
      if r in recs {
        recs := recs[r := FinishRec(recs[r], o.verdict, now)];
      }
      if tasks[j].head != o.head {
        tasks := tasks[j := tasks[j].(head := o.head, state := WaitingCi)];
      }
      tasks := tasks[j := tasks[j].(lastCi := Some(o.verdict))];
      assert T() == old(Observed(T(), r, o, now));
      ApplyToTask(j, o.verdict, now);
      return true;
    }

    method ApplyToTask(j: JobId, verdict: Verdict, now: Time)
      requires j in tasks && ApplyVerdict(T(), j, verdict, policy, now).Some?
      modifies this
      ensures Some(T()) == ApplyVerdict(old(T()), j, verdict, policy, now)
    {
      var task := tasks[j];
      if verdict == Success {
        tasks := tasks[j := task.(state := TaskCompleted)];
        SetJobStatus(j, Completed);
      } else if verdict == Infrastructure {
        QueueEscalation(j, InfrastructureFailure, task.repairs, now);
      } else if verdict == CodeFailure && task.repairs >= policy.maxAttempts {
        QueueEscalation(j, AttemptsExhausted, task.repairs, now);
      } else if verdict == Pending {
        var wake := now + policy.wake;
        tasks := tasks[j := task.(state := WaitingCi, deadline := wake)];
        if j in jobs {
          jobs := jobs[j := jobs[j].(status := CiWaiting, due := wake)];
        }
      } else {
        var id := AttemptId(j, task.repairs + 1);
        if !Has(T(), id) {
          SetAttempt(id, NewAttempt(task, task.head, policy.runtimeSeconds, now));
        }
        tasks := tasks[j := task.(state := RepairReady)];
        if j in jobs {
          jobs := jobs[j := jobs[j].(status := CiRepair, due := now)];
        }
      }
    }

    method ClaimRepair(now: Time) returns (work: Option<AttemptId>)
      modifies this
      ensures
        match work
        case None => DueLaunches(T(), now) == {} && T() == old(T())
        case Some(id) =>
          IsFirst(old(DueLaunches(T(), now)), old(AttemptRank(T())), id) && T() == TakeLaunch(old(T()), id, policy)
    {
      var due := DueLaunches(T(), now);
      if due == {} {
        return None;
      }
      var id := QueryFirst(due, AttemptRank(T()));
      SetAttempt(id, WithRuntime(At(T(), id), policy));
      return Some(id);
    }

    method BindRepairRun(id: AttemptId, run: string, now: Time) returns (ok: bool)
      modifies this
      ensures Committed(old(T()), T(), old(BindRun(T(), id, run, now)), ok)
    {
      if run == "" || !Has(T(), id) {
        return false;
      }
      var a := At(T(), id);
      if a.run != "" && a.run != run {
        return false;
      }
      if a.Open() {
        SetAttempt(id, a.(state := Running, run := run, operations := a.operations + 1,
            due := now + STATUS_POLL_INTERVAL));
      }
      if id.job in tasks && (tasks[id.job].state == RepairReady || tasks[id.job].state == RepairRunning) {
        tasks := tasks[id.job := tasks[id.job].(state := RepairRunning)];
      }
      return true;
    }

    method DeferRepairLaunch(id: AttemptId, due: Time, now: Time) returns (ok: bool)
      modifies this
      ensures Committed(old(T()), T(), old(DeferLaunch(T(), id, due, now)), ok)
    {
      if due <= now || !Has(T(), id) || At(T(), id).state != Ready {
        return false;
      }
      SetAttempt(id, At(T(), id).(operations := At(T(), id).operations + 1, due := due));
      return true;
    }

    method ClaimRepairStatus(now: Time) returns (work: Option<AttemptId>)
      modifies this
      ensures
        match work
        case None => DueStatuses(T(), now) == {} && T() == old(T())
        case Some(id) =>
          IsFirst(old(DueStatuses(T(), now)), old(AttemptRank(T())), id) && T() == TakeStatus(old(T()), id, policy, now)
    {
      var due := DueStatuses(T(), now);
      if due == {} {
        return None;
      }
      var id := QueryFirst(due, AttemptRank(T()));
      SetAttempt(id, WithRuntime(At(T(), id), policy).(due := now + CI_RECONCILE_LEASE));
      return Some(id);
    }

    method RecordExternalWait(id: AttemptId, run: string, wait: ExternalWait) returns (ok: bool)
      modifies this
      ensures Committed(old(T()), T(), old(RecordWait(T(), id, run, wait)), ok)
    {
      if run == "" || !wait.Valid() || !Has(T(), id) {
        return false;
      }
      var a := At(T(), id);
      var key := KeyOf(id, a, wait.generation);
      if a.state != Running || a.run != run || wait.generation < a.WaitGeneration()
          || wait.generation <= a.resumedGeneration {
        return false;
      }
      if wait.generation == a.WaitGeneration() {
        return a.wait == Some(wait) && a.resumeKey == Some(key);
      }
      SetAttempt(id, a.(wait := Some(wait), resumeKey := Some(key)));
      return true;
    }

    method MarkExternalResumed(id: AttemptId, key: ResumeKey, generation: int, due: Time, now: Time) returns (ok: bool)
      modifies this
      ensures Committed(old(T()), T(), old(MarkResumed(T(), id, key, generation, due, now)), ok)
    {
      if generation < 1 || due <= now || !Has(T(), id) {
        return false;
      }
      var a := At(T(), id);
      if ResumeMatches(a, key, generation) {
        SetAttempt(id, a.(resumedGeneration := generation, due := due));
        return true;
      }
      return a.resumedGeneration >= generation;
    }

    method RescheduleRepairStatus(id: AttemptId, counted: bool, due: Time, now: Time) returns (ok: bool)
      modifies this
      ensures Committed(old(T()), T(), old(RescheduleStatus(T(), id, counted, due, now)), ok)
    {
      if due <= now || !Has(T(), id) || At(T(), id).state != Running {
        return false;
      }
      var a := At(T(), id);
      SetAttempt(id, a.(operations := a.operations + (if counted then 1 else 0), due := due));
      return true;
    }

    method FinishRepairFailure(id: AttemptId, cause: FailureClass, started: bool, now: Time) returns (ok: bool)
      modifies this
      ensures Committed(old(T()), T(), old(FinishFailure(T(), id, cause, started, policy, now)), ok)
    {
      var j := id.job;
      if !(1 <= policy.maxAttempts <= 2) || !Has(T(), id) || j !in tasks {
        return false;
      }
      var a := At(T(), id);
      if a.state == AttemptFailed {
        return a.failureClass == Some(cause) && a.charged == started;
      }
      if a.state != Running && !(a.state == Ready && !started) {
        return false;
      }
      var charge := started && !a.charged;
      if charge && tasks[j].repairs + 1 > policy.maxAttempts {
        return false;
      }
      var repairs := tasks[j].repairs + (if charge then 1 else 0);
      var stop := Stops(cause, started, repairs, id.number, policy.maxAttempts);
      var next := AttemptId(j, id.number + 1);
      if !stop && Has(T(), next) {
        return false;
      }
      if charge {
        tasks := tasks[j := tasks[j].(repairs := repairs)];
      }
      SetAttempt(id, a.(charged := a.charged || charge, state := AttemptFailed, failureClass := Some(cause)));
      assert T() == old(CloseFailed(T(), id, cause, charge));
      if stop {
        QueueEscalation(j, if started then AttemptsExhausted else InfrastructureFailure, repairs, now);
      } else {
        SetAttempt(next, NewAttempt(tasks[j], tasks[j].head, policy.runtimeSeconds, now));
        tasks := tasks[j := tasks[j].(state := RepairReady)];
        SetJobStatus(j, CiRepair);
      }
      return true;
    }

    method ChargeAttempt(id: AttemptId) returns (ok: bool)
      modifies this
      ensures Committed(old(T()), T(), old(Charge(T(), id)), ok)
    {
      if !Has(T(), id) || At(T(), id).state == Ready {
        return false;
      }
      var a := At(T(), id);
      if a.charged {
        return true;
      }
      if id.job !in tasks || tasks[id.job].repairs >= id.number {
        return false;
      }
      SetAttempt(id, a.(charged := true));
      tasks := tasks[id.job := tasks[id.job].(repairs := tasks[id.job].repairs + 1)];
      return true;
    }

    method CompleteRepairDelivery(id: AttemptId, d: Delivery, now: Time) returns (ok: bool)
      modifies this
      ensures Committed(old(T()), T(), old(CompleteDelivery(T(), id, d, policy, now)), ok)
    {
      var j := id.job;
      if !d.Exact() || !Has(T(), id) || !At(T(), id).charged || j !in tasks {
        return false;
      }
      var a := At(T(), id);
      if a.state == CandidateDelivered {
        return a.delivery.Some? && a.delivery.value.(expectedOldHead := d.expectedOldHead) == d;
      }
      if a.state != Running {
        return false;
      }
      SetAttempt(id, a.(state := CandidateDelivered, delivery := Some(d)));
      var wake := now + policy.wake;
      tasks := tasks[j := tasks[j].(state := WaitingCi, head := d.deliveredHead, lastCi := None, deadline := wake)];
      if j in jobs {
        jobs := jobs[j := jobs[j].(status := CiWaiting, due := wake)];
      }
      return true;
    }

    method ClaimCiEscalation(now: Time) returns (work: Option<JobId>)
      ensures
        match work
        case None => DueEscalations(T(), now) == {}
        case Some(j) => IsFirst(DueEscalations(T(), now), EscalationRank(T()), j)
    {
      var due := DueEscalations(T(), now);
      if due == {} {
        return None;
      }
      var j := QueryFirst(due, EscalationRank(T()));
      return Some(j);
    }

    method MarkDelivered(j: JobId, comment: int) returns (ok: bool)
      modifies this
      ensures Committed(old(T()), T(), old(MarkEscalationDelivered(T(), j, comment)), ok)
    {
      if comment < 1 || j !in escalations || escalations[j].state != Undelivered {
        return false;
      }
      var e := escalations[j];
      escalations := escalations[j := e.(state := Delivered, comment := Some(comment), attempts := e.attempts + 1)];
      if j in tasks && tasks[j].state == EscalationPending {
        tasks := tasks[j := tasks[j].(state := Escalated)];
      }
      SetJobStatus(j, Failed);
      return true;
    }

    method MarkDeliveryFailure(j: JobId, attempts: nat, retry: bool, message: string, now: Time) returns (ok: bool)
      modifies this
      ensures Committed(old(T()), T(), old(MarkEscalationFailure(T(), j, attempts, retry, message, now)), ok)
    {
      if j !in escalations || escalations[j].state != Undelivered {
        return false;
      }
      var e := escalations[j].(attempts := escalations[j].attempts + 1);
      if retry && attempts + 1 < REPORT_RETRY_MAX_ATTEMPTS {
        escalations := escalations[j := e.(due := now + ReportRetryDelay(attempts + 1))];
        return true;
      }
      escalations := escalations[j := e.(state := Blocked, due := now)];
      if j in tasks && tasks[j].state == EscalationPending {
        tasks := tasks[j := tasks[j].(state := EscalationBlocked)];
      }
      if j in jobs {
        jobs := jobs[j := jobs[j].(status := ReportBlocked, lastError := message)];
      }
      return true;
    }
  }

  /** The tables after the event has been brought to the tasks in `visited`. */
  ghost predicate PartlyVisited(
    t: Tables, attempts: map<JobId, map<int, Attempt>>, recs: map<RecId, Rec>, e: CiEvent, visited: set<JobId>,
        now: Time)
  {
    && attempts.Keys == t.attempts.Keys
    && (forall j | j in attempts :: attempts[j] == if j in visited then WokenBook(t, e, j, now) else t.attempts[j])
    && (forall r :: r in recs <==> r in t.recs || (r.job in visited && Requeues(t, e, r)))
    && (forall r | r in recs ::
          recs[r] == if r.job in visited && Requeues(t, e, r)
                     then (if r in t.recs then Requeued(t.recs[r], now) else Rec(Queued, false, false, 0, now))
                     else t.recs[r])
  }

  lemma SameTarget(t: Tables, u: Tables, e: CiEvent, j: JobId, visited: set<JobId>, now: Time)
    requires u.tasks == t.tasks && PartlyVisited(t, u.attempts, u.recs, e, visited, now) && j !in visited
    ensures Book(u, j) == Book(t, j) && WokenBook(u, e, j, now) == WokenBook(t, e, j, now)
    ensures Stirs(u, e, j) <==> Stirs(t, e, j)
  {
    assert Book(u, j) == Book(t, j);
    assert forall n :: WakesRun(u, e, AttemptId(j, n)) <==> WakesRun(t, e, AttemptId(j, n));
    assert WokenBook(u, e, j, now) == WokenBook(t, e, j, now);
  }

  lemma VisitOne(
    t: Tables, attempts: map<JobId, map<int, Attempt>>, recs: map<RecId, Rec>, e: CiEvent, visited: set<JobId>,
        j: JobId, now: Time)
    requires Concerns(t, e, j) && j !in visited
    requires exists a, r0 ::
      && PartlyVisited(t, a, r0, e, visited, now)
      && attempts == (if j in a then a[j := WokenBook(t, e, j, now)] else a)
      && var r := RecId(j, e.head);
         recs == if t.tasks[j].state != WaitingCi then r0
                 else r0[r := if r in r0 then Requeued(r0[r], now) else Rec(Queued, false, false, 0, now)]
    ensures PartlyVisited(t, attempts, recs, e, visited + {j}, now)
  {}

  lemma UnconcernedBook(t: Tables, e: CiEvent, j: JobId, now: Time)
    requires j in t.attempts && !Concerns(t, e, j)
    ensures WokenBook(t, e, j, now) == t.attempts[j]
  {
    forall n | n in t.attempts[j]
      ensures !WakesRun(t, e, AttemptId(j, n))
    {}
    assert WokenBook(t, e, j, now) == Book(t, j);
  }

  lemma AllVisited(
    t: Tables, attempts: map<JobId, map<int, Attempt>>, recs: map<RecId, Rec>, e: CiEvent, visited: set<JobId>,
        now: Time)
    requires PartlyVisited(t, attempts, recs, e, visited, now) && forall j :: j in visited <==> Concerns(t, e, j)
    ensures attempts == WokenAttempts(t, e, now) && recs == RequeuedRecs(t, e, now)
    ensures forall j | j in t.tasks && Stirs(t, e, j) :: j in visited
  {
    forall j | j in attempts
      ensures attempts[j] == WokenBook(t, e, j, now)
    {
      if j !in visited {
        UnconcernedBook(t, e, j, now);
      }
    }
    assert forall r :: r in recs <==> r in RequeuedRecs(t, e, now);
  }
}
