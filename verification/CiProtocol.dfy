/**
 CI repair as a protocol: one worker that claims a row, talks to the broker, and writes the outcome back,
 while webhooks and the rest of the dispatcher write between its transactions and a crash may end any claim.
 */
module CiProtocol {
  import opened Basics
  import opened ExternalWaits
  import opened Jobs
  import opened CiTables

  // ---------- the transition system ----------

  /** What the single worker has claimed and not yet answered. */
  datatype Hold =
    | Idle
    | Observing(rec: RecId, operations: nat)
    | Launching(id: AttemptId)
    | Polling(id: AttemptId)
    | Reporting(job: JobId, attempts: nat)

  datatype Sys = Sys(t: Tables, hold: Hold)

  datatype Op =
    | Begin(entry: Entry, now: Time)
    | Webhook(event: CiEvent, now: Time)
    | OtherJobs(jobs: map<JobId, Job>)
    | ClaimRec(rec: RecId, now: Time)
    | FailObserve(failure: ObserveFailure, now: Time)
    | Apply(observation: Observation, now: Time)
    | ClaimLaunch(id: AttemptId, now: Time)
    | Bind(run: string, now: Time)
    | Postpone(due: Time, now: Time)
    | Abandon(now: Time)
    | ClaimStatus(id: AttemptId, now: Time)
    | Waits(wait: ExternalWait)
    | Resumes(key: ResumeKey, generation: int, due: Time, now: Time)
    | Reschedule(counted: bool, due: Time, now: Time)
    | Finish(cause: FailureClass, started: bool, now: Time)
    | ChargeRun
    | Complete(delivery: Delivery, now: Time)
    | ClaimEscalation(job: JobId, now: Time)
    | Deliver(comment: int)
    | FailReport(retry: bool, message: string, now: Time)
    | Release

  function Commit(t: Tables, r: Option<Tables>): Tables {
    if r.Some? then r.value else t
  }

  /** Write the answer (or roll back) and let go of the claim. */
  function Answer(s: Sys, r: Option<Tables>): Sys {
    Sys(Commit(s.t, r), Idle)
  }

  /** Write an intermediate fact and keep the claim; a failed write ends it. */
  function Continue(s: Sys, r: Option<Tables>): Sys {
    if r.Some? then Sys(r.value, s.hold) else Sys(s.t, Idle)
  }

  predicate Enabled(s: Sys, op: Op) {
    match op
    case Begin(_, _) => s.hold.Idle?
    case Webhook(_, _) => true
    case OtherJobs(jobs) => s.t.jobs.Keys <= jobs.Keys
    case ClaimRec(r, now) =>
      var t := WakeDeadlines(s.t, now);
      s.hold.Idle? && IsFirst(DueRecs(t, now), RecRank(t), r)
    case FailObserve(_, _) => s.hold.Observing?
    case Apply(_, _) => s.hold.Observing?
    case ClaimLaunch(id, now) => s.hold.Idle? && IsFirst(DueLaunches(s.t, now), AttemptRank(s.t), id)
    case Bind(_, _) => s.hold.Launching?
    case Postpone(_, _) => s.hold.Launching?
    case Abandon(_) => s.hold.Launching?
    case ClaimStatus(id, now) => s.hold.Idle? && IsFirst(DueStatuses(s.t, now), AttemptRank(s.t), id)
    case Waits(_) => s.hold.Polling?
    case Resumes(_, _, _, _) => s.hold.Polling?
    case Reschedule(_, _, _) => s.hold.Polling?
    case Finish(_, _, _) => s.hold.Polling?
    case ChargeRun => s.hold.Polling?
    case Complete(_, _) => s.hold.Polling?
    case ClaimEscalation(j, now) => s.hold.Idle? && IsFirst(DueEscalations(s.t, now), EscalationRank(s.t), j)
    case Deliver(_) => s.hold.Reporting?
    case FailReport(_, _, _) => s.hold.Reporting?
    case Release => true
  }

  function Step(p: Policy, s: Sys, op: Op): Sys
    requires Enabled(s, op)
  {
    match op
    case Begin(entry, now) => Answer(s, BeginWait(s.t, entry, now))
    case Webhook(event, now) => Sys(Commit(s.t, RecordEvent(s.t, event, now)), s.hold)
    case OtherJobs(jobs) => Sys(s.t.(jobs := jobs), s.hold)
    case ClaimRec(r, now) =>
      var t := WakeDeadlines(s.t, now);
      Sys(TakeRec(t, r, now), Observing(r, t.recs[r].operations))
    case FailObserve(failure, now) => Answer(s, FailRec(s.t, s.hold.rec, s.hold.operations, failure, p, now))
    case Apply(observation, now) => Answer(s, ApplyObservation(s.t, s.hold.rec, observation, p, now))
    case ClaimLaunch(id, now) => Sys(TakeLaunch(s.t, id, p), Launching(id))
    case Bind(run, now) => Answer(s, BindRun(s.t, s.hold.id, run, now))
    case Postpone(due, now) => Answer(s, DeferLaunch(s.t, s.hold.id, due, now))
    case Abandon(now) => Answer(s, FinishFailure(s.t, s.hold.id, InfrastructureClass, false, p, now))
    case ClaimStatus(id, now) => Sys(TakeStatus(s.t, id, p, now), Polling(id))
    case Waits(wait) => Continue(s, RecordWait(s.t, s.hold.id, RunOf(s), wait))
    case Resumes(key, generation, due, now) => Continue(s, MarkResumed(s.t, s.hold.id, key, generation, due, now))
    case Reschedule(counted, due, now) => Answer(s, RescheduleStatus(s.t, s.hold.id, counted, due, now))
    case Finish(cause, started, now) => Answer(s, FinishFailure(s.t, s.hold.id, cause, started, p, now))
    case ChargeRun => Continue(s, Charge(s.t, s.hold.id))
    case Complete(delivery, now) => Answer(s, CompleteDelivery(s.t, s.hold.id, delivery, p, now))
    case ClaimEscalation(j, now) => Sys(s.t, Reporting(j, s.t.escalations[j].attempts))
    case Deliver(comment) => Answer(s, MarkEscalationDelivered(s.t, s.hold.job, comment))
    case FailReport(retry, message, now) =>
      Answer(s, MarkEscalationFailure(s.t, s.hold.job, s.hold.attempts, retry, message, now))
    case Release => Sys(s.t, Idle)
  }

  function RunOf(s: Sys): string
    requires s.hold.Polling?
  {
    if Has(s.t, s.hold.id) then At(s.t, s.hold.id).run else ""
  }

  // ---------- the invariant ----------

  /** As many attempts as were charged, plus possibly one that is not. */
  function Count(repairs: nat, book: map<int, Attempt>): nat {
    repairs + (if repairs + 1 in book then 1 else 0)
  }

  /** Attempts are numbered 1..n, the first `repairs` of them are charged, and only the last may be open. */
  ghost predicate Accounted(repairs: nat, book: map<int, Attempt>) {
    && (forall k: int :: k in book <==> 1 <= k <= Count(repairs, book))
    && (forall k | k in book ::
          book[k].charged == (k <= repairs) && (book[k].Open() ==> k == Count(repairs, book)))
  }

  predicate NoneOpen(book: map<int, Attempt>) {
    forall k | k in book :: !book[k].Open()
  }

  /** What each task state says about the attempts. */
  ghost predicate Shaped(state: TaskState, repairs: nat, book: map<int, Attempt>) {
    var n := Count(repairs, book);
    && Accounted(repairs, book)
    && match state
       case WaitingCi => n == repairs && NoneOpen(book)
       case TaskCompleted => n == repairs && NoneOpen(book)
       case RepairReady => n == repairs + 1 && book[n].state == Ready
       case RepairRunning => n >= 1 && book[n].state == Running
       case _ => NoneOpen(book)
  }

  /** An escalation row exists exactly in the escalation states, in the matching state. */
  predicate EscalationMatches(t: Tables, j: JobId)
    requires j in t.tasks
  {
    match t.tasks[j].state
    case EscalationPending => j in t.escalations && t.escalations[j].state == Undelivered
    case EscalationBlocked => j in t.escalations && t.escalations[j].state == Blocked
    case Escalated => j in t.escalations && t.escalations[j].state == Delivered
    case _ => j !in t.escalations
  }

  predicate AttemptOk(id: AttemptId, a: Attempt) {
    && (a.state == Ready ==> a.run == "") && (a.state == Running ==> a.run != "")
    && 0 <= a.resumedGeneration <= a.WaitGeneration()
    && a.resumeKey == (if a.wait.Some? then Some(KeyOf(id, a, a.WaitGeneration())) else None)
  }

  predicate BookOk(j: JobId, book: map<int, Attempt>) {
    forall n | n in book :: AttemptOk(AttemptId(j, n), book[n])
  }

  ghost predicate TaskOk(t: Tables, j: JobId)
    requires j in t.tasks
  {
    && Shaped(t.tasks[j].state, t.tasks[j].repairs, Book(t, j))
    && BookOk(j, Book(t, j))
    && EscalationMatches(t, j)
  }

  ghost predicate TablesOk(t: Tables) {
    && t.attempts.Keys <= t.tasks.Keys && t.tasks.Keys <= t.jobs.Keys && t.escalations.Keys <= t.tasks.Keys
    && (forall r | r in t.recs :: r.job in t.tasks)
    && (forall j | j in t.tasks :: TaskOk(t, j))
  }

  /** Between a claim and its answer the claimed row stays as it was claimed. */
  predicate HoldOk(s: Sys) {
    match s.hold
    case Idle => true
    case Observing(r, operations) =>
      && r in s.t.recs && s.t.recs[r].state == InFlight && s.t.recs[r].operations == operations
      && r.job in s.t.tasks && s.t.tasks[r.job].state == WaitingCi
    case Launching(id) => Has(s.t, id) && At(s.t, id).state == Ready
    case Polling(id) => Has(s.t, id) && At(s.t, id).state == Running
    case Reporting(j, attempts) =>
      j in s.t.escalations && s.t.escalations[j].state == Undelivered && s.t.escalations[j].attempts == attempts
  }

  ghost predicate Ok(s: Sys) {
    TablesOk(s.t) && HoldOk(s)
  }

  function Initial(jobs: map<JobId, Job>): Sys {
    Sys(Tables(map[], map[], map[], map[], {}, jobs), Idle)
  }

  // ---------- reasoning about one job at a time ----------

  /** Rows of job `i` are the same in `t` and `u`. */
  predicate SameRows(t: Tables, u: Tables, i: JobId) {
    && (i in t.tasks <==> i in u.tasks) && (i in t.tasks ==> u.tasks[i] == t.tasks[i])
    && Book(t, i) == Book(u, i)
    && (i in t.escalations <==> i in u.escalations) && (i in t.escalations ==> u.escalations[i] == t.escalations[i])
  }

  /** `u` differs from `t` in rows of job `j` only. */
  ghost predicate OnlyJob(t: Tables, u: Tables, j: JobId) {
    && (forall i | i != j :: SameRows(t, u, i))
    && u.attempts.Keys <= t.attempts.Keys + {j}
    && (forall r | r in u.recs :: r in t.recs || r.job == j)
    && t.jobs.Keys == u.jobs.Keys
  }

  lemma Localize(t: Tables, u: Tables, j: JobId)
    requires TablesOk(t) && OnlyJob(t, u, j)
    requires j in u.jobs && j in u.tasks && TaskOk(u, j)
    ensures TablesOk(u)
  {
    forall i | i in u.tasks
      ensures TaskOk(u, i)
    {
      if i != j {
        assert SameRows(t, u, i) && TaskOk(t, i);
      }
    }
    forall i | i in u.tasks.Keys
      ensures i in u.jobs.Keys
    {
      assert i == j || SameRows(t, u, i);
    }
    forall i | i in u.attempts || i in u.escalations
      ensures i in u.tasks
    {
      if i != j {
        assert SameRows(t, u, i);
        assert i in t.attempts || i in t.escalations;
      }
    }
    forall r | r in u.recs
      ensures r.job in u.tasks
    {
      if r.job != j {
        assert SameRows(t, u, r.job);
      }
    }
  }

  /** Rows may be rescheduled freely: only states, charges and waits matter. */
  predicate SameShape(t: Tables, u: Tables, j: JobId) {
    && j in t.tasks && j in u.tasks
    && u.tasks[j].state == t.tasks[j].state && u.tasks[j].repairs == t.tasks[j].repairs
    && Book(u, j).Keys == Book(t, j).Keys
    && BookOk(j, Book(u, j))
    && forall n | n in Book(t, j) ::
       Book(u, j)[n].state == Book(t, j)[n].state && Book(u, j)[n].charged == Book(t, j)[n].charged
  }

  lemma Reshape(t: Tables, u: Tables)
    requires TablesOk(t)
    requires u.tasks.Keys == t.tasks.Keys && u.attempts.Keys <= t.attempts.Keys && u.escalations == t.escalations
    requires forall j | j in t.tasks :: SameShape(t, u, j)
    requires forall r | r in u.recs :: r.job in t.tasks
    requires t.tasks.Keys <= u.jobs.Keys
    ensures TablesOk(u)
  {
    forall j | j in u.tasks
      ensures TaskOk(u, j)
    {
      assert TaskOk(t, j) && SameShape(t, u, j);
    }
  }

  /** An open attempt is the last one of its task, and shows in the task's state. */
  lemma OpenIsLast(t: Tables, id: AttemptId)
    requires TablesOk(t) && Has(t, id) && At(t, id).Open()
    ensures id.job in t.tasks
    ensures id.number == Count(t.tasks[id.job].repairs, Book(t, id.job))
    ensures id.number == t.tasks[id.job].repairs + (if At(t, id).charged then 0 else 1)
    ensures !Has(t, AttemptId(id.job, id.number + 1))
    ensures t.tasks[id.job].state == if At(t, id).state == Ready then RepairReady else RepairRunning
  {
    assert TaskOk(t, id.job);
  }

  // ---------- every transaction keeps the invariant ----------

  lemma BeginKeeps(t: Tables, e: Entry, now: Time)
    requires TablesOk(t) && BeginWait(t, e, now).Some?
    ensures TablesOk(BeginWait(t, e, now).value)
  {
    if e.job in t.tasks {
      assert TaskOk(t, e.job);
    }
    Localize(t, BeginWait(t, e, now).value, e.job);
  }

  /** What is left of a task's invariant while its state is being decided. */
  ghost predicate Undecided(t: Tables, j: JobId) {
    && j in t.tasks && j in t.jobs && j !in t.escalations
    && Accounted(t.tasks[j].repairs, Book(t, j)) && NoneOpen(Book(t, j)) && BookOk(j, Book(t, j))
  }

  lemma EscalateKeeps(t: Tables, j: JobId, reason: Reason, repairs: nat, now: Time)
    requires Undecided(t, j)
    ensures TaskOk(Escalate(t, j, reason, repairs, now), j)
    ensures OnlyJob(t, Escalate(t, j, reason, repairs, now), j)
  {
    assert Book(Escalate(t, j, reason, repairs, now), j) == Book(t, j);
  }

  lemma StartKeeps(t: Tables, j: JobId, number: int, p: Policy, now: Time)
    requires Undecided(t, j) && number == t.tasks[j].repairs + 1 && number !in Book(t, j)
    ensures TaskOk(StartRepair(t, j, number, p, now), j)
    ensures OnlyJob(t, StartRepair(t, j, number, p, now), j)
  {
    var u := StartRepair(t, j, number, p, now);
    assert Book(u, j) == Book(t, j)[number := NewAttempt(t.tasks[j], t.tasks[j].head, p.runtimeSeconds, now)];
  }

  /** The state of a task is decided by `v`, on top of rows of the same job that `u` wrote. */
  lemma Decide(t: Tables, u: Tables, v: Tables, w: Tables, j: JobId)
    requires TablesOk(t) && OnlyJob(t, u, j) && OnlyJob(u, v, j) && j in v.tasks && TaskOk(v, j) && j in t.jobs
    requires w == v.(jobs := w.jobs) && w.jobs.Keys == v.jobs.Keys
    ensures TablesOk(w)
  {
    forall i | i != j
      ensures SameRows(t, w, i)
    {
      assert SameRows(t, u, i) && SameRows(u, v, i);
    }
    assert Book(w, j) == Book(v, j);
    Localize(t, w, j);
  }

  lemma FailRecKeeps(t: Tables, r: RecId, operations: nat, failure: ObserveFailure, p: Policy, now: Time)
    requires TablesOk(t) && r.job in t.tasks && t.tasks[r.job].state == WaitingCi
    requires FailRec(t, r, operations, failure, p, now).Some?
    ensures TablesOk(FailRec(t, r, operations, failure, p, now).value)
  {
    assert TaskOk(t, r.job);
    Localize(t, FailRec(t, r, operations, failure, p, now).value, r.job);
  }

  lemma ObservedIsUndecided(t: Tables, r: RecId, o: Observation, now: Time)
    requires TablesOk(t) && r.job in t.tasks && t.tasks[r.job].state == WaitingCi
    ensures
      var u := Observed(t, r, o, now);
      Undecided(u, r.job) && OnlyJob(t, u, r.job)
          && Count(u.tasks[r.job].repairs, Book(u, r.job)) == u.tasks[r.job].repairs
  {
    assert TaskOk(t, r.job);
    assert Book(Observed(t, r, o, now), r.job) == Book(t, r.job);
  }

  lemma VerdictKeeps(u: Tables, j: JobId, verdict: Verdict, p: Policy, now: Time) returns (v: Tables)
    requires Undecided(u, j) && Count(u.tasks[j].repairs, Book(u, j)) == u.tasks[j].repairs
    requires ApplyVerdict(u, j, verdict, p, now).Some?
    ensures OnlyJob(u, v, j) && j in v.tasks && TaskOk(v, j)
    ensures
      var w := ApplyVerdict(u, j, verdict, p, now).value;
      w == v.(jobs := w.jobs) && w.jobs.Keys == v.jobs.Keys
  {
    var repairs := u.tasks[j].repairs;
    if verdict == Infrastructure || (verdict == CodeFailure && repairs >= p.maxAttempts) {
      v := ApplyVerdict(u, j, verdict, p, now).value;
      EscalateKeeps(u, j, if verdict == Infrastructure then InfrastructureFailure else AttemptsExhausted, repairs, now);
    } else if verdict == CodeFailure {
      v := StartRepair(u, j, repairs + 1, p, now);
      StartKeeps(u, j, repairs + 1, p, now);
    } else {
      v := ApplyVerdict(u, j, verdict, p, now).value;
      assert Book(v, j) == Book(u, j);
    }
  }

  lemma ApplyKeeps(t: Tables, r: RecId, o: Observation, p: Policy, now: Time)
    requires TablesOk(t) && r.job in t.tasks && t.tasks[r.job].state == WaitingCi
    requires ApplyObservation(t, r, o, p, now).Some?
    ensures TablesOk(ApplyObservation(t, r, o, p, now).value)
  {
    var u := Observed(t, r, o, now);
    ObservedIsUndecided(t, r, o, now);
    var v := VerdictKeeps(u, r.job, o.verdict, p, now);
    Decide(t, u, v, ApplyObservation(t, r, o, p, now).value, r.job);
  }

  lemma ClosedIsUndecided(t: Tables, id: AttemptId, cause: FailureClass, charge: bool)
    requires TablesOk(t) && Has(t, id) && At(t, id).Open() && (charge ==> !At(t, id).charged)
    ensures id.job in t.tasks
    ensures
      var u := CloseFailed(t, id, cause, charge);
      && Undecided(u, id.job) && OnlyJob(t, u, id.job) && !Has(u, AttemptId(id.job, id.number + 1))
      && u.tasks[id.job].repairs == id.number - (if At(t, id).charged || charge then 0 else 1)
      && Count(u.tasks[id.job].repairs, Book(u, id.job)) == id.number
  {
    OpenIsLast(t, id);
    assert TaskOk(t, id.job);
    var u := CloseFailed(t, id, cause, charge);
    assert Book(u, id.job) == Book(t, id.job)[id.number := At(u, id)];
  }

  lemma AfterFailureKeeps(u: Tables, id: AttemptId, cause: FailureClass, started: bool, p: Policy, now: Time)
    returns (v: Tables)
    requires Undecided(u, id.job) && !Has(u, AttemptId(id.job, id.number + 1))
             && (started ==> u.tasks[id.job].repairs == id.number)
    requires AfterFailure(u, id, cause, started, p, now).Some?
    ensures OnlyJob(u, v, id.job) && id.job in v.tasks && TaskOk(v, id.job)
    ensures
      var w := AfterFailure(u, id, cause, started, p, now).value;
      w == v.(jobs := w.jobs) && w.jobs.Keys == v.jobs.Keys
  {
    var repairs := u.tasks[id.job].repairs;
    if Stops(cause, started, repairs, id.number, p.maxAttempts) {
      v := AfterFailure(u, id, cause, started, p, now).value;
      EscalateKeeps(u, id.job, if started then AttemptsExhausted else InfrastructureFailure, repairs, now);
    } else {
      v := StartRepair(u, id.job, id.number + 1, p, now);
      StartKeeps(u, id.job, id.number + 1, p, now);
    }
  }

  lemma FinishKeeps(t: Tables, id: AttemptId, cause: FailureClass, started: bool, p: Policy, now: Time)
    requires TablesOk(t) && Has(t, id) && At(t, id).Open()
    requires FinishFailure(t, id, cause, started, p, now).Some?
    ensures TablesOk(FinishFailure(t, id, cause, started, p, now).value)
  {
    var charge := started && !At(t, id).charged;
    ClosedIsUndecided(t, id, cause, charge);
    var u := CloseFailed(t, id, cause, charge);
    var v := AfterFailureKeeps(u, id, cause, started, p, now);
    Decide(t, u, v, FinishFailure(t, id, cause, started, p, now).value, id.job);
  }

  lemma BindKeeps(t: Tables, id: AttemptId, run: string, now: Time)
    requires TablesOk(t) && Has(t, id) && At(t, id).state == Ready && BindRun(t, id, run, now).Some?
    ensures TablesOk(BindRun(t, id, run, now).value)
  {
    OpenIsLast(t, id);
    assert TaskOk(t, id.job);
    Localize(t, BindRun(t, id, run, now).value, id.job);
  }

  lemma ChargeKeeps(t: Tables, id: AttemptId)
    requires TablesOk(t) && Has(t, id) && At(t, id).state == Running && Charge(t, id).Some?
    ensures TablesOk(Charge(t, id).value)
  {
    OpenIsLast(t, id);
    assert TaskOk(t, id.job);
    Localize(t, Charge(t, id).value, id.job);
  }

  lemma DeliveryKeeps(t: Tables, id: AttemptId, d: Delivery, p: Policy, now: Time)
    requires TablesOk(t) && Has(t, id) && At(t, id).state == Running && CompleteDelivery(t, id, d, p, now).Some?
    ensures TablesOk(CompleteDelivery(t, id, d, p, now).value)
  {
    OpenIsLast(t, id);
    assert TaskOk(t, id.job);
    Localize(t, CompleteDelivery(t, id, d, p, now).value, id.job);
  }

  lemma DeliveredKeeps(t: Tables, j: JobId, comment: int)
    requires TablesOk(t) && j in t.escalations && t.escalations[j].state == Undelivered
    requires MarkEscalationDelivered(t, j, comment).Some?
    ensures TablesOk(MarkEscalationDelivered(t, j, comment).value)
  {
    assert TaskOk(t, j);
    Localize(t, MarkEscalationDelivered(t, j, comment).value, j);
  }

  lemma UndeliveredKeeps(t: Tables, j: JobId, attempts: nat, retry: bool, message: string, now: Time)
    requires TablesOk(t) && j in t.escalations && t.escalations[j].state == Undelivered
    requires MarkEscalationFailure(t, j, attempts, retry, message, now).Some?
    ensures TablesOk(MarkEscalationFailure(t, j, attempts, retry, message, now).value)
  {
    assert TaskOk(t, j);
    Localize(t, MarkEscalationFailure(t, j, attempts, retry, message, now).value, j);
  }

  lemma AnswerKeeps(p: Policy, s: Sys, op: Op)
    requires Ok(s) && Enabled(s, op)
    requires op.FailObserve? || op.Apply? || op.Bind? || op.Abandon? || op.Finish? || op.ChargeRun? || op.Complete?
    ensures TablesOk(Step(p, s, op).t)
  {
    var t := s.t;
    var u := Step(p, s, op).t;
    if u != t {
      match op
      case FailObserve(failure, now) => FailRecKeeps(t, s.hold.rec, s.hold.operations, failure, p, now);
      case Apply(observation, now) => ApplyKeeps(t, s.hold.rec, observation, p, now);
      case Bind(run, now) => BindKeeps(t, s.hold.id, run, now);
      case Abandon(now) => FinishKeeps(t, s.hold.id, InfrastructureClass, false, p, now);
      case Finish(cause, started, now) => FinishKeeps(t, s.hold.id, cause, started, p, now);
      case ChargeRun => ChargeKeeps(t, s.hold.id);
      case Complete(delivery, now) => DeliveryKeeps(t, s.hold.id, delivery, p, now);
    }
  }

  lemma TouchKeeps(t: Tables, id: AttemptId, a: Attempt)
    requires TablesOk(t) && Has(t, id) && id.job in t.tasks && AttemptOk(id, a)
    requires a.state == At(t, id).state && a.charged == At(t, id).charged
    ensures TablesOk(t.(attempts := Put(t, id, a)))
  {
    var u := t.(attempts := Put(t, id, a));
    assert TaskOk(t, id.job);
    assert Book(u, id.job) == Book(t, id.job)[id.number := a];
    Localize(t, u, id.job);
  }

  lemma RescheduleKeeps(p: Policy, s: Sys, op: Op)
    requires Ok(s) && Enabled(s, op)
    requires op.Postpone? || op.Waits? || op.Resumes? || op.Reschedule?
    ensures TablesOk(Step(p, s, op).t)
  {
    var t, id := s.t, s.hold.id;
    var u := Step(p, s, op).t;
    assert Has(t, id) && TaskOk(t, id.job);
    if u != t {
      TouchKeeps(t, id, At(u, id));
    }
  }

  lemma ClaimKeeps(p: Policy, s: Sys, op: Op)
    requires Ok(s) && Enabled(s, op) && (op.ClaimLaunch? || op.ClaimStatus?)
    ensures TablesOk(Step(p, s, op).t)
  {
    assert Has(s.t, op.id) && TaskOk(s.t, op.id.job);
    TouchKeeps(s.t, op.id, At(Step(p, s, op).t, op.id));
  }

  lemma EventKeeps(t: Tables, e: CiEvent, now: Time)
    requires TablesOk(t) && RecordEvent(t, e, now).Some?
    ensures TablesOk(RecordEvent(t, e, now).value)
  {
    var u := RecordEvent(t, e, now).value;
    if u != t {
      forall j | j in t.tasks
        ensures SameShape(t, u, j)
      {
        assert TaskOk(t, j);
        assert Book(u, j) == WokenBook(t, e, j, now);
        WokenBookShape(t, e, j, now);
      }
      assert forall r | r in u.recs :: r in t.recs || Requeues(t, e, r);
      Reshape(t, u);
    }
  }

  lemma WokenBookShape(t: Tables, e: CiEvent, j: JobId, now: Time)
    requires BookOk(j, Book(t, j))
    ensures
      var book := WokenBook(t, e, j, now);
      && book.Keys == Book(t, j).Keys && BookOk(j, book)
      && (forall n | n in book :: book[n].state == Book(t, j)[n].state && book[n].charged == Book(t, j)[n].charged)
  {}

  lemma WakeKeeps(t: Tables, r: RecId, now: Time)
    requires TablesOk(t) && r in WakeDeadlines(t, now).recs
    ensures TablesOk(TakeRec(WakeDeadlines(t, now), r, now))
  {
    var u := TakeRec(WakeDeadlines(t, now), r, now);
    assert u == t.(recs := u.recs);
    forall x | x in u.recs
      ensures x.job in t.tasks
    {
      WokenBelongs(t, x, now);
    }
    RecsKeep(t, u.recs);
  }

  lemma WokenBelongs(t: Tables, x: RecId, now: Time)
    requires TablesOk(t) && x in WakeDeadlines(t, now).recs
    ensures x.job in t.tasks
  {}

  lemma RecsKeep(t: Tables, recs: map<RecId, Rec>)
    requires TablesOk(t) && forall x | x in recs :: x.job in t.tasks
    ensures TablesOk(t.(recs := recs))
  {
    var u := t.(recs := recs);
    forall j | j in t.tasks
      ensures SameShape(t, u, j)
    {
      assert TaskOk(t, j);
    }
    Reshape(t, u);
  }

  lemma JobsKeep(t: Tables, jobs: map<JobId, Job>)
    requires TablesOk(t) && t.jobs.Keys <= jobs.Keys
    ensures TablesOk(t.(jobs := jobs))
  {
    var u := t.(jobs := jobs);
    forall j | j in t.tasks
      ensures SameShape(t, u, j)
    {
      assert TaskOk(t, j);
    }
    Reshape(t, u);
  }

  lemma TablesKeep(p: Policy, s: Sys, op: Op)
    requires Ok(s) && Enabled(s, op)
    ensures TablesOk(Step(p, s, op).t)
  {
    var t := s.t;
    match op
    case Begin(entry, now) => if BeginWait(t, entry, now).Some? { BeginKeeps(t, entry, now); }
    case Webhook(event, now) => if RecordEvent(t, event, now).Some? { EventKeeps(t, event, now); }
    case OtherJobs(jobs) => JobsKeep(t, jobs);
    case ClaimRec(r, now) => WakeKeeps(t, r, now);
    case ClaimEscalation(j, now) =>
    case Deliver(comment) => if Step(p, s, op).t != t { DeliveredKeeps(t, s.hold.job, comment); }
    case FailReport(retry, message, now) =>
      if Step(p, s, op).t != t { UndeliveredKeeps(t, s.hold.job, s.hold.attempts, retry, message, now); }
    case Release =>
    case _ =>
      if op.ClaimLaunch? || op.ClaimStatus? {
        ClaimKeeps(p, s, op);
      } else if op.Postpone? || op.Waits? || op.Resumes? || op.Reschedule? {
        RescheduleKeeps(p, s, op);
      } else {
        AnswerKeeps(p, s, op);
      }
  }

  /** The invariant is inductive: no step of the protocol breaks it, whatever policy is configured at that step. */
  lemma StepKeeps(p: Policy, s: Sys, op: Op)
    requires Ok(s) && Enabled(s, op)
    ensures Ok(Step(p, s, op))
  {
    TablesKeep(p, s, op);
    HoldKeeps(p, s, op);
  }

  lemma HoldKeeps(p: Policy, s: Sys, op: Op)
    requires Ok(s) && Enabled(s, op)
    ensures HoldOk(Step(p, s, op))
  {
    if op.Webhook? || op.OtherJobs? {
      EventHold(p, s, op);
    } else if op.ClaimRec? || op.ClaimLaunch? || op.ClaimStatus? || op.ClaimEscalation? {
      ClaimHold(p, s, op);
    } else if op.Waits? || op.Resumes? || op.ChargeRun? {
      ContinueHold(p, s, op);
    } else {
      AnswerEnds(p, s, op);
    }
  }

  lemma EventHold(p: Policy, s: Sys, op: Op)
    requires HoldOk(s) && Enabled(s, op) && (op.Webhook? || op.OtherJobs?)
    ensures HoldOk(Step(p, s, op))
  {}

  lemma ClaimHold(p: Policy, s: Sys, op: Op)
    requires Enabled(s, op) && (op.ClaimRec? || op.ClaimLaunch? || op.ClaimStatus? || op.ClaimEscalation?)
    ensures HoldOk(Step(p, s, op))
  {}

  lemma ContinueHold(p: Policy, s: Sys, op: Op)
    requires HoldOk(s) && Enabled(s, op) && (op.Waits? || op.Resumes? || op.ChargeRun?)
    ensures HoldOk(Step(p, s, op))
  {}

  lemma AnswerEnds(p: Policy, s: Sys, op: Op)
    requires Enabled(s, op) && !op.Webhook? && !op.OtherJobs? && !op.ClaimRec? && !op.ClaimLaunch? && !op.ClaimStatus?
    requires !op.ClaimEscalation? && !op.Waits? && !op.Resumes? && !op.ChargeRun?
    ensures Step(p, s, op).hold.Idle?
  {}
}
