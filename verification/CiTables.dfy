/**
 The durable tables behind CI repair, and the effect of every store transaction on them.
 A transaction is a function to `Option<Tables>`: `None` means that it fails and rolls back.
 */
module CiTables {
  import opened Basics
  import opened Delays
  import opened ExternalWaits
  import opened Jobs

  // ---------- rows ----------

  datatype TaskState =
    | WaitingCi | RepairReady | RepairRunning | TaskCompleted
    | EscalationPending | EscalationBlocked | Escalated

  datatype Verdict = Pending | Success | CodeFailure | Infrastructure

  datatype Task = Task(
    repository: string, issue: int, pull: int, branch: string, head: string, model: string,
    state: TaskState, repairs: nat, deadline: Time, initial: string, lastCi: Option<Verdict>)

  /** `UNIQUE(job_id, attempt_number)` makes the pair a key. */
  datatype AttemptId = AttemptId(job: JobId, number: int)

  datatype AttemptState = Ready | Running | CandidateDelivered | AttemptFailed

  datatype FailureClass = InfrastructureClass | ModelOrCode | DeliveryOrLease

  datatype Delivery = Delivery(
    expectedOldHead: string, candidateHead: string, validatedTree: string,
    deliveredHead: string, deliveredTree: string)
  {
    predicate Exact() {
      && IsSha(expectedOldHead) && IsSha(candidateHead) && IsSha(validatedTree)
      && IsSha(deliveredHead) && IsSha(deliveredTree) && validatedTree == deliveredTree
    }
  }

  /** The text `ci-repair-resume:v1:<attempt key>:<generation>`. */
  datatype ResumeKey = ResumeKey(attempt: AttemptId, model: string, head: string, generation: int)

  datatype Attempt = Attempt(
    failedHead: string, model: string, state: AttemptState, charged: bool, run: string, maxRuntime: int,
    wait: Option<ExternalWait>, resumeKey: Option<ResumeKey>, resumedGeneration: int,
    delivery: Option<Delivery>, failureClass: Option<FailureClass>, operations: nat, due: Time)
  {
    function WaitGeneration(): int { if wait.Some? then wait.value.generation else 0 }

    predicate Open() { state == Ready || state == Running }
  }

  /** `UNIQUE(job_id, head_sha)`; the operation key is a function of the pair. */
  datatype RecId = RecId(job: JobId, head: string)

  datatype RecState = Queued | InFlight | Done

  datatype Rec = Rec(state: RecState, deadlineWake: bool, dirty: bool, operations: nat, due: Time)

  datatype Reason = ObservationInvalid | InfrastructureFailure | AttemptsExhausted

  datatype EscalationState = Undelivered | Delivered | Blocked

  datatype Escalation = Escalation(
    state: EscalationState, reason: Reason, repairs: nat, attempts: nat, due: Time, comment: Option<int>)

  datatype EventKind = CheckRun | CheckSuite | StatusEvent | PullRequestEvent | OtherEvent

  datatype CiEvent = CiEvent(
    delivery: string, repository: string, pull: int, head: string, kind: EventKind, action: string, digest: string)
  {
    /** The unique semantic identity leaves out the delivery id. */
    predicate SameAs(other: CiEvent) {
      delivery == other.delivery || this.(delivery := other.delivery) == other
    }
  }

  datatype Tables = Tables(
    tasks: map<JobId, Task>, attempts: map<JobId, map<int, Attempt>>, recs: map<RecId, Rec>,
    escalations: map<JobId, Escalation>, events: set<CiEvent>, jobs: map<JobId, Job>)

  datatype Policy = Policy(wake: Time, runtimeSeconds: int, maxAttempts: int) {
    predicate Valid() {
      MINUTE <= wake <= 7 * 24 * 60 * MINUTE && 60 <= runtimeSeconds <= 3600 && 1 <= maxAttempts <= 2
    }
  }

  predicate IsSha(s: string) {
    |s| == 40 && forall i | 0 <= i < 40 :: '0' <= s[i] <= '9' || 'a' <= s[i] <= 'f'
  }

  // ---------- shared row reads and writes ----------

  /** The attempts on record for a job, by number. */
  function Book(t: Tables, j: JobId): map<int, Attempt> {
    if j in t.attempts then t.attempts[j] else map[]
  }

  predicate Has(t: Tables, id: AttemptId) {
    id.number in Book(t, id.job)
  }

  function At(t: Tables, id: AttemptId): Attempt
    requires Has(t, id)
  {
    Book(t, id.job)[id.number]
  }

  function Put(t: Tables, id: AttemptId, a: Attempt): map<JobId, map<int, Attempt>> {
    t.attempts[id.job := Book(t, id.job)[id.number := a]]
  }

  function SetJob(jobs: map<JobId, Job>, j: JobId, status: Status): map<JobId, Job> {
    if j in jobs then jobs[j := jobs[j].(status := status)] else jobs
  }

  function ScheduleJob(jobs: map<JobId, Job>, j: JobId, status: Status, due: Time): map<JobId, Job> {
    if j in jobs then jobs[j := jobs[j].(status := status, due := due)] else jobs
  }

  function NewAttempt(task: Task, head: string, runtimeSeconds: int, now: Time): Attempt {
    Attempt(head, task.model, Ready, false, "", runtimeSeconds, None, None, 0, None, None, 0, now)
  }

  function Escalate(t: Tables, j: JobId, reason: Reason, repairs: nat, now: Time): Tables
    requires j in t.tasks
  {
    t.(escalations := if j in t.escalations then t.escalations
                      else t.escalations[j := Escalation(Undelivered, reason, repairs, 0, now, None)],
       tasks := t.tasks[j := t.tasks[j].(state := EscalationPending)],
       jobs := SetJob(t.jobs, j, CiEscalation))
  }

  // ---------- entering CI ----------

  datatype Entry = Entry(
    job: JobId, repository: string, issue: int, pull: int, branch: string, head: string, model: string,
    deadline: Time, initial: string)
  {
    predicate Valid(now: Time) {
      && job >= 1 && repository != "" && issue >= 1 && pull >= 1 && branch != "" && IsSha(head)
      && model != "" && deadline > now && 0 < |initial| <= 65536
    }

    function NewTask(): Task {
      Task(repository, issue, pull, branch, head, model, WaitingCi, 0, deadline, initial, None)
    }

    /** A replay must repeat the stored coordinates. */
    predicate Matches(task: Task) {
      && task.repository == repository && task.issue == issue && task.pull == pull && task.branch == branch
      && task.head == head && task.model == model && task.deadline == deadline && task.initial == initial
    }
  }

  function BeginWait(t: Tables, e: Entry, now: Time): Option<Tables> {
    if !e.Valid(now) || e.job !in t.jobs then None
    else
      var tasks := if e.job in t.tasks then t.tasks else t.tasks[e.job := e.NewTask()];
      if !e.Matches(tasks[e.job]) then None
      else
        var job := t.jobs[e.job];
        var r := RecId(e.job, e.head);
        Some(t.(tasks := tasks,
                jobs := if job.status.Launched? || job.status.CiWaiting?
                        then t.jobs[e.job := job.(status := CiWaiting, due := e.deadline, lastError := "")]
                        else t.jobs,
                recs := if r in t.recs then t.recs else t.recs[r := Rec(Queued, false, false, 0, now)]))
  }

  // ---------- webhook events ----------

  predicate Known(t: Tables, e: CiEvent) {
    exists other :: other in t.events && e.SameAs(other)
  }

  /** The tasks an event may be about. */
  predicate Concerns(t: Tables, e: CiEvent, j: JobId) {
    && j in t.tasks
    && t.tasks[j].repository == e.repository
    && ((e.pull > 0 && t.tasks[j].pull == e.pull) || t.tasks[j].head == e.head)
  }

  /** A webhook re-queues a reconciliation; one already in flight is marked dirty instead. */
  function Requeued(rec: Rec, now: Time): Rec {
    rec.(state := if rec.state == InFlight then InFlight else Queued,
         dirty := rec.state == InFlight || rec.dirty,
         due := now)
  }

  predicate Requeues(t: Tables, e: CiEvent, r: RecId) {
    r.head == e.head && Concerns(t, e, r.job) && t.tasks[r.job].state == WaitingCi
  }

  predicate WakesRun(t: Tables, e: CiEvent, id: AttemptId) {
    && Has(t, id) && At(t, id).state == Running
    && At(t, id).WaitGeneration() > At(t, id).resumedGeneration
    && Concerns(t, e, id.job) && t.tasks[id.job].state == RepairRunning
  }

  function RequeuedRecs(t: Tables, e: CiEvent, now: Time): map<RecId, Rec> {
    map r | r in t.recs.Keys + (set j | j in t.tasks && Requeues(t, e, RecId(j, e.head)) :: RecId(j, e.head)) ::
      if !Requeues(t, e, r) then t.recs[r]
      else if r in t.recs then Requeued(t.recs[r], now)
      else Rec(Queued, false, false, 0, now)
  }

  function WokenBook(t: Tables, e: CiEvent, j: JobId, now: Time): map<int, Attempt> {
    map n | n in Book(t, j) ::
      var a := Book(t, j)[n];
      if WakesRun(t, e, AttemptId(j, n)) then a.(due := Min(a.due, now)) else a
  }

  function WokenAttempts(t: Tables, e: CiEvent, now: Time): map<JobId, map<int, Attempt>> {
    map j | j in t.attempts :: WokenBook(t, e, j, now)
  }

  /** Whether the event gives job `j` something to do. */
  predicate Stirs(t: Tables, e: CiEvent, j: JobId) {
    Requeues(t, e, RecId(j, e.head)) || exists n | n in Book(t, j) :: WakesRun(t, e, AttemptId(j, n))
  }

  function RecordEvent(t: Tables, e: CiEvent, now: Time): Option<Tables> {
    if e.delivery == "" || e.repository == "" || !IsSha(e.head) then None
    else if e.kind.OtherEvent? || Known(t, e) then Some(t)
    else Some(t.(events := t.events + {e}, recs := RequeuedRecs(t, e, now), attempts := WokenAttempts(t, e, now)))
  }

  // ---------- reconciliation with the authoritative CI state ----------

  predicate DeadlinePassed(t: Tables, r: RecId, now: Time) {
    && r.job in t.tasks && r.head == t.tasks[r.job].head
    && t.tasks[r.job].state == WaitingCi && t.tasks[r.job].deadline <= now
  }

  function DeadlineWoken(rec: Rec, deadline: Time): Rec {
    rec.(state := if rec.state == Done then Queued else rec.state,
         deadlineWake := true,
         dirty := rec.state == InFlight || rec.dirty,
         due := Min(rec.due, deadline))
  }

  /** Every waiting task whose wake has passed gets a due reconciliation of its current head. */
  function WakeDeadlines(t: Tables, now: Time): Tables {
    t.(recs :=
      map r | r in t.recs.Keys +
                   (set j | j in t.tasks && DeadlinePassed(t, RecId(j, t.tasks[j].head), now)
                    :: RecId(j, t.tasks[j].head)) ::
        if !DeadlinePassed(t, r, now) then t.recs[r]
        else if r in t.recs then DeadlineWoken(t.recs[r], t.tasks[r.job].deadline)
        else Rec(Queued, true, false, 0, t.tasks[r.job].deadline))
  }

  predicate RecDue(t: Tables, r: RecId, now: Time) {
    && r in t.recs && t.recs[r].state != Done && t.recs[r].due <= now
    && r.job in t.tasks && t.tasks[r.job].state == WaitingCi
  }

  function DueRecs(t: Tables, now: Time): set<RecId> {
    set r | r in t.recs && RecDue(t, r, now)
  }

  function RecRank(t: Tables): RecId -> Rank {
    (r: RecId) => if r in t.recs then Rank(if t.recs[r].deadlineWake then 0 else 1, t.recs[r].due, r.job)
                  else Rank(0, 0, 0)
  }

  function TakeRec(t: Tables, r: RecId, now: Time): Tables
    requires r in t.recs
  {
    t.(recs := t.recs[r := t.recs[r].(state := InFlight, dirty := false, due := now + CI_RECONCILE_LEASE)])
  }

  datatype ObserveFailure = Retryable | StaleHead | Permanent

  function FailRec(
    t: Tables, r: RecId, operations: nat, failure: ObserveFailure, p: Policy, now: Time): Option<Tables> {
    if r !in t.recs || t.recs[r].state != InFlight || r.job !in t.tasks then None
    else
      var rec := t.recs[r];
      match failure
      case Retryable =>
        Some(t.(recs := t.recs[r := rec.(state := Queued, operations := rec.operations + 1,
                                         due := now + PreOutboxRetryDelay(operations + 1))]))
      case StaleHead =>
        var task := t.tasks[r.job];
        var wake := now + p.wake;
        Some(t.(recs := t.recs[r := rec.(state := Done, operations := rec.operations + 1)],
                tasks := if task.state == WaitingCi then t.tasks[r.job := task.(deadline := wake)] else t.tasks,
                jobs := if r.job in t.jobs && t.jobs[r.job].status == CiWaiting
                        then t.jobs[r.job := t.jobs[r.job].(due := wake)] else t.jobs))
      case Permanent =>
        var done := t.(recs := t.recs[r := rec.(state := Done, operations := rec.operations + 1)]);
        Some(Escalate(done, r.job, ObservationInvalid, t.tasks[r.job].repairs, now))
  }

  datatype Observation = Observation(repository: string, pull: int, head: string, verdict: Verdict)

  /** An observation finishes its reconciliation, unless CI is still pending and an event came in meanwhile. */
  function FinishRec(rec: Rec, verdict: Verdict, now: Time): Rec {
    if rec.dirty && verdict == Pending then rec.(state := Queued, due := now) else rec.(state := Done)
  }

  function Observed(t: Tables, r: RecId, o: Observation, now: Time): Tables
    requires r.job in t.tasks
  {
    var task := t.tasks[r.job];
    t.(recs := if r in t.recs then t.recs[r := FinishRec(t.recs[r], o.verdict, now)] else t.recs,
       tasks := t.tasks[r.job := task.(head := o.head, lastCi := Some(o.verdict),
                                       state := if task.head != o.head then WaitingCi else task.state)])
  }

  predicate Terminal(state: TaskState) {
    state.TaskCompleted? || state.EscalationPending? || state.EscalationBlocked? || state.Escalated?
  }

  /** Opens the next repair attempt for the task's current head. */
  function StartRepair(t: Tables, j: JobId, number: int, p: Policy, now: Time): Tables
    requires j in t.tasks
  {
    var task := t.tasks[j];
    t.(attempts := Put(t, AttemptId(j, number), NewAttempt(task, task.head, p.runtimeSeconds, now)),
       tasks := t.tasks[j := task.(state := RepairReady)])
  }

  function ApplyCodeFailure(t: Tables, j: JobId, p: Policy, now: Time): Option<Tables>
    requires j in t.tasks
  {
    var task := t.tasks[j];
    var id := AttemptId(j, task.repairs + 1);
    if task.repairs >= p.maxAttempts then Some(Escalate(t, j, AttemptsExhausted, task.repairs, now))
    else if !Has(t, id) then
      Some(StartRepair(t, j, id.number, p, now).(jobs := ScheduleJob(t.jobs, j, CiRepair, now)))
    // The attempt key also names the model and head: an equal key is skipped, a clash of numbers fails.
    else if At(t, id).failedHead == task.head && At(t, id).model == task.model then
      Some(t.(tasks := t.tasks[j := task.(state := RepairReady)], jobs := ScheduleJob(t.jobs, j, CiRepair, now)))
    else None
  }

  function ApplySettled(t: Tables, j: JobId, state: TaskState, deadline: Time, jobs: map<JobId, Job>): Tables
    requires j in t.tasks
  {
    t.(tasks := t.tasks[j := t.tasks[j].(state := state, deadline := deadline)], jobs := jobs)
  }

  function ApplyVerdict(t: Tables, j: JobId, verdict: Verdict, p: Policy, now: Time): Option<Tables>
    requires j in t.tasks
  {
    match verdict
    case Success => Some(ApplySettled(t, j, TaskCompleted, t.tasks[j].deadline, SetJob(t.jobs, j, Completed)))
    case Pending => Some(ApplySettled(t, j, WaitingCi, now + p.wake, ScheduleJob(t.jobs, j, CiWaiting, now + p.wake)))
    case Infrastructure => Some(Escalate(t, j, InfrastructureFailure, t.tasks[j].repairs, now))
    case CodeFailure => ApplyCodeFailure(t, j, p, now)
  }

  function ApplyObservation(t: Tables, r: RecId, o: Observation, p: Policy, now: Time): Option<Tables> {
    if !(1 <= p.maxAttempts <= 2) || r.job !in t.tasks then None
    else if o.repository != t.tasks[r.job].repository || o.pull != t.tasks[r.job].pull || !IsSha(o.head) then None
    else if Terminal(t.tasks[r.job].state) then Some(t)
    else ApplyVerdict(Observed(t, r, o, now), r.job, o.verdict, p, now)
  }

  // ---------- launching a repair ----------

  predicate LaunchDue(t: Tables, id: AttemptId, now: Time) {
    && Has(t, id) && At(t, id).state == Ready && At(t, id).due <= now
    && id.job in t.tasks && t.tasks[id.job].state == RepairReady
  }

  function DueLaunches(t: Tables, now: Time): set<AttemptId> {
    set j, n | j in t.attempts && n in t.attempts[j] && LaunchDue(t, AttemptId(j, n), now) :: AttemptId(j, n)
  }

  function AttemptRank(t: Tables): AttemptId -> Rank {
    (id: AttemptId) => if Has(t, id) then Rank(At(t, id).due, id.job, 0) else Rank(0, 0, 0)
  }

  function WithRuntime(a: Attempt, p: Policy): Attempt {
    if a.maxRuntime == 0 then a.(maxRuntime := p.runtimeSeconds) else a
  }

  function TakeLaunch(t: Tables, id: AttemptId, p: Policy): Tables
    requires Has(t, id)
  {
    t.(attempts := Put(t, id, WithRuntime(At(t, id), p)))
  }

  function BindRun(t: Tables, id: AttemptId, run: string, now: Time): Option<Tables> {
    if run == "" || !Has(t, id) || (At(t, id).run != "" && At(t, id).run != run) then None
    else
      var a := At(t, id);
      Some(t.(attempts := if a.Open()
                          then Put(t, id, a.(state := Running, run := run, operations := a.operations + 1,
                                                   due := now + STATUS_POLL_INTERVAL))
                          else t.attempts,
              tasks := if id.job in t.tasks
                  && (t.tasks[id.job].state.RepairReady? || t.tasks[id.job].state.RepairRunning?)
                       then t.tasks[id.job := t.tasks[id.job].(state := RepairRunning)] else t.tasks))
  }

  function DeferLaunch(t: Tables, id: AttemptId, due: Time, now: Time): Option<Tables> {
    if due <= now || !Has(t, id) || At(t, id).state != Ready then None
    else Some(t.(attempts := Put(t, id, At(t, id).(operations := At(t, id).operations + 1, due := due))))
  }

  // ---------- following a repair run ----------

  predicate StatusDue(t: Tables, id: AttemptId, now: Time) {
    && Has(t, id) && At(t, id).state == Running && At(t, id).due <= now
    && id.job in t.tasks && t.tasks[id.job].state == RepairRunning
  }

  function DueStatuses(t: Tables, now: Time): set<AttemptId> {
    set j, n | j in t.attempts && n in t.attempts[j] && StatusDue(t, AttemptId(j, n), now) :: AttemptId(j, n)
  }

  function TakeStatus(t: Tables, id: AttemptId, p: Policy, now: Time): Tables
    requires Has(t, id)
  {
    t.(attempts := Put(t, id, WithRuntime(At(t, id), p).(due := now + CI_RECONCILE_LEASE)))
  }

  function KeyOf(id: AttemptId, a: Attempt, generation: int): ResumeKey {
    ResumeKey(id, a.model, a.failedHead, generation)
  }

  function RecordWait(t: Tables, id: AttemptId, run: string, wait: ExternalWait): Option<Tables> {
    if run == "" || !wait.Valid() || !Has(t, id) then None
    else
      var a := At(t, id);
      if a.state != Running || a.run != run then None
      else if wait.generation < a.WaitGeneration() || wait.generation <= a.resumedGeneration then None
      else if wait.generation == a.WaitGeneration() then
        if a.wait == Some(wait) && a.resumeKey == Some(KeyOf(id, a, wait.generation)) then Some(t) else None
      else
        Some(t.(attempts := Put(t, id, a.(wait := Some(wait), resumeKey := Some(KeyOf(id, a, wait.generation))))))
  }

  predicate ResumeMatches(a: Attempt, key: ResumeKey, generation: int) {
    && a.state == Running && a.WaitGeneration() == generation && a.resumeKey == Some(key)
    && a.resumedGeneration < generation
  }

  function MarkResumed(
    t: Tables, id: AttemptId, key: ResumeKey, generation: int, due: Time, now: Time): Option<Tables> {
    if generation < 1 || due <= now || !Has(t, id) then None
    else
      var a := At(t, id);
      if ResumeMatches(a, key, generation) then
        Some(t.(attempts := Put(t, id, a.(resumedGeneration := generation, due := due))))
      else if a.resumedGeneration >= generation then Some(t)
      else None
  }

  /** Covers both `DeferCIRepairStatus` (counting an operation) and `ScheduleCIRepairStatus`. */
  function RescheduleStatus(t: Tables, id: AttemptId, counted: bool, due: Time, now: Time): Option<Tables> {
    if due <= now || !Has(t, id) || At(t, id).state != Running then None
    else
      var a := At(t, id);
      Some(t.(attempts := Put(t, id, a.(operations := a.operations + (if counted then 1 else 0), due := due))))
  }

  predicate Stops(cause: FailureClass, started: bool, repairs: int, number: int, maxAttempts: int) {
    !started || cause == DeliveryOrLease || repairs >= maxAttempts || number >= maxAttempts
  }

  /** The attempt closed as failed, charged first if the model execution started. */
  function CloseFailed(t: Tables, id: AttemptId, cause: FailureClass, charge: bool): Tables
    requires Has(t, id) && id.job in t.tasks
  {
    var a := At(t, id);
    var task := t.tasks[id.job];
    t.(attempts := Put(t, id, a.(charged := a.charged || charge, state := AttemptFailed, failureClass := Some(cause))),
       tasks := if charge then t.tasks[id.job := task.(repairs := task.repairs + 1)] else t.tasks)
  }

  /** A failed attempt is followed by an escalation or by the next attempt. */
  function AfterFailure(
    t: Tables, id: AttemptId, cause: FailureClass, started: bool, p: Policy, now: Time): Option<Tables>
    requires id.job in t.tasks
  {
    var repairs := t.tasks[id.job].repairs;
    if Stops(cause, started, repairs, id.number, p.maxAttempts) then
      Some(Escalate(t, id.job, if started then AttemptsExhausted else InfrastructureFailure, repairs, now))
    else if Has(t, AttemptId(id.job, id.number + 1)) then None
    else Some(StartRepair(t, id.job, id.number + 1, p, now).(jobs := SetJob(t.jobs, id.job, CiRepair)))
  }

  function FinishFailure(
    t: Tables, id: AttemptId, cause: FailureClass, started: bool, p: Policy, now: Time): Option<Tables> {
    if !(1 <= p.maxAttempts <= 2) || !Has(t, id) || id.job !in t.tasks then None
    else
      var a := At(t, id);
      var charge := started && !a.charged;
      if a.state == AttemptFailed then
        if a.failureClass == Some(cause) && a.charged == started then Some(t) else None
      else if a.state != Running && !(a.state == Ready && !started) then None
      else if charge && t.tasks[id.job].repairs + 1 > p.maxAttempts then None
      else AfterFailure(CloseFailed(t, id, cause, charge), id, cause, started, p, now)
  }

  function Charge(t: Tables, id: AttemptId): Option<Tables> {
    if !Has(t, id) || At(t, id).state == Ready then None
    else
      var a := At(t, id);
      if a.charged then Some(t)
      else if id.job !in t.tasks || t.tasks[id.job].repairs >= id.number then None
      else
        Some(t.(attempts := Put(t, id, a.(charged := true)),
                tasks := t.tasks[id.job := t.tasks[id.job].(repairs := t.tasks[id.job].repairs + 1)]))
  }

  function CompleteDelivery(t: Tables, id: AttemptId, d: Delivery, p: Policy, now: Time): Option<Tables> {
    if !d.Exact() || !Has(t, id) || !At(t, id).charged || id.job !in t.tasks then None
    else
      var a := At(t, id);
      if a.state == CandidateDelivered then
        if a.delivery.Some? && a.delivery.value.(expectedOldHead := d.expectedOldHead) == d then Some(t) else None
      else if a.state != Running then None
      else
        var wake := now + p.wake;
        Some(t.(attempts := Put(t, id, a.(state := CandidateDelivered, delivery := Some(d))),
                tasks := t.tasks[id.job := t.tasks[id.job].(state := WaitingCi, head := d.deliveredHead,
                                                            lastCi := None, deadline := wake)],
                jobs := ScheduleJob(t.jobs, id.job, CiWaiting, wake)))
  }

  // ---------- escalation outbox ----------

  predicate EscalationDue(t: Tables, j: JobId, now: Time) {
    && j in t.escalations && t.escalations[j].state == Undelivered && t.escalations[j].due <= now
    && j in t.jobs
  }

  function DueEscalations(t: Tables, now: Time): set<JobId> {
    set j | j in t.escalations && EscalationDue(t, j, now)
  }

  function EscalationRank(t: Tables): JobId -> Rank {
    (j: JobId) => if j in t.escalations then Rank(t.escalations[j].due, j, 0) else Rank(0, 0, 0)
  }

  function SetTaskFrom(tasks: map<JobId, Task>, j: JobId, from: TaskState, to: TaskState): map<JobId, Task> {
    if j in tasks && tasks[j].state == from then tasks[j := tasks[j].(state := to)] else tasks
  }

  function MarkEscalationDelivered(t: Tables, j: JobId, comment: int): Option<Tables> {
    if comment < 1 || j !in t.escalations || t.escalations[j].state != Undelivered then None
    else
      var e := t.escalations[j];
      Some(t.(escalations := t.escalations[j := e.(state := Delivered, comment := Some(comment),
          attempts := e.attempts + 1)],
              tasks := SetTaskFrom(t.tasks, j, EscalationPending, Escalated),
              jobs := SetJob(t.jobs, j, Failed)))
  }

  function MarkEscalationFailure(
    t: Tables, j: JobId, attempts: nat, retry: bool, message: string, now: Time): Option<Tables> {
    if j !in t.escalations || t.escalations[j].state != Undelivered then None
    else
      var e := t.escalations[j];
      if retry && attempts + 1 < REPORT_RETRY_MAX_ATTEMPTS then
        Some(t.(escalations := t.escalations[j := e.(attempts := e.attempts + 1,
            due := now + ReportRetryDelay(attempts + 1))]))
      else
        Some(t.(escalations := t.escalations[j := e.(state := Blocked, attempts := e.attempts + 1, due := now)],
                tasks := SetTaskFrom(t.tasks, j, EscalationPending, EscalationBlocked),
                jobs := if j in t.jobs then t.jobs[j := t.jobs[j].(status := ReportBlocked, lastError := message)]
                    else t.jobs))
  }
}
