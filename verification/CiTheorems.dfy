/** What holds over every run of the CI repair protocol. */
module CiTheorems {
  import opened Basics
  import opened Jobs
  import opened CiTables
  import opened CiProtocol

  // ---------- runs ----------

  /** One step of a run, under the policy configured at that moment. */
  datatype Turn = Turn(policy: Policy, op: Op)

  ghost predicate Legal(s: Sys, run: seq<Turn>)
    decreases |run|
  {
    run == [] || (Enabled(s, run[0].op) && Legal(Step(run[0].policy, s, run[0].op), run[1..]))
  }

  ghost function Exec(s: Sys, run: seq<Turn>): Sys
    requires Legal(s, run)
    decreases |run|
  {
    if run == [] then s else Exec(Step(run[0].policy, s, run[0].op), run[1..])
  }

  lemma {:induction false} RunKeeps(s: Sys, run: seq<Turn>)
    requires Ok(s) && Legal(s, run)
    ensures Ok(Exec(s, run))
    decreases |run|
  {
    if run == [] {
    } else {
      StepKeeps(run[0].policy, s, run[0].op);
      RunKeeps(Step(run[0].policy, s, run[0].op), run[1..]);
    }
  }

  // ---------- attempt accounting ----------

  function Charged(book: map<int, Attempt>): set<int> {
    set n | n in book && book[n].charged
  }

  function OpenAttempts(book: map<int, Attempt>): set<int> {
    set n | n in book && book[n].Open()
  }

  /**
   After any run, under any sequence of policies: a task's attempts are numbered 1..n, `repairs` is the number
   of charged ones, and the task's state says exactly which attempt is open.
   */
  lemma AttemptAccounting(jobs: map<JobId, Job>, run: seq<Turn>, j: JobId)
    requires Legal(Initial(jobs), run) && j in Exec(Initial(jobs), run).t.tasks
    ensures
      var t := Exec(Initial(jobs), run).t;
      AttemptsMatch(t.tasks[j], Book(t, j))
  {
    InitialOk(jobs);
    RunKeeps(Initial(jobs), run);
    assert TaskOk(Exec(Initial(jobs), run).t, j);
    ShapesMatch(Exec(Initial(jobs), run).t, j);
  }

  /** `repairs` counts the charged attempts of 1..n, and the state says which one is open. */
  ghost predicate AttemptsMatch(task: Task, book: map<int, Attempt>) {
    && book.Keys == Interval(1, |book|)
    && |Charged(book)| == task.repairs
    && match task.state
       case WaitingCi => OpenAttempts(book) == {} && Charged(book) == book.Keys
       case TaskCompleted => OpenAttempts(book) == {} && Charged(book) == book.Keys
       case RepairReady => OpenAttempts(book) == {task.repairs + 1} && ReadyToLaunch(book, task.repairs + 1)
       case RepairRunning => OpenAttempts(book) == {|book|} && BoundToRun(book, |book|)
       case _ => OpenAttempts(book) == {}
  }

  predicate ReadyToLaunch(book: map<int, Attempt>, n: int) {
    n in book && book[n].state == Ready && !book[n].charged
  }

  predicate BoundToRun(book: map<int, Attempt>, n: int) {
    n in book && book[n].state == Running && book[n].run != ""
  }

  lemma AccountedSizes(repairs: nat, book: map<int, Attempt>)
    requires Accounted(repairs, book)
    ensures book.Keys == Interval(1, |book|) && |book| == Count(repairs, book) && Charged(book) == Interval(1, repairs)
  {
    var n := Count(repairs, book);
    assert book.Keys == Interval(1, n);
    assert |book| == |book.Keys| == n;
    forall k
      ensures k in Charged(book) <==> 1 <= k <= repairs
    {
    }
  }

  lemma OpenIs(repairs: nat, book: map<int, Attempt>, n: int)
    requires Accounted(repairs, book) && n == Count(repairs, book)
    ensures OpenAttempts(book) == if n in book && book[n].Open() then {n} else {}
  {
    var open: set<int> := if n in book && book[n].Open() then {n} else {};
    forall k
      ensures k in OpenAttempts(book) <==> k in open
    {
      assert k in book && book[k].Open() ==> k == n;
    }
    assert OpenAttempts(book) == open;
  }

  lemma ShapesMatch(t: Tables, j: JobId)
    requires j in t.tasks && TaskOk(t, j)
    ensures AttemptsMatch(t.tasks[j], Book(t, j))
  {
    var task := t.tasks[j];
    var book := Book(t, j);
    var n := Count(task.repairs, book);
    AccountedSizes(task.repairs, book);
    OpenIs(task.repairs, book, n);
    assert n in book ==> AttemptOk(AttemptId(j, n), book[n]);
  }

  /** After any run, a task has an escalation row exactly in the escalation states, and the row's state matches. */
  lemma EscalationRowsMatch(jobs: map<JobId, Job>, run: seq<Turn>, j: JobId)
    requires Legal(Initial(jobs), run)
    ensures
      var t := Exec(Initial(jobs), run).t;
      && (j in t.escalations ==> j in t.tasks)
      && (j in t.tasks ==> EscalationMatches(t, j))
  {
    InitialOk(jobs);
    RunKeeps(Initial(jobs), run);
    var t := Exec(Initial(jobs), run).t;
    assert j in t.escalations.Keys ==> j in t.tasks.Keys;
    assert j in t.tasks ==> TaskOk(t, j);
  }

  lemma InitialOk(jobs: map<JobId, Job>)
    ensures Ok(Initial(jobs))
  {}

  // ---------- every task has exactly one way forward ----------

  datatype Claim = ToReconcile | ToLaunch | ToPoll | ToReport

  /** The claim functions that may pick up job `j` at time `now`. */
  ghost predicate Offers(t: Tables, j: JobId, claim: Claim, now: Time) {
    match claim
    case ToReconcile => exists r :: r in DueRecs(WakeDeadlines(t, now), now) && r.job == j
    case ToLaunch => exists id :: id in DueLaunches(t, now) && id.job == j
    case ToPoll => exists id :: id in DueStatuses(t, now) && id.job == j
    case ToReport => j in DueEscalations(t, now)
  }

  function ClaimOf(state: TaskState): Option<Claim> {
    match state
    case WaitingCi => Some(ToReconcile)
    case RepairReady => Some(ToLaunch)
    case RepairRunning => Some(ToPoll)
    case EscalationPending => Some(ToReport)
    case _ => None
  }

  /** When the row that drives the task falls due. */
  function WakeTime(t: Tables, j: JobId): Time
    requires j in t.tasks
  {
    var n := Count(t.tasks[j].repairs, Book(t, j));
    match t.tasks[j].state
    case EscalationPending => if j in t.escalations then t.escalations[j].due else 0
    case RepairReady => if n in Book(t, j) then Book(t, j)[n].due else 0
    case RepairRunning => if n in Book(t, j) then Book(t, j)[n].due else 0
    case _ => t.tasks[j].deadline
  }

  lemma OnlyOneClaim(t: Tables, j: JobId, claim: Claim, now: Time)
    requires TablesOk(t) && j in t.tasks && Offers(t, j, claim, now)
    ensures ClaimOf(t.tasks[j].state) == Some(claim)
  {
    assert TaskOk(t, j);
    match claim
    case ToReconcile => assert WakeDeadlines(t, now).tasks == t.tasks;
    case ToLaunch =>
    case ToPoll =>
    case ToReport =>
  }

  lemma ClaimOffered(t: Tables, j: JobId, now: Time)
    requires TablesOk(t) && j in t.tasks && ClaimOf(t.tasks[j].state).Some? && WakeTime(t, j) <= now
    ensures Offers(t, j, ClaimOf(t.tasks[j].state).value, now)
  {
    assert TaskOk(t, j);
    var n := Count(t.tasks[j].repairs, Book(t, j));
    match t.tasks[j].state
    case WaitingCi =>
      var r := RecId(j, t.tasks[j].head);
      assert DeadlinePassed(t, r, now);
      assert r in DueRecs(WakeDeadlines(t, now), now);
    case RepairReady => assert AttemptId(j, n) in DueLaunches(t, now);
    case RepairRunning => assert AttemptId(j, n) in DueStatuses(t, now);
    case EscalationPending => assert j in t.tasks.Keys;
  }

  /**
   No task is ever stranded: after any run, a task that is not finished is offered by exactly one of the four claim
   functions, as soon as its wake time has come; a finished or blocked one by none.
   */
  lemma NoTaskStranded(jobs: map<JobId, Job>, run: seq<Turn>, j: JobId, now: Time)
    requires Legal(Initial(jobs), run) && j in Exec(Initial(jobs), run).t.tasks
    ensures
      var t := Exec(Initial(jobs), run).t;
      var due := ClaimOf(t.tasks[j].state);
      && (forall claim :: Offers(t, j, claim, now) ==> due == Some(claim))
      && (due.Some? && WakeTime(t, j) <= now ==> Offers(t, j, due.value, now))
  {
    InitialOk(jobs);
    RunKeeps(Initial(jobs), run);
    var t := Exec(Initial(jobs), run).t;
    forall claim | Offers(t, j, claim, now)
      ensures ClaimOf(t.tasks[j].state) == Some(claim)
    {
      OnlyOneClaim(t, j, claim, now);
    }
    if ClaimOf(t.tasks[j].state).Some? && WakeTime(t, j) <= now {
      ClaimOffered(t, j, now);
    }
  }

  /** An idle worker that asks while some task is on offer does get a row. */
  lemma OfferIsClaimed(s: Sys, j: JobId, claim: Claim, now: Time)
    requires s.hold.Idle? && Offers(s.t, j, claim, now)
    ensures
      match claim
      case ToReconcile => exists r :: Enabled(s, ClaimRec(r, now))
      case ToLaunch => exists id :: Enabled(s, ClaimLaunch(id, now))
      case ToPoll => exists id :: Enabled(s, ClaimStatus(id, now))
      case ToReport => exists i :: Enabled(s, ClaimEscalation(i, now))
  {
    match claim
    case ToReconcile =>
      var t := WakeDeadlines(s.t, now);
      FirstExists(DueRecs(t, now), RecRank(t));
      var r :| IsFirst(DueRecs(t, now), RecRank(t), r);
      assert Enabled(s, ClaimRec(r, now));
    case ToLaunch =>
      FirstExists(DueLaunches(s.t, now), AttemptRank(s.t));
      var id :| IsFirst(DueLaunches(s.t, now), AttemptRank(s.t), id);
      assert Enabled(s, ClaimLaunch(id, now));
    case ToPoll =>
      FirstExists(DueStatuses(s.t, now), AttemptRank(s.t));
      var id :| IsFirst(DueStatuses(s.t, now), AttemptRank(s.t), id);
      assert Enabled(s, ClaimStatus(id, now));
    case ToReport =>
      FirstExists(DueEscalations(s.t, now), EscalationRank(s.t));
      var i :| IsFirst(DueEscalations(s.t, now), EscalationRank(s.t), i);
      assert Enabled(s, ClaimEscalation(i, now));
  }

  // ---------- progress ----------

  /** No attempt beyond the policy's maximum has been opened. */
  ghost predicate WithinPolicy(p: Policy, t: Tables) {
    forall j | j in t.tasks :: Count(t.tasks[j].repairs, Book(t, j)) <= p.maxAttempts
  }

  /** What a run has achieved for a task, leaving schedules and observations aside. */
  ghost predicate SameProgress(t: Tables, u: Tables, j: JobId)
    requires j in t.tasks && j in u.tasks
  {
    && u.tasks[j].state == t.tasks[j].state && u.tasks[j].repairs == t.tasks[j].repairs
    && Book(u, j).Keys == Book(t, j).Keys
    && forall n | n in Book(t, j) ::
         && Book(u, j)[n].state == Book(t, j)[n].state && Book(u, j)[n].charged == Book(t, j)[n].charged
         && Book(u, j)[n].run == Book(t, j)[n].run
  }

  /** An attempt keeps its run, its charge and its outcome; recorded and resumed generations only grow, and a resume
      brings the resumed generation up to the recorded one. */
  predicate Continues(a: Attempt, b: Attempt) {
    && (a.run != "" ==> b.run == a.run) && (a.charged ==> b.charged) && (!a.Open() ==> b.state == a.state)
    && a.WaitGeneration() <= b.WaitGeneration() && a.resumedGeneration <= b.resumedGeneration
    && (a.resumedGeneration < b.resumedGeneration ==> b.resumedGeneration == a.WaitGeneration() == b.WaitGeneration())
  }

  predicate BookContinues(before: map<int, Attempt>, after: map<int, Attempt>) {
    forall n | n in before :: n in after && Continues(before[n], after[n])
  }

  ghost predicate Stays(t: Tables, u: Tables, j: JobId) {
    j in t.tasks && j in u.tasks && SameProgress(t, u, j) && BookContinues(Book(t, j), Book(u, j))
  }

  /** Remaining attempts first, then the phase of the current one. */
  ghost function Measure(p: Policy, t: Tables, j: JobId): int
    requires j in t.tasks
  {
    var left := 4 * (p.maxAttempts - t.tasks[j].repairs);
    match t.tasks[j].state
    case WaitingCi => left + 4
    case RepairReady => left + 3
    case RepairRunning => if t.tasks[j].repairs + 1 in Book(t, j) then left + 2 else left + 5
    case EscalationPending => 1
    case _ => 0
  }

  lemma MeasureBounds(p: Policy, t: Tables, j: JobId)
    requires TablesOk(t) && WithinPolicy(p, t) && j in t.tasks
    ensures 0 <= Measure(p, t, j) <= 4 * p.maxAttempts + 5
    ensures t.tasks[j].state == WaitingCi ==> Measure(p, t, j) >= 4
    ensures t.tasks[j].state == RepairReady ==> Measure(p, t, j) >= 7
    ensures t.tasks[j].state == RepairRunning ==> Measure(p, t, j) >= 5
  {
    assert TaskOk(t, j);
  }

  /** A step either leaves a task where it was or uses up some of its measure. */
  ghost predicate Advances(p: Policy, t: Tables, u: Tables, j: JobId) {
    && j in t.tasks && j in u.tasks
    && Count(u.tasks[j].repairs, Book(u, j)) <= p.maxAttempts
    && BookContinues(Book(t, j), Book(u, j))
    && (SameProgress(t, u, j) || Measure(p, u, j) < Measure(p, t, j))
  }

  /** The job whose row the worker has claimed. */
  function Claimed(hold: Hold): JobId {
    match hold
    case Idle => 0
    case Observing(r, _) => r.job
    case Launching(id) => id.job
    case Polling(id) => id.job
    case Reporting(j, _) => j
  }

  predicate Answers(op: Op) {
    || op.FailObserve? || op.Apply? || op.Bind? || op.ChargeRun? || op.Complete? || op.Abandon? || op.Finish?
    || op.Deliver? || op.FailReport?
  }

  lemma Footprint(p: Policy, s: Sys, op: Op, i: JobId)
    requires Enabled(s, op) && Answers(op) && i != Claimed(s.hold)
    ensures SameRows(s.t, Step(p, s, op).t, i)
  {
    match op
    case Apply(observation, now) => ApplyFootprint(p, s.t, s.hold.rec, observation, now, i);
    case Abandon(now) => FailureFootprint(p, s.t, s.hold.id, InfrastructureClass, false, now, i);
    case Finish(cause, started, now) => FailureFootprint(p, s.t, s.hold.id, cause, started, now, i);
    case FailObserve(failure, now) => FailRecFootprint(p, s.t, s.hold.rec, s.hold.operations, failure, now, i);
    case _ => RunFootprint(p, s, op, i);
  }

  lemma FailRecFootprint(p: Policy, t: Tables, r: RecId, operations: nat, failure: ObserveFailure, now: Time, i: JobId)
    requires i != r.job
    ensures SameRows(t, Commit(t, FailRec(t, r, operations, failure, p, now)), i)
  {}

  lemma RunFootprint(p: Policy, s: Sys, op: Op, i: JobId)
    requires Enabled(s, op) && i != Claimed(s.hold)
             && (op.Bind? || op.ChargeRun? || op.Complete? || op.Deliver? || op.FailReport?)
    ensures SameRows(s.t, Step(p, s, op).t, i)
  {
    if op.Deliver? || op.FailReport? {
      ReportFootprint(p, s, op, i);
    }
  }

  lemma ReportFootprint(p: Policy, s: Sys, op: Op, i: JobId)
    requires Enabled(s, op) && i != Claimed(s.hold) && (op.Deliver? || op.FailReport?)
    ensures SameRows(s.t, Step(p, s, op).t, i)
  {}

  lemma ApplyFootprint(p: Policy, t: Tables, r: RecId, o: Observation, now: Time, i: JobId)
    requires i != r.job
    ensures SameRows(t, Commit(t, ApplyObservation(t, r, o, p, now)), i)
  {
    if r.job in t.tasks {
      VerdictFootprint(p, Observed(t, r, o, now), r.job, o.verdict, now, i);
    }
  }

  lemma VerdictFootprint(p: Policy, t: Tables, j: JobId, verdict: Verdict, now: Time, i: JobId)
    requires j in t.tasks && i != j
    ensures SameRows(t, Commit(t, ApplyVerdict(t, j, verdict, p, now)), i)
  {}

  lemma FailureFootprint(p: Policy, t: Tables, id: AttemptId, cause: FailureClass, started: bool, now: Time, i: JobId)
    requires i != id.job
    ensures SameRows(t, Commit(t, FinishFailure(t, id, cause, started, p, now)), i)
  {}

  lemma VerdictAdvances(p: Policy, t: Tables, j: JobId, verdict: Verdict, now: Time)
    requires Undecided(t, j) && Count(t.tasks[j].repairs, Book(t, j)) == t.tasks[j].repairs <= p.maxAttempts
    requires t.tasks[j].state == WaitingCi && ApplyVerdict(t, j, verdict, p, now).Some?
    ensures Advances(p, t, ApplyVerdict(t, j, verdict, p, now).value, j)
  {
    var u := ApplyVerdict(t, j, verdict, p, now).value;
    if verdict == CodeFailure && t.tasks[j].repairs < p.maxAttempts {
      var n := t.tasks[j].repairs + 1;
      assert Book(u, j) == Book(t, j)[n := Book(u, j)[n]];
    } else {
      assert Book(u, j) == Book(t, j);
    }
  }

  lemma ApplyAdvances(p: Policy, t: Tables, r: RecId, o: Observation, now: Time)
    requires TablesOk(t) && WithinPolicy(p, t) && r.job in t.tasks && t.tasks[r.job].state == WaitingCi
    requires ApplyObservation(t, r, o, p, now).Some?
    ensures Advances(p, t, ApplyObservation(t, r, o, p, now).value, r.job)
  {
    ObservedIsUndecided(t, r, o, now);
    var u := Observed(t, r, o, now);
    assert Book(u, r.job) == Book(t, r.job);
    VerdictAdvances(p, u, r.job, o.verdict, now);
  }

  lemma FailRecAdvances(p: Policy, t: Tables, r: RecId, n: nat, failure: ObserveFailure, now: Time)
    requires TablesOk(t) && WithinPolicy(p, t) && r.job in t.tasks && t.tasks[r.job].state == WaitingCi
    requires FailRec(t, r, n, failure, p, now).Some?
    ensures Advances(p, t, FailRec(t, r, n, failure, p, now).value, r.job)
  {
    MeasureBounds(p, t, r.job);
    assert Book(FailRec(t, r, n, failure, p, now).value, r.job) == Book(t, r.job);
  }

  lemma CloseContinues(t: Tables, id: AttemptId, cause: FailureClass, charge: bool)
    requires Has(t, id) && id.job in t.tasks && At(t, id).Open()
    ensures BookContinues(Book(t, id.job), Book(CloseFailed(t, id, cause, charge), id.job))
  {}

  /** A failure that starts no new attempt escalates; one that does has been charged. */
  lemma FailureOutcome(p: Policy, t: Tables, id: AttemptId, cause: FailureClass, started: bool, now: Time)
    requires TablesOk(t) && WithinPolicy(p, t) && Has(t, id) && At(t, id).Open()
    requires FinishFailure(t, id, cause, started, p, now).Some?
    ensures
      var u := FinishFailure(t, id, cause, started, p, now).value;
      && id.job in t.tasks && id.job in u.tasks
      && Count(u.tasks[id.job].repairs, Book(u, id.job)) <= p.maxAttempts
      && (u.tasks[id.job].state == EscalationPending
         || (u.tasks[id.job].state == RepairReady && u.tasks[id.job].repairs == id.number))
      && BookContinues(Book(t, id.job), Book(u, id.job))
  {
    var charge := started && !At(t, id).charged;
    OpenIsLast(t, id);
    ClosedIsUndecided(t, id, cause, charge);
    CloseContinues(t, id, cause, charge);
    AfterFailureState(p, CloseFailed(t, id, cause, charge), id, cause, started, now);
  }

  lemma FailureAdvances(p: Policy, t: Tables, id: AttemptId, cause: FailureClass, started: bool, now: Time)
    requires TablesOk(t) && WithinPolicy(p, t) && Has(t, id) && At(t, id).Open()
    requires FinishFailure(t, id, cause, started, p, now).Some?
    ensures Advances(p, t, FinishFailure(t, id, cause, started, p, now).value, id.job)
  {
    FailureOutcome(p, t, id, cause, started, now);
    OpenIsLast(t, id);
    MeasureBounds(p, t, id.job);
  }

  lemma AfterFailureState(p: Policy, t: Tables, id: AttemptId, cause: FailureClass, started: bool, now: Time)
    requires Undecided(t, id.job) && id.number <= p.maxAttempts && !Has(t, AttemptId(id.job, id.number + 1))
    requires started ==> id.number == t.tasks[id.job].repairs
    requires Count(t.tasks[id.job].repairs, Book(t, id.job)) == id.number
    requires AfterFailure(t, id, cause, started, p, now).Some?
    ensures
      var u := AfterFailure(t, id, cause, started, p, now).value;
      && id.job in u.tasks && u.tasks[id.job].repairs == t.tasks[id.job].repairs
      && (u.tasks[id.job].state == EscalationPending || (started && u.tasks[id.job].state == RepairReady))
      && Count(u.tasks[id.job].repairs, Book(u, id.job)) <= p.maxAttempts
      && (forall n | n in Book(t, id.job) :: n in Book(u, id.job) && Book(u, id.job)[n] == Book(t, id.job)[n])
  {
    var u := AfterFailure(t, id, cause, started, p, now).value;
    if u.tasks[id.job].state == RepairReady {
      assert Book(u, id.job) == Book(t, id.job)[id.number + 1 := Book(u, id.job)[id.number + 1]];
    } else {
      assert Book(u, id.job) == Book(t, id.job);
    }
  }

  lemma BindAdvances(p: Policy, t: Tables, id: AttemptId, run: string, now: Time)
    requires TablesOk(t) && WithinPolicy(p, t) && Has(t, id) && At(t, id).state == Ready
             && BindRun(t, id, run, now).Some?
    ensures Advances(p, t, BindRun(t, id, run, now).value, id.job)
  {
    OpenIsLast(t, id);
    assert TaskOk(t, id.job);
  }

  lemma ChargeAdvances(p: Policy, t: Tables, id: AttemptId)
    requires TablesOk(t) && WithinPolicy(p, t) && Has(t, id) && At(t, id).state == Running && Charge(t, id).Some?
    ensures Advances(p, t, Charge(t, id).value, id.job)
  {
    OpenIsLast(t, id);
    assert TaskOk(t, id.job);
  }

  lemma CompleteAdvances(p: Policy, t: Tables, id: AttemptId, d: Delivery, now: Time)
    requires TablesOk(t) && WithinPolicy(p, t) && Has(t, id) && At(t, id).state == Running
    requires CompleteDelivery(t, id, d, p, now).Some?
    ensures Advances(p, t, CompleteDelivery(t, id, d, p, now).value, id.job)
  {
    OpenIsLast(t, id);
    assert TaskOk(t, id.job);
  }

  lemma ReportAdvances(p: Policy, s: Sys, op: Op)
    requires Ok(s) && WithinPolicy(p, s.t) && Enabled(s, op) && (op.Deliver? || op.FailReport?)
    ensures Advances(p, s.t, Step(p, s, op).t, s.hold.job)
  {
    assert TaskOk(s.t, s.hold.job);
    ReportKeepsBook(p, s, op);
  }

  lemma ReportKeepsBook(p: Policy, s: Sys, op: Op)
    requires HoldOk(s) && Enabled(s, op) && (op.Deliver? || op.FailReport?)
    ensures Book(Step(p, s, op).t, s.hold.job) == Book(s.t, s.hold.job)
  {}

  lemma AnswerAdvances(p: Policy, s: Sys, op: Op)
    requires Ok(s) && WithinPolicy(p, s.t) && Enabled(s, op) && Answers(op)
    ensures Advances(p, s.t, Step(p, s, op).t, Claimed(s.hold))
  {
    var t := s.t;
    if Step(p, s, op).t == t {
      if s.hold.Launching? || s.hold.Polling? { OpenIsLast(t, s.hold.id); }
      assert SameProgress(t, t, Claimed(s.hold));
    } else {
      match op
      case FailObserve(failure, now) => FailRecAdvances(p, t, s.hold.rec, s.hold.operations, failure, now);
      case Apply(observation, now) => ApplyAdvances(p, t, s.hold.rec, observation, now);
      case Bind(run, now) => BindAdvances(p, t, s.hold.id, run, now);
      case ChargeRun => ChargeAdvances(p, t, s.hold.id);
      case Complete(delivery, now) => CompleteAdvances(p, t, s.hold.id, delivery, now);
      case Abandon(now) => FailureAdvances(p, t, s.hold.id, InfrastructureClass, false, now);
      case Finish(cause, started, now) => FailureAdvances(p, t, s.hold.id, cause, started, now);
      case Deliver(comment) => ReportAdvances(p, s, op);
      case FailReport(retry, message, now) => ReportAdvances(p, s, op);
    }
  }

  lemma EventStays(t: Tables, e: CiEvent, now: Time, j: JobId)
    requires TablesOk(t) && j in t.tasks
    ensures Stays(t, Commit(t, RecordEvent(t, e, now)), j)
  {
    var u := Commit(t, RecordEvent(t, e, now));
    if u != t {
      assert Book(u, j) == WokenBook(t, e, j, now);
    }
  }

  lemma WaitStays(p: Policy, s: Sys, op: Op, j: JobId)
    requires HoldOk(s) && Enabled(s, op) && j in s.t.tasks && (op.Waits? || op.Resumes?)
    ensures Stays(s.t, Step(p, s, op).t, j)
  {
    match op
    case Waits(wait) => TouchStays(s.t, RecordWait(s.t, s.hold.id, RunOf(s), wait), s.hold.id, j);
    case Resumes(key, generation, due, now) =>
      TouchStays(s.t, MarkResumed(s.t, s.hold.id, key, generation, due, now), s.hold.id, j);
  }

  lemma PostponeStays(p: Policy, s: Sys, op: Op, j: JobId)
    requires HoldOk(s) && Enabled(s, op) && j in s.t.tasks && (op.Postpone? || op.Reschedule?)
    ensures Stays(s.t, Step(p, s, op).t, j)
  {
    match op
    case Postpone(due, now) => TouchStays(s.t, DeferLaunch(s.t, s.hold.id, due, now), s.hold.id, j);
    case Reschedule(counted, due, now) =>
      TouchStays(s.t, RescheduleStatus(s.t, s.hold.id, counted, due, now), s.hold.id, j);
  }

  lemma ClaimStays(p: Policy, s: Sys, op: Op, j: JobId)
    requires Enabled(s, op) && j in s.t.tasks && (op.ClaimLaunch? || op.ClaimStatus?)
    ensures Stays(s.t, Step(p, s, op).t, j)
  {
    assert Has(s.t, op.id);
    TouchStays(s.t, Some(Step(p, s, op).t), op.id, j);
  }

  lemma ReadStays(p: Policy, s: Sys, op: Op, j: JobId)
    requires Enabled(s, op) && j in s.t.tasks && (op.ClaimRec? || op.ClaimEscalation? || op.Release? || op.OtherJobs?)
    ensures Stays(s.t, Step(p, s, op).t, j)
  {}

  lemma OtherStepsStay(p: Policy, s: Sys, op: Op, j: JobId)
    requires Ok(s) && Enabled(s, op) && !Answers(op) && j in s.t.tasks
    ensures Stays(s.t, Step(p, s, op).t, j)
  {
    if op.Webhook? {
      EventStays(s.t, op.event, op.now, j);
    } else if op.Waits? || op.Resumes? {
      WaitStays(p, s, op, j);
    } else if op.Postpone? || op.Reschedule? {
      PostponeStays(p, s, op, j);
    } else if op.ClaimLaunch? || op.ClaimStatus? {
      ClaimStays(p, s, op, j);
    } else if !op.Begin? {
      ReadStays(p, s, op, j);
    }
  }

  lemma TouchStays(t: Tables, r: Option<Tables>, id: AttemptId, j: JobId)
    requires j in t.tasks && Has(t, id)
    requires r.Some? && r.value != t ==>
      r.value == t.(attempts := r.value.attempts) && Has(r.value, id) && r.value.attempts == Put(t, id, At(r.value, id))
    requires r.Some? ==>
      var (a, b) := (At(t, id), At(r.value, id));
      b.state == a.state && b.charged == a.charged && b.run == a.run && Continues(a, b)
    ensures Stays(t, Commit(t, r), j)
  {}

  /** Under a fixed policy every step advances every task in this sense. */
  lemma StepAdvances(p: Policy, s: Sys, op: Op, j: JobId)
    requires Ok(s) && WithinPolicy(p, s.t) && Enabled(s, op) && j in s.t.tasks
    ensures Advances(p, s.t, Step(p, s, op).t, j)
  {
    if !Answers(op) {
      OtherStepsStay(p, s, op, j);
    } else if j == Claimed(s.hold) {
      AnswerAdvances(p, s, op);
    } else {
      Footprint(p, s, op, j);
    }
  }

  // ---------- bounded repair ----------

  ghost predicate Fixed(p: Policy, run: seq<Turn>) {
    forall i | 0 <= i < |run| :: run[i].policy == p
  }

  lemma StepWithinPolicy(p: Policy, s: Sys, op: Op)
    requires p.Valid() && Ok(s) && WithinPolicy(p, s.t) && Enabled(s, op)
    ensures WithinPolicy(p, Step(p, s, op).t)
  {
    var u := Step(p, s, op).t;
    forall j | j in u.tasks
      ensures Count(u.tasks[j].repairs, Book(u, j)) <= p.maxAttempts
    {
      if j in s.t.tasks {
        StepAdvances(p, s, op, j);
      } else {
        NewTaskHasNoAttempts(p, s, op, j);
      }
    }
  }

  lemma NewTaskHasNoAttempts(p: Policy, s: Sys, op: Op, j: JobId)
    requires Ok(s) && Enabled(s, op) && j !in s.t.tasks && j in Step(p, s, op).t.tasks
    ensures
      var u := Step(p, s, op).t;
      u.tasks[j].state == WaitingCi && u.tasks[j].repairs == 0 && Book(u, j) == map[]
  {
    if Answers(op) {
      if s.hold.Launching? || s.hold.Polling? { OpenIsLast(s.t, s.hold.id); }
      Footprint(p, s, op, j);
    }
  }

  lemma {:induction false} RunWithinPolicy(p: Policy, s: Sys, run: seq<Turn>)
    requires p.Valid() && Fixed(p, run) && Ok(s) && WithinPolicy(p, s.t) && Legal(s, run)
    ensures Ok(Exec(s, run)) && WithinPolicy(p, Exec(s, run).t)
    decreases |run|
  {
    if run == [] {
    } else {
      StepKeeps(p, s, run[0].op);
      StepWithinPolicy(p, s, run[0].op);
      RunWithinPolicy(p, Step(p, s, run[0].op), run[1..]);
    }
  }

  /** The steps of a run that move job `j` forward. */
  ghost function ProgressSteps(s: Sys, run: seq<Turn>, j: JobId): nat
    requires Legal(s, run) && j in s.t.tasks
    decreases |run|
  {
    if run == [] then 0
    else
      var s' := Step(run[0].policy, s, run[0].op);
      if j !in s'.t.tasks then 0
      else (if SameProgress(s.t, s'.t, j) then 0 else 1) + ProgressSteps(s', run[1..], j)
  }

  lemma {:induction false} ProgressIsPaidFor(p: Policy, s: Sys, run: seq<Turn>, j: JobId)
    requires p.Valid() && Fixed(p, run) && Ok(s) && WithinPolicy(p, s.t) && Legal(s, run) && j in s.t.tasks
    ensures ProgressSteps(s, run, j) <= Measure(p, s.t, j)
    decreases |run|
  {
    MeasureBounds(p, s.t, j);
    if run == [] {
    } else {
      StepAdvances(p, s, run[0].op, j);
      StepKeeps(p, s, run[0].op);
      StepWithinPolicy(p, s, run[0].op);
      ProgressIsPaidFor(p, Step(p, s, run[0].op), run[1..], j);
    }
  }

  function RunsOf(book: map<int, Attempt>): set<string> {
    set n | n in book && book[n].run != "" :: book[n].run
  }

  lemma {:induction false} ImageIsSmaller(book: map<int, Attempt>, keys: set<int>)
    requires keys <= book.Keys
    ensures |set n | n in keys && book[n].run != "" :: book[n].run| <= |keys|
  {
    if k :| k in keys {
      var rest := keys - {k};
      ImageIsSmaller(book, rest);
      var small := set n | n in rest && book[n].run != "" :: book[n].run;
      var all := set n | n in keys && book[n].run != "" :: book[n].run;
      assert all <= small + {book[k].run};
      SubsetSize(all, small + {book[k].run});
    }
  }

  /**
   Under a fixed policy, whatever webhooks and broker answers arrive: a task gets at most `maxAttempts` attempts and
   binds at most `maxAttempts` distinct broker runs, and at most 4 * maxAttempts + 4 steps of any continuation ever move
   it.
   */
  lemma RepairIsBounded(p: Policy, jobs: map<JobId, Job>, run: seq<Turn>, j: JobId)
    requires p.Valid() && Fixed(p, run) && Legal(Initial(jobs), run)
    ensures
      var t := Exec(Initial(jobs), run).t;
      j in t.tasks ==> |Book(t, j)| <= p.maxAttempts && |RunsOf(Book(t, j))| <= p.maxAttempts
    ensures forall more ::
      var s := Exec(Initial(jobs), run);
      Fixed(p, more) && Legal(s, more) && j in s.t.tasks && s.t.tasks[j].state == WaitingCi ==>
        ProgressSteps(s, more, j) <= 4 * p.maxAttempts + 4
  {
    InitialOk(jobs);
    RunWithinPolicy(p, Initial(jobs), run);
    var s := Exec(Initial(jobs), run);
    if j in s.t.tasks {
      var book := Book(s.t, j);
      assert TaskOk(s.t, j);
      assert book.Keys == Interval(1, Count(s.t.tasks[j].repairs, book));
      assert |book| == |book.Keys|;
      ImageIsSmaller(book, book.Keys);
      assert RunsOf(book) == set n | n in book.Keys && book[n].run != "" :: book[n].run;
    }
    forall more | Fixed(p, more) && Legal(s, more) && j in s.t.tasks && s.t.tasks[j].state == WaitingCi
      ensures ProgressSteps(s, more, j) <= 4 * p.maxAttempts + 4
    {
      ProgressIsPaidFor(p, s, more, j);
    }
  }
}
