/** What a repair attempt keeps over every run, whatever policy is configured at each step. */
module CiEndurance {
  import opened Basics
  import Jobs
  import opened CiTables
  import opened CiProtocol
  import opened CiTheorems

  // ---------- every answer continues the attempts ----------

  lemma VerdictContinues(p: Policy, t: Tables, j: Jobs.JobId, verdict: Verdict, now: Time)
    requires j in t.tasks
    ensures
      var u := Commit(t, ApplyVerdict(t, j, verdict, p, now));
      BookContinues(Book(t, j), Book(u, j))
  {
    if verdict == CodeFailure {
      CodeFailureContinues(p, t, j, now);
    } else {
      assert Book(Commit(t, ApplyVerdict(t, j, verdict, p, now)), j) == Book(t, j);
    }
  }

  lemma CodeFailureContinues(p: Policy, t: Tables, j: Jobs.JobId, now: Time)
    requires j in t.tasks
    ensures BookContinues(Book(t, j), Book(Commit(t, ApplyCodeFailure(t, j, p, now)), j))
  {
    var u := Commit(t, ApplyCodeFailure(t, j, p, now));
    var n := t.tasks[j].repairs + 1;
    assert Book(u, j) == Book(t, j)
           || (n !in Book(t, j) && n in Book(u, j) && Book(u, j) == Book(t, j)[n := Book(u, j)[n]]);
  }

  lemma ApplyContinues(p: Policy, t: Tables, r: RecId, o: Observation, now: Time)
    ensures BookContinues(Book(t, r.job), Book(Commit(t, ApplyObservation(t, r, o, p, now)), r.job))
  {
    if r.job in t.tasks {
      var v := Observed(t, r, o, now);
      assert Book(v, r.job) == Book(t, r.job);
      VerdictContinues(p, v, r.job, o.verdict, now);
    }
  }

  lemma FailRecContinues(p: Policy, t: Tables, r: RecId, operations: nat, failure: ObserveFailure, now: Time)
    ensures Book(Commit(t, FailRec(t, r, operations, failure, p, now)), r.job) == Book(t, r.job)
  {}

  lemma ContinuesTwice(a: map<int, Attempt>, b: map<int, Attempt>, c: map<int, Attempt>)
    requires BookContinues(a, b) && (forall n | n in b :: n in c && c[n] == b[n])
    ensures BookContinues(a, c)
  {}

  lemma FailureContinues(p: Policy, t: Tables, id: AttemptId, cause: FailureClass, started: bool, now: Time)
    requires Has(t, id)
    ensures BookContinues(Book(t, id.job), Book(Commit(t, FinishFailure(t, id, cause, started, p, now)), id.job))
  {
    var r := FinishFailure(t, id, cause, started, p, now);
    if r.Some? && r.value != t {
      var charge := started && !At(t, id).charged;
      CloseContinues(t, id, cause, charge);
      NewAttemptOnly(p, CloseFailed(t, id, cause, charge), id, cause, started, now);
      ContinuesTwice(Book(t, id.job), Book(CloseFailed(t, id, cause, charge), id.job), Book(r.value, id.job));
    }
  }

  lemma NewAttemptOnly(p: Policy, t: Tables, id: AttemptId, cause: FailureClass, started: bool, now: Time)
    requires id.job in t.tasks && AfterFailure(t, id, cause, started, p, now).Some?
    ensures
      var u := AfterFailure(t, id, cause, started, p, now).value;
      forall n | n in Book(t, id.job) :: n in Book(u, id.job) && Book(u, id.job)[n] == Book(t, id.job)[n]
  {}

  // Binding, charging and delivering keep everything the attempt already has.

  lemma BindContinues(t: Tables, id: AttemptId, run: string, now: Time)
    ensures BookContinues(Book(t, id.job), Book(Commit(t, BindRun(t, id, run, now)), id.job))
  {}

  lemma ChargeContinues(t: Tables, id: AttemptId)
    ensures BookContinues(Book(t, id.job), Book(Commit(t, Charge(t, id)), id.job))
  {}

  lemma DeliveryContinues(p: Policy, t: Tables, id: AttemptId, d: Delivery, now: Time)
    ensures BookContinues(Book(t, id.job), Book(Commit(t, CompleteDelivery(t, id, d, p, now)), id.job))
  {}

  lemma ReportContinues(t: Tables, j: Jobs.JobId, comment: int, attempts: nat, retry: bool, message: string, now: Time)
    ensures Book(Commit(t, MarkEscalationDelivered(t, j, comment)), j) == Book(t, j)
    ensures Book(Commit(t, MarkEscalationFailure(t, j, attempts, retry, message, now)), j) == Book(t, j)
  {}

  lemma AnswerContinues(p: Policy, s: Sys, op: Op)
    requires HoldOk(s) && Enabled(s, op) && Answers(op)
    ensures BookContinues(Book(s.t, Claimed(s.hold)), Book(Step(p, s, op).t, Claimed(s.hold)))
  {
    match op
    case FailObserve(failure, now) => FailRecContinues(p, s.t, s.hold.rec, s.hold.operations, failure, now);
    case Apply(observation, now) => ApplyContinues(p, s.t, s.hold.rec, observation, now);
    case Bind(run, now) => BindContinues(s.t, s.hold.id, run, now);
    case ChargeRun => ChargeContinues(s.t, s.hold.id);
    case Complete(delivery, now) => DeliveryContinues(p, s.t, s.hold.id, delivery, now);
    case Abandon(now) => FailureContinues(p, s.t, s.hold.id, InfrastructureClass, false, now);
    case Finish(cause, started, now) => FailureContinues(p, s.t, s.hold.id, cause, started, now);
    case Deliver(comment) => ReportContinues(s.t, s.hold.job, comment, 0, false, "", 0);
    case FailReport(retry, message, now) => ReportContinues(s.t, s.hold.job, 0, s.hold.attempts, retry, message, now);
  }

  /** Every step, under whatever policy, continues the attempts of every task. */
  lemma StepContinues(p: Policy, s: Sys, op: Op, j: Jobs.JobId)
    requires Ok(s) && Enabled(s, op) && j in s.t.tasks
    ensures BookContinues(Book(s.t, j), Book(Step(p, s, op).t, j))
  {
    if !Answers(op) {
      OtherStepsStay(p, s, op, j);
    } else if j == Claimed(s.hold) {
      AnswerContinues(p, s, op);
    } else {
      Footprint(p, s, op, j);
    }
  }

  // ---------- the theorems ----------

  /**
   Over any run an attempt once made stays, keeps its broker run and its charge, and its generations never go back.
   */
  lemma {:induction false} AttemptsEndure(s: Sys, run: seq<Turn>, id: AttemptId)
    requires Ok(s) && Legal(s, run) && Has(s.t, id)
    ensures
      var t := Exec(s, run).t;
      && Has(t, id) && (At(s.t, id).run != "" ==> At(t, id).run == At(s.t, id).run)
      && (At(s.t, id).charged ==> At(t, id).charged)
      && At(s.t, id).WaitGeneration() <= At(t, id).WaitGeneration()
      && At(s.t, id).resumedGeneration <= At(t, id).resumedGeneration <= At(t, id).WaitGeneration()
    decreases |run|
  {
    assert id.job in s.t.attempts.Keys && TaskOk(s.t, id.job);
    if run == [] {
    } else {
      StepContinues(run[0].policy, s, run[0].op, id.job);
      StepKeeps(run[0].policy, s, run[0].op);
      AttemptsEndure(Step(run[0].policy, s, run[0].op), run[1..], id);
    }
  }

  /**
   A wait generation is marked resumed under the key derived from it, and after that no call for the same generation,
   however much later and under whatever policies, changes anything.
   */
  lemma GenerationResumedOnce(s: Sys, id: AttemptId, key: ResumeKey, g: int, due: Time, now: Time)
    requires Ok(s) && Has(s.t, id)
    requires MarkResumed(s.t, id, key, g, due, now).Some? && MarkResumed(s.t, id, key, g, due, now).value != s.t
    ensures g == At(s.t, id).WaitGeneration() && key == KeyOf(id, At(s.t, id), g)
    ensures
      var marked := Sys(MarkResumed(s.t, id, key, g, due, now).value, s.hold);
      forall run, key', due', now' | Legal(marked, run) ::
        var t := Exec(marked, run).t;
        Commit(t, MarkResumed(t, id, key', g, due', now')) == t
  {
    var marked := Sys(MarkResumed(s.t, id, key, g, due, now).value, s.hold);
    assert id.job in s.t.attempts.Keys && TaskOk(s.t, id.job);
    TouchKeeps(s.t, id, At(marked.t, id));
    forall run, key', due', now' | Legal(marked, run)
      ensures Commit(Exec(marked, run).t, MarkResumed(Exec(marked, run).t, id, key', g, due', now'))
              == Exec(marked, run).t
    {
      AttemptsEndure(marked, run, id);
    }
  }

  /** How often a run marks generation `g` of an attempt resumed. */
  ghost function Resumptions(s: Sys, run: seq<Turn>, id: AttemptId, g: int): nat
    requires Legal(s, run)
    decreases |run|
  {
    if run == [] then 0
    else
      var u := Step(run[0].policy, s, run[0].op);
      (if Has(s.t, id) && Has(u.t, id) && At(s.t, id).resumedGeneration < g == At(u.t, id).resumedGeneration then 1
          else 0)
      + Resumptions(u, run[1..], id, g)
  }

  lemma {:induction false} ResumedOnceFrom(s: Sys, run: seq<Turn>, id: AttemptId, g: int)
    requires Ok(s) && Legal(s, run)
    ensures Resumptions(s, run, id, g) <= if Has(s.t, id) && At(s.t, id).resumedGeneration >= g then 0 else 1
    decreases |run|
  {
    if run == [] {
    } else {
      if Has(s.t, id) {
        assert id.job in s.t.attempts.Keys;
        StepContinues(run[0].policy, s, run[0].op, id.job);
      }
      StepKeeps(run[0].policy, s, run[0].op);
      ResumedOnceFrom(Step(run[0].policy, s, run[0].op), run[1..], id, g);
    }
  }

  /** In a whole run each generation of each attempt is marked resumed at most once. */
  lemma ResumedOnce(jobs: map<Jobs.JobId, Jobs.Job>, run: seq<Turn>, id: AttemptId, g: int)
    requires Legal(Initial(jobs), run)
    ensures Resumptions(Initial(jobs), run, id, g) <= 1
  {
    InitialOk(jobs);
    ResumedOnceFrom(Initial(jobs), run, id, g);
  }
}
