/**
 The worker's code around a running repair: what it does with the broker's answers, as steps of the CI repair protocol.
 */
module CiWorker {
  import opened Basics
  import opened Delays
  import opened ExternalWaits
  import opened CiTables
  import opened CiProtocol
  import CiStore

  // ---------- the broker's answers ----------

  /**
   `Unavailable` stands for an observation that failed, `Refused` for a resume that did, `Garbled` for an unusable
   reply.
   */
  datatype ResumeAnswer = Resumption | Unavailable | Refused | Garbled

  datatype Ending =
    | NoTerminal(transient: bool)
    | BadTerminal
    | Unsuccessful(cause: FailureClass, started: bool)
    | Unproven
    | Repaired(delivery: Delivery)

  datatype Progress = StillGoing | UnknownStatus | Ended(ending: Ending)

  datatype StatusAnswer =
    | NoStatus(transient: bool)
    | WrongRun
    | BadWait
    | WaitsFor(wait: ExternalWait, resume: ResumeAnswer)
    | NotWaiting(progress: Progress)

  // ---------- the steps they amount to ----------

  /** The source's retry time of a failed request, from the operations on the claimed row. */
  function RetryAt(operations: nat, now: Time): Time {
    now + PreOutboxRetryDelay(operations + 1)
  }

  function OperationsOf(t: Tables, id: AttemptId): nat {
    if Has(t, id) then At(t, id).operations else 0
  }

  function Give(p: Policy, s: Sys, now: Time): Sys
    requires s.hold.Polling?
  {
    Answer(s, FinishFailure(s.t, s.hold.id, InfrastructureClass, false, p, now))
  }

  function DeferOrFail(p: Policy, s: Sys, transient: bool, due: Time, now: Time): Sys
    requires s.hold.Polling?
  {
    if transient then Answer(s, RescheduleStatus(s.t, s.hold.id, true, due, now)) else Give(p, s, now)
  }

  function AfterResume(s: Sys, generation: int, due: Time, now: Time, r: ResumeAnswer): Sys
    requires s.hold.Polling? && Has(s.t, s.hold.id)
  {
    match r
    case Unavailable => Answer(s, RescheduleStatus(s.t, s.hold.id, true, now + EXTERNAL_RECOVERY_WAKE, now))
    case Refused => Answer(s, RescheduleStatus(s.t, s.hold.id, true, due, now))
    case Garbled => s.(hold := Idle)
    case Resumption =>
      var key := KeyOf(s.hold.id, At(s.t, s.hold.id), generation);
      Answer(s, MarkResumed(s.t, s.hold.id, key, generation, now + STATUS_POLL_INTERVAL, now))
  }

  function WaitPath(s: Sys, wait: ExternalWait, due: Time, now: Time, r: ResumeAnswer): Sys
    requires s.hold.Polling?
  {
    var u := Continue(s, RecordWait(s.t, s.hold.id, RunOf(s), wait));
    if u.hold.Polling? && Has(u.t, u.hold.id) then AfterResume(u, wait.generation, due, now, r) else u.(hold := Idle)
  }

  /** The wait of the run is over without an answer to a resume on record. */
  predicate Unacknowledged(s: Sys)
    requires s.hold.Polling?
  {
    && Has(s.t, s.hold.id) && At(s.t, s.hold.id).resumeKey.Some?
    && At(s.t, s.hold.id).WaitGeneration() > At(s.t, s.hold.id).resumedGeneration
  }

  function Acknowledge(s: Sys, now: Time): Sys
    requires s.hold.Polling?
  {
    if !Unacknowledged(s) then s
    else
      var a := At(s.t, s.hold.id);
      Continue(s, MarkResumed(s.t, s.hold.id, a.resumeKey.value, a.WaitGeneration(), now + STATUS_POLL_INTERVAL, now))
  }

  /** The attempt is charged before its delivery is recorded. */
  function Deliver(p: Policy, s: Sys, d: Delivery, now: Time): Sys
    requires s.hold.Polling?
  {
    var u := Continue(s, Charge(s.t, s.hold.id));
    if u.hold.Polling? then Answer(u, CompleteDelivery(u.t, u.hold.id, d, p, now)) else u
  }

  function EndPath(p: Policy, s: Sys, a: Ending, due: Time, now: Time): Sys
    requires s.hold.Polling?
  {
    match a
    case NoTerminal(transient) => DeferOrFail(p, s, transient, due, now)
    case BadTerminal => Give(p, s, now)
    case Unsuccessful(cause, started) => Answer(s, FinishFailure(s.t, s.hold.id, cause, started, p, now))
    case Unproven => Give(p, s, now)
    case Repaired(d) => Deliver(p, s, d, now)
  }

  function ProgressPath(p: Policy, s: Sys, a: Progress, due: Time, now: Time): Sys
    requires s.hold.Polling?
  {
    match a
    case UnknownStatus => Give(p, s, now)
    case StillGoing => Answer(s, RescheduleStatus(s.t, s.hold.id, false, now + STATUS_POLL_INTERVAL, now))
    case Ended(ending) => EndPath(p, s, ending, due, now)
  }

  /** Everything a status request does with its answer; a transient failure is retried at `due`. */
  function Follow(p: Policy, s: Sys, a: StatusAnswer, due: Time, now: Time): Sys
    requires s.hold.Polling?
  {
    match a
    case NoStatus(transient) => DeferOrFail(p, s, transient, due, now)
    case WrongRun => Give(p, s, now)
    case BadWait => s.(hold := Idle)
    case WaitsFor(wait, r) => WaitPath(s, wait, due, now, r)
    case NotWaiting(progress) =>
      var u := Acknowledge(s, now);
      if u.hold.Polling? then ProgressPath(p, u, progress, due, now) else u
  }

  // ---------- they are steps of the protocol ----------

  predicate Takes(p: Policy, s: Sys, op: Op, u: Sys) {
    Enabled(s, op) && Step(p, s, op) == u
  }

  lemma StepOk(p: Policy, s: Sys, op: Op, u: Sys)
    requires Ok(s) && Takes(p, s, op, u)
    ensures Ok(u)
  {
    StepKeeps(p, s, op);
  }

  lemma GiveKeeps(p: Policy, s: Sys, now: Time)
    requires Ok(s) && s.hold.Polling?
    ensures Ok(Give(p, s, now)) && Give(p, s, now).hold.Idle?
  {
    StepOk(p, s, Finish(InfrastructureClass, false, now), Give(p, s, now));
  }

  lemma DeferKeeps(p: Policy, s: Sys, counted: bool, due: Time, now: Time)
    requires Ok(s) && s.hold.Polling?
    ensures Ok(Answer(s, RescheduleStatus(s.t, s.hold.id, counted, due, now)))
  {
    StepOk(p, s, Reschedule(counted, due, now), Answer(s, RescheduleStatus(s.t, s.hold.id, counted, due, now)));
  }

  lemma ResumeKeeps(p: Policy, s: Sys, key: ResumeKey, generation: int, due: Time, now: Time)
    requires Ok(s) && s.hold.Polling?
    ensures
      var r := MarkResumed(s.t, s.hold.id, key, generation, due, now);
      Ok(Continue(s, r)) && Ok(Answer(s, r))
  {
    var r := MarkResumed(s.t, s.hold.id, key, generation, due, now);
    StepOk(p, s, Resumes(key, generation, due, now), Continue(s, r));
    var u := Continue(s, r);
    StepOk(p, u, Release, Sys(u.t, Idle));
  }

  lemma LetGoKeeps(p: Policy, s: Sys)
    requires Ok(s)
    ensures Ok(s.(hold := Idle))
  {
    StepOk(p, s, Release, s.(hold := Idle));
  }

  lemma AfterResumeKeeps(p: Policy, s: Sys, generation: int, due: Time, now: Time, r: ResumeAnswer)
    requires Ok(s) && s.hold.Polling? && Has(s.t, s.hold.id)
    ensures Ok(AfterResume(s, generation, due, now, r)) && AfterResume(s, generation, due, now, r).hold.Idle?
  {
    match r
    case Unavailable => DeferKeeps(p, s, true, now + EXTERNAL_RECOVERY_WAKE, now);
    case Refused => DeferKeeps(p, s, true, due, now);
    case Garbled => LetGoKeeps(p, s);
    case Resumption =>
      ResumeKeeps(p, s, KeyOf(s.hold.id, At(s.t, s.hold.id), generation), generation, now + STATUS_POLL_INTERVAL, now);
  }

  lemma WaitsKeeps(p: Policy, s: Sys, wait: ExternalWait)
    requires Ok(s) && s.hold.Polling?
    ensures Ok(Continue(s, RecordWait(s.t, s.hold.id, RunOf(s), wait)))
  {
    StepOk(p, s, Waits(wait), Continue(s, RecordWait(s.t, s.hold.id, RunOf(s), wait)));
  }

  lemma WaitPathKeeps(p: Policy, s: Sys, wait: ExternalWait, due: Time, now: Time, r: ResumeAnswer)
    requires Ok(s) && s.hold.Polling?
    ensures Ok(WaitPath(s, wait, due, now, r)) && WaitPath(s, wait, due, now, r).hold.Idle?
  {
    var u := Continue(s, RecordWait(s.t, s.hold.id, RunOf(s), wait));
    WaitsKeeps(p, s, wait);
    if u.hold.Polling? && Has(u.t, u.hold.id) {
      AfterResumeKeeps(p, u, wait.generation, due, now, r);
    } else {
      LetGoKeeps(p, u);
    }
  }

  lemma ChargeKeeps(p: Policy, s: Sys)
    requires Ok(s) && s.hold.Polling?
    ensures Ok(Continue(s, Charge(s.t, s.hold.id)))
  {
    StepOk(p, s, ChargeRun, Continue(s, Charge(s.t, s.hold.id)));
  }

  lemma CompleteKeeps(p: Policy, s: Sys, d: Delivery, now: Time)
    requires Ok(s) && s.hold.Polling?
    ensures Ok(Answer(s, CompleteDelivery(s.t, s.hold.id, d, p, now)))
  {
    StepOk(p, s, Complete(d, now), Answer(s, CompleteDelivery(s.t, s.hold.id, d, p, now)));
  }

  lemma DeliverKeeps(p: Policy, s: Sys, d: Delivery, now: Time)
    requires Ok(s) && s.hold.Polling?
    ensures Ok(Deliver(p, s, d, now)) && Deliver(p, s, d, now).hold.Idle?
  {
    ChargeKeeps(p, s);
    var u := Continue(s, Charge(s.t, s.hold.id));
    if u.hold.Polling? {
      CompleteKeeps(p, u, d, now);
    }
  }

  lemma EndPathKeeps(p: Policy, s: Sys, a: Ending, due: Time, now: Time)
    requires Ok(s) && s.hold.Polling?
    ensures Ok(EndPath(p, s, a, due, now)) && EndPath(p, s, a, due, now).hold.Idle?
  {
    match a
    case NoTerminal(transient) => DeferKeeps(p, s, true, due, now); GiveKeeps(p, s, now);
    case Unsuccessful(cause, started) => StepOk(p, s, Finish(cause, started, now), EndPath(p, s, a, due, now));
    case Repaired(d) => DeliverKeeps(p, s, d, now);
    case _ => GiveKeeps(p, s, now);
  }

  lemma AcknowledgeKeeps(p: Policy, s: Sys, now: Time)
    requires Ok(s) && s.hold.Polling?
    ensures Ok(Acknowledge(s, now)) && (Acknowledge(s, now).hold == s.hold || Acknowledge(s, now).hold.Idle?)
  {
    if Unacknowledged(s) {
      var a := At(s.t, s.hold.id);
      ResumeKeeps(p, s, a.resumeKey.value, a.WaitGeneration(), now + STATUS_POLL_INTERVAL, now);
    }
  }

  lemma ProgressKeeps(p: Policy, s: Sys, a: Progress, due: Time, now: Time)
    requires Ok(s) && s.hold.Polling?
    ensures Ok(ProgressPath(p, s, a, due, now)) && ProgressPath(p, s, a, due, now).hold.Idle?
  {
    match a
    case UnknownStatus => GiveKeeps(p, s, now);
    case StillGoing => DeferKeeps(p, s, false, now + STATUS_POLL_INTERVAL, now);
    case Ended(ending) => EndPathKeeps(p, s, ending, due, now);
  }

  /** Whatever the broker answers, following a repair keeps the invariant of CI repair and lets go of the claim. */
  lemma FollowKeeps(p: Policy, s: Sys, a: StatusAnswer, due: Time, now: Time)
    requires Ok(s) && s.hold.Polling?
    ensures Ok(Follow(p, s, a, due, now)) && Follow(p, s, a, due, now).hold.Idle?
  {
    match a
    case NoStatus(transient) => DeferKeeps(p, s, true, due, now); GiveKeeps(p, s, now);
    case WrongRun => GiveKeeps(p, s, now);
    case BadWait => StepOk(p, s, Release, s.(hold := Idle));
    case WaitsFor(wait, r) => WaitPathKeeps(p, s, wait, due, now, r);
    case NotWaiting(progress) =>
      AcknowledgeKeeps(p, s, now);
      if Acknowledge(s, now).hold.Polling? {
        ProgressKeeps(p, Acknowledge(s, now), progress, due, now);
      }
  }

  /**
   A delivery with exact provenance is never refused: the attempt ends charged and delivered, and the task waits for CI
   again.
   */
  lemma DeliveryGoesThrough(p: Policy, s: Sys, d: Delivery, now: Time)
    requires Ok(s) && s.hold.Polling? && d.Exact()
    ensures
      var u := Deliver(p, s, d, now);
      var id := s.hold.id;
      && Has(u.t, id) && At(u.t, id).state == CandidateDelivered && At(u.t, id).charged
      && At(u.t, id).delivery == Some(d)
      && id.job in u.t.tasks && u.t.tasks[id.job].state == WaitingCi && u.t.tasks[id.job].head == d.deliveredHead
  {
    var id := s.hold.id;
    assert id.job in s.t.attempts.Keys && TaskOk(s.t, id.job);
  }

  // ---------- the code ----------

  class Worker {
    const store: CiStore.Store

    constructor (store: CiStore.Store)
      ensures this.store == store
    {
      this.store := store;
    }

    function S(id: AttemptId): Sys
      reads this, store
    {
      Sys(store.T(), Polling(id))
    }

    method DeferOrGiveUp(id: AttemptId, transient: bool, operations: nat, now: Time)
      modifies store
      ensures store.T() == DeferOrFail(store.policy, old(S(id)), transient, RetryAt(operations, now), now).t
    {
      var ok;
      if transient {
        ok := store.RescheduleRepairStatus(id, true, now + PreOutboxRetryDelay(operations + 1), now);
      } else {
        ok := store.FinishRepairFailure(id, InfrastructureClass, false, now);
      }
    }

    method HandleWait(id: AttemptId, wait: ExternalWait, r: ResumeAnswer, operations: nat, now: Time)
      modifies store
      ensures store.T() == WaitPath(old(S(id)), wait, RetryAt(operations, now), now, r).t
    {
      if !Has(store.T(), id) {
        return;
      }
      var ok := store.RecordExternalWait(id, At(store.T(), id).run, wait);
      if !ok {
        return;
      }
      match r
      case Unavailable => ok := store.RescheduleRepairStatus(id, true, now + EXTERNAL_RECOVERY_WAKE, now);
      case Refused => ok := store.RescheduleRepairStatus(id, true, now + PreOutboxRetryDelay(operations + 1), now);
      case Garbled =>
      case Resumption =>
        var key := KeyOf(id, At(store.T(), id), wait.generation);
        ok := store.MarkExternalResumed(id, key, wait.generation, now + STATUS_POLL_INTERVAL, now);
    }

    method FinishRepair(id: AttemptId, a: Ending, operations: nat, now: Time)
      modifies store
      ensures store.T() == EndPath(store.policy, old(S(id)), a, RetryAt(operations, now), now).t
    {
      var ok;
      match a
      case NoTerminal(transient) => DeferOrGiveUp(id, transient, operations, now);
      case BadTerminal => ok := store.FinishRepairFailure(id, InfrastructureClass, false, now);
      case Unsuccessful(cause, started) => ok := store.FinishRepairFailure(id, cause, started, now);
      case Unproven => ok := store.FinishRepairFailure(id, InfrastructureClass, false, now);
      case Repaired(d) =>
        ok := store.ChargeAttempt(id);
        if ok {
          ok := store.CompleteRepairDelivery(id, d, now);
        }
    }

    method Proceed(id: AttemptId, a: Progress, operations: nat, now: Time)
      modifies store
      ensures store.T() == ProgressPath(store.policy, old(S(id)), a, RetryAt(operations, now), now).t
    {
      var ok;
      match a
      case UnknownStatus => ok := store.FinishRepairFailure(id, InfrastructureClass, false, now);
      case StillGoing => ok := store.RescheduleRepairStatus(id, false, now + STATUS_POLL_INTERVAL, now);
      case Ended(ending) => FinishRepair(id, ending, operations, now);
    }

    /** Acknowledges a wait that is over, if nothing has yet, and goes on with the run. */
    method LeaveWait(id: AttemptId, a: Progress, operations: nat, now: Time)
      modifies store
      ensures store.T() == Follow(store.policy, old(S(id)), NotWaiting(a), RetryAt(operations, now), now).t
    {
      if Has(store.T(), id) {
        var row := At(store.T(), id);
        if row.resumeKey.Some? && row.WaitGeneration() > row.resumedGeneration {
          var ok := store.MarkExternalResumed(id, row.resumeKey.value, row.WaitGeneration(),
              now + STATUS_POLL_INTERVAL, now);
          if !ok {
            return;
          }
        }
      }
      Proceed(id, a, operations, now);
    }

    /**
     What the worker does with the answer to a status request for a repair run. Whatever is retried is due after the
     back-off of one more than the operations counted on the claimed row.
     */
    method RunRepairStatus(id: AttemptId, a: StatusAnswer, now: Time)
      modifies store
      ensures store.T() == Follow(store.policy, old(S(id)), a, RetryAt(old(OperationsOf(store.T(), id)), now), now).t
    {
      var operations := OperationsOf(store.T(), id);
      match a
      case NoStatus(transient) => DeferOrGiveUp(id, transient, operations, now);
      case WrongRun => DeferOrGiveUp(id, false, operations, now);
      case BadWait =>
      case WaitsFor(wait, r) => HandleWait(id, wait, r, operations, now);
      case NotWaiting(progress) => LeaveWait(id, progress, operations, now);
    }
  }
}
