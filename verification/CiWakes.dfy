/** Webhooks for waiting tasks: how long a recorded wake lasts, and the one way in which it gets lost. */
module CiWakes {
  import opened Basics
  import opened Jobs
  import opened CiTables
  import opened CiProtocol
  import opened CiTheorems

  // ---------- webhooks are not lost ----------

  /** A reconciliation of `r` is still to come. */
  predicate Armed(t: Tables, r: RecId) {
    && r in t.recs && r.job in t.tasks && t.tasks[r.job].state == WaitingCi
    && (t.recs[r].state == Queued || (t.recs[r].state == InFlight && t.recs[r].dirty))
  }

  lemma WebhookArms(t: Tables, e: CiEvent, now: Time, j: JobId)
    requires RecordEvent(t, e, now).Some? && !e.kind.OtherEvent? && !Known(t, e)
    requires Concerns(t, e, j) && t.tasks[j].state == WaitingCi
    ensures Armed(RecordEvent(t, e, now).value, RecId(j, e.head))
  {
    assert Requeues(t, e, RecId(j, e.head));
  }

  predicate Waiting(t: Tables, j: JobId) {
    j in t.tasks && t.tasks[j].state == WaitingCi
  }

  lemma EventKeepsArmed(t: Tables, e: CiEvent, now: Time, r: RecId)
    requires Armed(t, r)
    ensures Armed(Commit(t, RecordEvent(t, e, now)), r)
  {
    assert r in t.recs.Keys;
  }

  lemma DeadlineKeepsArmed(t: Tables, now: Time, r: RecId)
    requires Armed(t, r)
    ensures Armed(WakeDeadlines(t, now), r)
  {
    assert r in t.recs.Keys;
  }

  lemma ObserverKeepsArmed(p: Policy, s: Sys, op: Op, r: RecId)
    requires Ok(s) && Enabled(s, op) && Armed(s.t, r) && (op.Apply? || op.FailObserve?)
    ensures
      var u := Step(p, s, op).t;
      (Armed(u, r) || !Waiting(u, r.job)) <==> !IsStale(s, op, r)
  {
    if op.Apply? {
      if s.hold.rec.job != r.job {
        ApplyFootprint(p, s.t, s.hold.rec, op.observation, op.now, r.job);
      }
      ApplyKeepsRecs(p, s.t, s.hold.rec, op.observation, op.now, r);
    }
  }

  lemma ApplyKeepsRecs(p: Policy, t: Tables, held: RecId, o: Observation, now: Time, r: RecId)
    requires Armed(t, r) && Waiting(t, held.job) && (held == r ==> t.recs[r].dirty)
    ensures
      var u := Commit(t, ApplyObservation(t, held, o, p, now));
      r in u.recs && (u.recs[r].state == Queued || u.recs[r] == t.recs[r] || (held == r && !Waiting(u, r.job)))
  {}

  lemma WorkerKeepsArmed(p: Policy, s: Sys, op: Op, r: RecId)
    requires Ok(s) && Enabled(s, op) && Armed(s.t, r) && Answers(op) && !op.Apply? && !op.FailObserve?
    ensures Armed(Step(p, s, op).t, r) || !Waiting(Step(p, s, op).t, r.job)
  {
    assert TaskOk(s.t, r.job);
    if Claimed(s.hold) != r.job {
      Footprint(p, s, op, r.job);
    }
    AnswersKeepRecs(p, s, op);
  }

  lemma AnswersKeepRecs(p: Policy, s: Sys, op: Op)
    requires Enabled(s, op) && Answers(op) && !op.Apply? && !op.FailObserve?
    ensures Step(p, s, op).t.recs == s.t.recs
  {}

  /**
   A wake recorded for a waiting task lasts until a reconciliation starts after it, or the task leaves waiting;
   it gets lost exactly when the observation in flight is answered with a stale pull head.
   */
  lemma WakeIsLostOnlyOnStaleHead(p: Policy, s: Sys, op: Op, r: RecId)
    requires Ok(s) && Enabled(s, op) && Armed(s.t, r)
    ensures
      var u := Step(p, s, op).t;
      (Armed(u, r) || !Waiting(u, r.job) || (op.ClaimRec? && op.rec == r))
      <==> !IsStale(s, op, r)
  {
    if op.Apply? || op.FailObserve? {
      ObserverKeepsArmed(p, s, op, r);
    } else if Answers(op) {
      WorkerKeepsArmed(p, s, op, r);
    } else if op.Webhook? {
      EventKeepsArmed(s.t, op.event, op.now, r);
    } else if op.ClaimRec? {
      DeadlineKeepsArmed(s.t, op.now, r);
    } else {
      OtherKeepsArmed(p, s, op, r);
    }
  }

  lemma OtherKeepsArmed(p: Policy, s: Sys, op: Op, r: RecId)
    requires Enabled(s, op) && Armed(s.t, r) && !Answers(op) && !op.Webhook? && !op.ClaimRec?
    ensures Armed(Step(p, s, op).t, r)
  {}

  // ---------- whole runs ----------

  /** What becomes of a wake over a run. */
  datatype Fate = StillArmed | Reconciled | LeftWaiting | Lost

  predicate IsStale(s: Sys, op: Op, r: RecId) {
    op.FailObserve? && op.failure.StaleHead? && s.hold.Observing? && s.hold.rec == r
  }

  predicate Claims(op: Op, r: RecId) {
    op.ClaimRec? && op.rec == r
  }

  /** A wake for `r` ends when `r` is claimed or its task stops waiting; anything else that disarms it loses it. */
  ghost function FateOf(s: Sys, run: seq<Turn>, r: RecId): Fate
    requires Legal(s, run)
    decreases |run|
  {
    if run == [] then StillArmed
    else
      var u := Step(run[0].policy, s, run[0].op);
      if Claims(run[0].op, r) then Reconciled
      else if !Waiting(u.t, r.job) then LeftWaiting
      else if !Armed(u.t, r) then Lost
      else FateOf(u, run[1..], r)
  }

  /**
   While `r` is neither claimed nor done waiting, the observation of it in flight is answered with a stale pull head.
   */
  ghost predicate StaleWhileArmed(s: Sys, run: seq<Turn>, r: RecId)
    requires Legal(s, run)
    decreases |run|
  {
    && run != []
    && (|| IsStale(s, run[0].op, r)
        || (&& !Claims(run[0].op, r)
            && Waiting(Step(run[0].policy, s, run[0].op).t, r.job)
            && StaleWhileArmed(Step(run[0].policy, s, run[0].op), run[1..], r)))
  }

  /** Over any run a wake is lost if and only if such an answer comes. */
  lemma {:induction false} WakeIsLostIffStale(s: Sys, run: seq<Turn>, r: RecId)
    requires Ok(s) && Legal(s, run) && Armed(s.t, r)
    ensures FateOf(s, run, r) == Lost <==> StaleWhileArmed(s, run, r)
    decreases |run|
  {
    if run == [] {
    } else {
      WakeIsLostOnlyOnStaleHead(run[0].policy, s, run[0].op, r);
      if IsStale(s, run[0].op, r) {
        StaleKeepsWaiting(run[0].policy, s, run[0].op, r);
      } else if !Claims(run[0].op, r) && Waiting(Step(run[0].policy, s, run[0].op).t, r.job) {
        StepKeeps(run[0].policy, s, run[0].op);
        WakeIsLostIffStale(Step(run[0].policy, s, run[0].op), run[1..], r);
      }
    }
  }

  lemma StaleKeepsWaiting(p: Policy, s: Sys, op: Op, r: RecId)
    requires Enabled(s, op) && IsStale(s, op, r) && Waiting(s.t, r.job)
    ensures Waiting(Step(p, s, op).t, r.job)
  {}

  /** So a run in which no observation is answered with a stale pull head loses no wake. */
  lemma NoStaleNoLoss(s: Sys, run: seq<Turn>, r: RecId)
    requires Ok(s) && Legal(s, run) && Armed(s.t, r)
    requires forall i | 0 <= i < |run| :: !(run[i].op.FailObserve? && run[i].op.failure.StaleHead?)
    ensures FateOf(s, run, r) != Lost
  {
    WakeIsLostIffStale(s, run, r);
    NeverStale(s, run, r);
  }

  lemma {:induction false} NeverStale(s: Sys, run: seq<Turn>, r: RecId)
    requires Legal(s, run) && forall i | 0 <= i < |run| :: !(run[i].op.FailObserve? && run[i].op.failure.StaleHead?)
    ensures !StaleWhileArmed(s, run, r)
    decreases |run|
  {
    if run == [] {
    } else {
      NeverStale(Step(run[0].policy, s, run[0].op), run[1..], r);
    }
  }

  // ---------- when the task is looked at again ----------

  /** A reconciliation of the same job at another head is due. */
  predicate OtherDue(t: Tables, r: RecId, now: Time) {
    exists x | x in t.recs :: x != r && x.job == r.job && RecDue(t, x, now)
  }

  /**
   After a stale-head answer the task is next offered exactly when its new deadline comes, unless a reconciliation of
   another of its heads falls due before.
   */
  lemma OfferedAtNewDeadline(p: Policy, s: Sys, op: Op, now: Time)
    requires Ok(s) && Enabled(s, op) && s.hold.Observing? && IsStale(s, op, s.hold.rec)
    ensures
      var u := Step(p, s, op).t;
      var r := s.hold.rec;
      && r.job in u.tasks && u.tasks[r.job].deadline == op.now + p.wake
      && (Offers(u, r.job, ToReconcile, now) <==> now >= op.now + p.wake || OtherDue(u, r, now))
  {
    var r := s.hold.rec;
    var u := Step(p, s, op).t;
    StaleRow(p, s, op);
    if now >= op.now + p.wake {
      StepKeeps(p, s, op);
      ClaimOffered(u, r.job, now);
    } else {
      QuietUntilDeadline(u, r, now);
    }
  }

  lemma StaleRow(p: Policy, s: Sys, op: Op)
    requires HoldOk(s) && Enabled(s, op) && s.hold.Observing? && IsStale(s, op, s.hold.rec)
    ensures
      var u := Step(p, s, op).t;
      var r := s.hold.rec;
      && r in u.recs && u.recs[r].state == Done && Waiting(u, r.job)
      && u.tasks[r.job].deadline == op.now + p.wake
  {}

  lemma QuietUntilDeadline(u: Tables, r: RecId, now: Time)
    requires r in u.recs && u.recs[r].state == Done && Waiting(u, r.job)
    requires now < u.tasks[r.job].deadline
    ensures Offers(u, r.job, ToReconcile, now) <==> OtherDue(u, r, now)
  {
    var v := WakeDeadlines(u, now);
    forall x: RecId | x.job == r.job
      ensures x in DueRecs(v, now) <==> x != r && x in u.recs && RecDue(u, x, now)
    {
      NotWoken(u, x, now);
    }
    if OtherDue(u, r, now) {
      var x :| x in u.recs && x != r && x.job == r.job && RecDue(u, x, now);
      assert x in DueRecs(v, now) && x.job == r.job;
    }
  }

  lemma NotWoken(u: Tables, x: RecId, now: Time)
    requires x.job in u.tasks && now < u.tasks[x.job].deadline
    ensures
      var v := WakeDeadlines(u, now);
      && v.tasks == u.tasks && (x in v.recs <==> x in u.recs) && (x in u.recs ==> v.recs[x] == u.recs[x])
  {
    assert !DeadlinePassed(u, x, now);
  }
}
