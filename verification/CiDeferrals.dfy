/** How a transient or stale answer takes one row, and only that row, out of what CI repair has due. */
module CiDeferrals {
  import opened Basics
  import opened Delays
  import opened Jobs
  import opened CiTables
  import P = CiProtocol

  // ---------- reconciliations ----------

  /** A reconciliation claimed at `now` and answered with a stale pull head. */
  function StaleRec(t: Tables, r: RecId, p: Policy, now: Time): Tables
    requires r in WakeDeadlines(t, now).recs
  {
    var v := TakeRec(WakeDeadlines(t, now), r, now);
    P.Commit(v, FailRec(v, r, v.recs[r].operations, StaleHead, p, now))
  }

  lemma StaleRecShape(t: Tables, r: RecId, p: Policy, now: Time)
    requires r in DueRecs(WakeDeadlines(t, now), now)
    ensures
      var w := WakeDeadlines(t, now);
      var u := StaleRec(t, r, p, now);
      && r in w.recs && r.job in t.tasks && t.tasks[r.job].state == WaitingCi
      && r in u.recs && u.recs == w.recs[r := u.recs[r]] && u.recs[r].state == Done
      && u.tasks == t.tasks[r.job := t.tasks[r.job].(deadline := now + p.wake)]
      && u.escalations == t.escalations && u.attempts == t.attempts && u.jobs.Keys == t.jobs.Keys
      && forall i | i in t.jobs ::
         u.jobs[i] == t.jobs[i] || (t.jobs[i].status.CiWaiting? && u.jobs[i].status.CiWaiting?)
  {}

  /** Which reconciliations a claim at `now` would find due. */
  lemma DueAfterWake(t: Tables, x: RecId, now: Time)
    ensures
      x in DueRecs(WakeDeadlines(t, now), now) <==>
      DeadlinePassed(t, x, now) || (x in t.recs && RecDue(t, x, now))
  {}

  lemma StaleRecLeaves(t: Tables, r: RecId, p: Policy, now: Time, x: RecId)
    requires r in DueRecs(WakeDeadlines(t, now), now) && p.wake > 0
    ensures
      var u := StaleRec(t, r, p, now);
      x in DueRecs(WakeDeadlines(u, now), now) <==> x in DueRecs(WakeDeadlines(t, now), now) && x != r
  {
    var u := StaleRec(t, r, p, now);
    StaleRecShape(t, r, p, now);
    DueAfterWake(t, x, now);
    DueAfterWake(u, x, now);
    WokenRow(t, x, now);
  }

  lemma WokenRow(t: Tables, x: RecId, now: Time)
    ensures
      var w := WakeDeadlines(t, now);
      && (DeadlinePassed(t, x, now) ==> x in w.recs && w.recs[x].state != Done && w.recs[x].due <= now)
      && (!DeadlinePassed(t, x, now) ==> (x in w.recs <==> x in t.recs) && (x in t.recs ==> w.recs[x] == t.recs[x]))
  {}

  lemma StaleRecDrains(t: Tables, r: RecId, p: Policy, now: Time)
    requires r in DueRecs(WakeDeadlines(t, now), now) && p.wake > 0
    ensures DueRecs(WakeDeadlines(StaleRec(t, r, p, now), now), now) == DueRecs(WakeDeadlines(t, now), now) - {r}
  {
    forall x
      ensures x in DueRecs(WakeDeadlines(StaleRec(t, r, p, now), now), now)
              <==> x in DueRecs(WakeDeadlines(t, now), now) && x != r
    {
      StaleRecLeaves(t, r, p, now, x);
    }
  }

  // ---------- escalations ----------

  function FailedReport(t: Tables, i: JobId, message: string, now: Time): Tables
    requires i in t.escalations
  {
    P.Commit(t, MarkEscalationFailure(t, i, t.escalations[i].attempts, true, message, now))
  }

  lemma FailedReportDrains(t: Tables, i: JobId, message: string, now: Time)
    requires i in DueEscalations(t, now)
    ensures
      var u := FailedReport(t, i, message, now);
      && DueEscalations(u, now) == DueEscalations(t, now) - {i} && u.jobs.Keys == t.jobs.Keys
      && u.tasks.Keys == t.tasks.Keys && (forall x | x in t.tasks && x != i :: u.tasks[x] == t.tasks[x])
      && (forall x | x in t.jobs && x != i :: u.jobs[x] == t.jobs[x])
  {}

  // ---------- repair launches and statuses ----------

  function PostponedLaunch(t: Tables, id: AttemptId, p: Policy, now: Time): Tables
    requires Has(t, id)
  {
    var v := TakeLaunch(t, id, p);
    P.Commit(v, DeferLaunch(v, id, now + LaunchRetryDelay(At(t, id).operations + 1), now))
  }

  lemma LaunchIsDue(t: Tables, id: AttemptId, now: Time)
    ensures id in DueLaunches(t, now) <==> LaunchDue(t, id, now)
    ensures id in DueStatuses(t, now) <==> StatusDue(t, id, now)
  {}

  lemma PostponedShape(t: Tables, id: AttemptId, p: Policy, now: Time)
    requires LaunchDue(t, id, now)
    ensures
      var u := PostponedLaunch(t, id, p, now);
      && Has(u, id) && u == t.(attempts := Put(t, id, At(u, id))) && At(u, id).due > now && At(u, id).state == Ready
  {
    var v := TakeLaunch(t, id, p);
    PutTwice(t, v, id, At(v, id), At(PostponedLaunch(t, id, p, now), id));
  }

  lemma PutTwice(t: Tables, v: Tables, id: AttemptId, a: Attempt, b: Attempt)
    requires v.attempts == Put(t, id, a)
    ensures Put(v, id, b) == Put(t, id, b)
  {
    assert Book(v, id.job) == Book(t, id.job)[id.number := a];
    assert Book(v, id.job)[id.number := b] == Book(t, id.job)[id.number := b];
  }

  lemma PostponedDrains(t: Tables, id: AttemptId, p: Policy, now: Time)
    requires id in DueLaunches(t, now)
    ensures
      var u := PostponedLaunch(t, id, p, now);
      && DueLaunches(u, now) == DueLaunches(t, now) - {id}
      && u.jobs == t.jobs && u.tasks == t.tasks && u.recs == t.recs && u.escalations == t.escalations
  {
    LaunchIsDue(t, id, now);
    var u := PostponedLaunch(t, id, p, now);
    PostponedShape(t, id, p, now);
    forall x
      ensures x in DueLaunches(u, now) <==> x in DueLaunches(t, now) && x != id
    {
      LaunchIsDue(t, x, now);
      LaunchIsDue(u, x, now);
      if x != id {
        OtherAttempt(t, u, id, x);
      }
    }
  }

  lemma OtherAttempt(t: Tables, u: Tables, id: AttemptId, x: AttemptId)
    requires Has(u, id) && u.attempts == Put(t, id, At(u, id)) && x != id
    ensures (Has(u, x) <==> Has(t, x)) && (Has(t, x) ==> At(u, x) == At(t, x))
  {}

  function DeferredStatus(t: Tables, id: AttemptId, p: Policy, now: Time): Tables
    requires Has(t, id)
  {
    var v := TakeStatus(t, id, p, now);
    P.Commit(v, RescheduleStatus(v, id, true, now + PreOutboxRetryDelay(At(t, id).operations + 1), now))
  }

  lemma DeferredShape(t: Tables, id: AttemptId, p: Policy, now: Time)
    requires StatusDue(t, id, now)
    ensures
      var u := DeferredStatus(t, id, p, now);
      && Has(u, id) && u == t.(attempts := Put(t, id, At(u, id))) && At(u, id).due > now && At(u, id).state == Running
  {
    var v := TakeStatus(t, id, p, now);
    PutTwice(t, v, id, At(v, id), At(DeferredStatus(t, id, p, now), id));
  }

  lemma DeferredDrains(t: Tables, id: AttemptId, p: Policy, now: Time)
    requires id in DueStatuses(t, now)
    ensures
      var u := DeferredStatus(t, id, p, now);
      && DueStatuses(u, now) == DueStatuses(t, now) - {id} && DueLaunches(u, now) == DueLaunches(t, now)
      && u.jobs == t.jobs && u.tasks == t.tasks && u.recs == t.recs && u.escalations == t.escalations
  {
    LaunchIsDue(t, id, now);
    var u := DeferredStatus(t, id, p, now);
    DeferredShape(t, id, p, now);
    forall x
      ensures x in DueStatuses(u, now) <==> x in DueStatuses(t, now) && x != id
      ensures x in DueLaunches(u, now) <==> x in DueLaunches(t, now)
    {
      LaunchIsDue(t, x, now);
      LaunchIsDue(u, x, now);
      if x != id {
        OtherAttempt(t, u, id, x);
      }
    }
  }
}
