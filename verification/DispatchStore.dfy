/**
 The dispatcher's store: each method is one transaction over tables it updates in place, beside the CI repair store it
 shares jobs with.
 */
module DispatchStore {
  import opened Basics
  import opened Delays
  import opened ExternalWaits
  import opened Jobs
  import opened DispatchTables
  import CiStore

  predicate Committed(before: Desk, after: Desk, outcome: Option<Desk>, ok: bool) {
    ok == outcome.Some? && after == if outcome.Some? then outcome.value else before
  }

  datatype Work = NoWork | LaunchWork(job: JobId) | StatusWork(job: JobId)

  class Store {
    const ci: CiStore.Store
    var terminals: map<JobId, TerminalResult>
    var outbox: map<JobId, Notice>
    var waits: map<JobId, WaitRow>
    var deliveries: map<string, Delivered>
    var checkpoint: nat
    var lastJob: nat

    function D(): Desk
      reads this, ci
    {
      Desk(ci.jobs, terminals, outbox, waits, deliveries, checkpoint, lastJob)
    }

    constructor (ci: CiStore.Store)
      ensures this.ci == ci && D() == Desk(ci.jobs, map[], map[], map[], map[], 0, 0)
    {
      this.ci := ci;
      terminals, outbox, waits, deliveries, checkpoint, lastJob := map[], map[], map[], map[], 0, 0;
    }

    method SetJob(j: JobId, job: Job)
      modifies ci`jobs
      ensures D() == old(Put(D(), j, job))
    {
      ci.jobs := ci.jobs[j := job];
    }

    // ---------- deliveries ----------

    method RecordDelivery(m: Message, now: Time) returns (ok: bool)
      modifies this, ci`jobs
      ensures Committed(old(D()), D(), old(Record(D(), m, now)), ok)
    {
      if m.sequence == 0 || (m.candidate.Some? && (m.delivery == "" || m.candidate.value.delivery != m.delivery)) {
        return false;
      }
      if m.delivery != "" {
        if m.delivery in deliveries {
          checkpoint := Max(checkpoint, m.sequence);
          return true;
        }
        var key := if m.candidate.Some? then Some(m.candidate.value.Key()) else None;
        deliveries := deliveries[m.delivery := Delivered(m.outcome, key, m.sequence, now)];
      }
      if m.candidate.Some? && !HasKey(D(), m.candidate.value.Key()) {
        lastJob := lastJob + 1;
        ci.jobs := ci.jobs[lastJob := NewJob(m.candidate.value, now)];
      }
      checkpoint := Max(checkpoint, m.sequence);
      return true;
    }

    // ---------- launching ----------

    /** The oldest claimable job blocks every later one, even while it is not due. */
    method ClaimDue(now: Time) returns (w: Work)
      modifies ci`jobs
      ensures w.NoWork? ==> D() == old(D()) && forall j | IsFirst(old(ClaimableJobs(D())), old(JobRank(D())), j) ::
              old(D()).jobs[j].due > now
      ensures !w.NoWork? ==>
                && IsFirst(old(ClaimableJobs(D())), old(JobRank(D())), w.job) && old(D()).jobs[w.job].due <= now
                && D() == TakeJob(old(D()), w.job, now) && (w.LaunchWork? <==> Unlaunched(old(D()).jobs[w.job].status))
    {
      var rows := ClaimableJobs(D());
      if rows == {} {
        return NoWork;
      }
      var j := QueryFirst(rows, JobRank(D()));
      var job := ci.jobs[j];
      if job.due > now {
        OldestIsUnique(D(), j);
        return NoWork;
      }
      if !Unlaunched(job.status) {
        return StatusWork(j);
      }
      SetJob(j, job.(attempts := job.attempts + 1, first := if job.first.Some? then job.first else Some(now)));
      return LaunchWork(j);
    }

    method SetLaunched(j: JobId, run: string, due: Time) returns (ok: bool)
      modifies ci`jobs
      ensures Committed(old(D()), D(), old(MarkLaunched(D(), j, run, due)), ok)
    {
      if run == "" || j !in ci.jobs || !Unlaunched(ci.jobs[j].status) {
        return false;
      }
      SetJob(j, ci.jobs[j].(status := Launched, run := run, due := due, lastError := ""));
      return true;
    }

    method SetLaunchFailure(j: JobId, retry: bool, due: Time, message: string) returns (ok: bool)
      modifies ci`jobs
      ensures Committed(old(D()), D(), old(MarkLaunchFailure(D(), j, retry, due, message)), ok)
    {
      if j !in ci.jobs || !Unlaunched(ci.jobs[j].status) {
        return false;
      }
      var status := if retry then LaunchRetry else Failed;
      SetJob(j, ci.jobs[j].(status := status, due := due, lastError := message));
      return true;
    }

    // ---------- following a run ----------

    method SetStatus(j: JobId, status: Status, due: Time, message: string) returns (ok: bool)
      modifies ci`jobs
      ensures Committed(old(D()), D(), old(MarkStatus(D(), j, status, due, message)), ok)
    {
      if j !in ci.jobs || !(ci.jobs[j].status.Launched? || ci.jobs[j].status.ReportPending?) {
        return false;
      }
      var job := ci.jobs[j].(status := status, due := due, lastError := message);
      SetJob(j, if message == "" then job.(preOutbox := 0) else job);
      return true;
    }

    method CountPreOutboxFailure(j: JobId, status: Status, due: Time, message: string) returns (ok: bool, attempts: nat)
      modifies ci`jobs
      ensures Committed(old(D()), D(), old(MarkPreOutboxFailure(D(), j, status, due, message)), ok)
      ensures ok ==> j in D().jobs && attempts == D().jobs[j].preOutbox
    {
      if !(status.Launched? || status.ReportPending?) || j !in ci.jobs || j in terminals {
        return false, 0;
      }
      var job := ci.jobs[j];
      if !(job.status.Launched? || job.status.ReportPending?) {
        return false, 0;
      }
      SetJob(j, job.(status := status, preOutbox := job.preOutbox + 1, due := due, lastError := message));
      return true, job.preOutbox + 1;
    }

    method DeferReportPending(j: JobId, due: Time, message: string) returns (ok: bool)
      modifies ci`jobs
      ensures Committed(old(D()), D(), old(DeferReport(D(), j, due, message)), ok)
    {
      if j !in ci.jobs || !ci.jobs[j].status.ReportPending? || j in terminals {
        return false;
      }
      SetJob(j, ci.jobs[j].(due := due, lastError := message));
      return true;
    }

    // ---------- terminal results ----------

    /**
     Inserts the result and the notice unless they exist, compares what is stored, and rolls back on any difference.
     */
    method QueueTerminalResult(j: JobId, r: TerminalResult, now: Time) returns (ok: bool)
      modifies this`terminals, this`outbox, ci`jobs
      ensures Committed(old(D()), D(), old(QueueResult(D(), j, r, now)), ok)
    {
      if j !in ci.jobs || !ValidResult(ci.jobs[j], r) || r.payload.Oversized? {
        return false;
      }
      var job := ci.jobs[j];
      var notice := NewNotice(D(), job, r, now);
      var wasTerminals, wasOutbox := terminals, outbox;
      if j !in terminals {
        terminals := terminals[j := r];
      }
      if terminals[j] != r {
        return false;
      }
      if j !in outbox {
        outbox := outbox[j := notice];
      }
      if outbox[j].Content() != notice.Content() || !Queueable(job.status) {
        terminals, outbox := wasTerminals, wasOutbox;
        return false;
      }
      assert terminals == wasTerminals[j := r] && outbox == wasOutbox[j := outbox[j]];
      SetJob(j, job.(status := ReportPending, due := now, lastError := "", preOutbox := 0));
      return true;
    }

    method ClaimReportDue(now: Time) returns (claimed: Option<JobId>)
      ensures claimed.None? <==> DueNotices(D(), now) == {}
      ensures claimed.Some? ==> IsFirst(DueNotices(D(), now), NoticeRank(D()), claimed.value)
    {
      var due := DueNotices(D(), now);
      if due == {} {
        return None;
      }
      var j := QueryFirst(due, NoticeRank(D()));
      return Some(j);
    }

    method SetReportDelivered(j: JobId, comment: int) returns (ok: bool)
      modifies this`outbox, ci`jobs
      ensures Committed(old(D()), D(), old(MarkReportDelivered(D(), j, comment)), ok)
    {
      if !Reportable(D(), j) || j !in terminals {
        return false;
      }
      var n := outbox[j];
      outbox := outbox[j := n.(state := Sent, attempts := n.attempts + 1, comment := Some(comment), lastError := "")];
      SetJob(j, ci.jobs[j].(status := FinalStatus(terminals[j].outcome), lastError := ""));
      return true;
    }

    method SetReportFailure(j: JobId, attempts: nat, retry: bool, message: string, now: Time) returns (ok: bool)
      modifies this`outbox, ci`jobs
      ensures Committed(old(D()), D(), old(MarkReportFailure(D(), j, attempts, retry, message, now)), ok)
    {
      var state, status, due := Blocked, ReportBlocked, now;
      if retry {
        state, status, due := Retry, ReportRetry, now + ReportRetryDelay(attempts + 1);
      }
      if !Reportable(D(), j) {
        return false;
      }
      outbox := outbox[j := outbox[j].(state := state, attempts := outbox[j].attempts + 1, due := due,
          lastError := message)];
      SetJob(j, ci.jobs[j].(status := status, due := due, lastError := message));
      return true;
    }

    method ReconcileBlockedReport(j: JobId, run: string, key: ReportKey, now: Time) returns (ok: bool)
      modifies this`outbox, ci`jobs
      ensures Committed(old(D()), D(), old(Requeue(D(), j, run, key, now)), ok)
    {
      if !Evidence(D(), j, run, key) {
        return false;
      }
      outbox := outbox[j := outbox[j].(state := Retry, due := now)];
      SetJob(j, ci.jobs[j].(status := ReportRetry, due := now));
      return true;
    }

    // ---------- external waits ----------

    method RecordExternalWait(j: JobId, run: string, wait: ExternalWait, wake: Time) returns (ok: bool)
      modifies this`waits, ci`jobs
      ensures Committed(old(D()), D(), old(RecordWait(D(), j, run, wait, wake)), ok)
    {
      if run == "" || !wait.Valid() || j !in ci.jobs {
        return false;
      }
      var row := NewWait(j, run, wait);
      if j !in waits {
        waits := waits[j := row];
      } else if wait.generation < waits[j].wait.generation {
        return false;
      } else if wait.generation == waits[j].wait.generation {
        if waits[j].(state := Waiting) != row {
          return false;
        }
      } else if waits[j].run == run {
        waits := waits[j := row];
      }
      if ci.jobs[j].run == run {
        SetJob(j, ci.jobs[j].(status := ExternalWaiting, due := wake));
      }
      return true;
    }

    method RecordExternalWake(repository: string, issue: int, now: Time) returns (woke: bool)
      modifies this`waits, ci`jobs
      ensures D() == old(RecordWake(D(), repository, issue, now))
      ensures woke <==> repository != "" && issue >= 1 && exists j | j in old(waits) ::
              old(Woken(D(), j, repository, issue))
    {
      if repository == "" || issue < 1 {
        return false;
      }
      if !exists j | j in waits :: Woken(D(), j, repository, issue) {
        return false;
      }
      waits := map j | j in waits ::
          if Woken(D(), j, repository, issue) then waits[j].(state := ResumeReady) else waits[j];
      ci.jobs := map j | j in ci.jobs ::
          if Concerned(D(), j, repository, issue) then ci.jobs[j].(due := now) else ci.jobs[j];
      return true;
    }

    method DeferExternalResume(j: JobId, run: string, due: Time, message: string) returns (ok: bool)
      modifies ci`jobs
      ensures Committed(old(D()), D(), old(DeferResume(D(), j, run, due, message)), ok)
    {
      if j !in ci.jobs || ci.jobs[j].run != run || !ci.jobs[j].status.ExternalWaiting? {
        return false;
      }
      var job := ci.jobs[j];
      SetJob(j, job.(due := due, lastError := message, preOutbox := job.preOutbox + 1));
      return true;
    }

    method SetExternalResumed(j: JobId, w: WaitRow, now: Time) returns (ok: bool)
      modifies this`waits, ci`jobs
      ensures Committed(old(D()), D(), old(MarkResumed(D(), j, w, now)), ok)
    {
      if j !in waits || waits[j].run != w.run || waits[j].wait.generation != w.wait.generation || waits[j].key != w.key
         || !waits[j].state.ResumeReady? {
        return false;
      }
      if j !in ci.jobs || ci.jobs[j].run != w.run || !ci.jobs[j].status.ExternalWaiting? {
        return false;
      }
      waits := waits[j := waits[j].(state := Resumed)];
      SetJob(j, Relaunched(ci.jobs[j], now + STATUS_POLL_INTERVAL));
      return true;
    }

    method ReconcileExternalResume(j: JobId, run: string, now: Time) returns (ok: bool)
      modifies this`waits, ci`jobs
      ensures Committed(old(D()), D(), old(ReconcileResume(D(), j, run, now)), ok)
    {
      if j !in waits || waits[j].run != run || !waits[j].state.ResumeReady? {
        return false;
      }
      if j !in ci.jobs || ci.jobs[j].run != run || !ci.jobs[j].status.ExternalWaiting? {
        return false;
      }
      waits := waits[j := waits[j].(state := Resumed)];
      SetJob(j, Relaunched(ci.jobs[j], now));
      return true;
    }
  }

  /** Creation order is total, so the oldest claimable job is unique. */
  lemma OldestIsUnique(d: Desk, j: JobId)
    requires IsFirst(ClaimableJobs(d), JobRank(d), j)
    ensures forall i | IsFirst(ClaimableJobs(d), JobRank(d), i) :: i == j
  {
    forall i | IsFirst(ClaimableJobs(d), JobRank(d), i)
      ensures i == j
    {
      assert JobRank(d)(i).Leq(JobRank(d)(j)) && JobRank(d)(j).Leq(JobRank(d)(i));
    }
  }
}
