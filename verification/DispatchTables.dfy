/**
 The dispatcher's own tables: jobs, recorded deliveries, terminal results, the notification outbox and external waits,
 with the effect of every store transaction on them. `None` means that the transaction fails and rolls back.
 */
module DispatchTables {
  import opened Basics
  import opened Delays
  import opened ExternalWaits
  import opened Jobs

  // ---------- rows ----------

  datatype Delivered = Delivered(outcome: string, key: Option<SemanticKey>, sequence: nat, at: Time)

  const RESULT_VERSION := 1

  datatype Outcome =
    | NoChangeRequired | ReadyForReview | RunFailed | RunTimedOut | RunStopped | RunCancelled | UnknownOutcome

  /** Everything else in a terminal result: rejected by validation, rejected by rendering, or acceptable. */
  datatype Payload = Malformed | Oversized | Text(text: string)

  datatype TerminalResult = TerminalResult(
    version: int, run: string, profile: string, repository: string, outcome: Outcome,
    fromSignalPlane: bool, atLaunch: bool, payload: Payload)

  /** The rendered comment: a function of the job's identity and the result. */
  datatype Body = Body(key: SemanticKey, result: TerminalResult)

  /** The hash of the semantic key and the result version, taken to be injective. */
  datatype ReportKey = ReportKey(key: SemanticKey, version: int)

  datatype NoticeState = Pending | Retry | Blocked | Sent

  /** `row` is the outbox row id, which orders deliveries. */
  datatype Notice = Notice(
    row: nat, version: int, body: Body, key: ReportKey, state: NoticeState, attempts: nat, due: Time,
    lastError: string, comment: Option<int>)
  {
    function Content(): (int, Body, ReportKey) { (version, body, key) }

    predicate Open() { state.Pending? || state.Retry? }
  }

  datatype WaitState = Waiting | ResumeReady | Resumed

  /** The text `repository-run-resume:v1:<job>:<run>:<generation>`. */
  datatype RunResumeKey = RunResumeKey(job: JobId, run: string, generation: int)

  datatype WaitRow = WaitRow(run: string, wait: ExternalWait, key: RunResumeKey, state: WaitState)

  /** Jobs are never deleted, so `lastJob` is the highest row id handed out. */
  datatype Desk = Desk(
    jobs: map<JobId, Job>, terminals: map<JobId, TerminalResult>, outbox: map<JobId, Notice>,
    waits: map<JobId, WaitRow>, deliveries: map<string, Delivered>, checkpoint: nat, lastJob: nat)

  // ---------- recording deliveries ----------

  datatype Candidate = Candidate(route: string, profile: string, repository: string, issue: int, delivery: string) {
    function Key(): SemanticKey { SemanticKey(route, repository, issue) }
  }

  datatype Message = Message(delivery: string, outcome: string, sequence: nat, candidate: Option<Candidate>) {
    predicate Valid() {
      sequence != 0 && (candidate.Some? ==> delivery != "" && candidate.value.delivery == delivery)
    }
  }

  predicate HasKey(d: Desk, key: SemanticKey) {
    exists j | j in d.jobs :: d.jobs[j].key == key
  }

  function NewJob(c: Candidate, now: Time): Job {
    Job(c.Key(), c.profile, c.delivery, "", PendingLaunch, 0, 0, None, now, "", now)
  }

  /** The first candidate for a semantic key creates its job; later ones change nothing. */
  function Enroll(d: Desk, c: Candidate, now: Time): Desk {
    if HasKey(d, c.Key()) then d
    else d.(jobs := d.jobs[d.lastJob + 1 := NewJob(c, now)], lastJob := d.lastJob + 1)
  }

  function Advance(d: Desk, sequence: nat): Desk {
    d.(checkpoint := Max(d.checkpoint, sequence))
  }

  function Record(d: Desk, m: Message, now: Time): Option<Desk> {
    if !m.Valid() then None
    else if m.delivery == "" then Some(Advance(d, m.sequence))
    else if m.delivery in d.deliveries then Some(Advance(d, m.sequence))
    else
      var key := if m.candidate.Some? then Some(m.candidate.value.Key()) else None;
      var noted := d.(deliveries := d.deliveries[m.delivery := Delivered(m.outcome, key, m.sequence, now)]);
      Some(Advance(if m.candidate.Some? then Enroll(noted, m.candidate.value, now) else noted, m.sequence))
  }

  // ---------- claiming and launching ----------

  predicate Unlaunched(s: Status) { s.PendingLaunch? || s.LaunchRetry? }

  predicate Claimable(d: Desk, j: JobId) {
    && j in d.jobs
    && var s := d.jobs[j].status;
    Unlaunched(s) || s.Launched? || s.ExternalWaiting? || (s.ReportPending? && j !in d.terminals)
  }

  function ClaimableJobs(d: Desk): set<JobId> {
    set j | j in d.jobs && Claimable(d, j)
  }

  /** Creation order. */
  function JobRank(d: Desk): JobId -> Rank {
    (j: JobId) => if j in d.jobs then Rank(d.jobs[j].created, j, 0) else Rank(0, 0, 0)
  }

  function Put(d: Desk, j: JobId, job: Job): Desk {
    d.(jobs := d.jobs[j := job])
  }

  /** Claiming an unlaunched job counts an attempt; anything else is only read. */
  function TakeJob(d: Desk, j: JobId, now: Time): Desk
    requires j in d.jobs
  {
    var job := d.jobs[j];
    if Unlaunched(job.status)
    then Put(d, j, job.(attempts := job.attempts + 1, first := if job.first.Some? then job.first else Some(now)))
    else d
  }

  function MarkLaunched(d: Desk, j: JobId, run: string, due: Time): Option<Desk> {
    if run == "" || j !in d.jobs || !Unlaunched(d.jobs[j].status) then None
    else Some(Put(d, j, d.jobs[j].(status := Launched, run := run, due := due, lastError := "")))
  }

  function MarkLaunchFailure(d: Desk, j: JobId, retry: bool, due: Time, message: string): Option<Desk> {
    if j !in d.jobs || !Unlaunched(d.jobs[j].status) then None
    else Some(Put(d, j, d.jobs[j].(status := if retry then LaunchRetry else Failed, due := due, lastError := message)))
  }

  /** No launch is called once the window has closed. */
  predicate WindowClosed(job: Job, now: Time) {
    job.first.Some? && now >= job.first.value + LAUNCH_RETRY_WINDOW
  }

  function LaunchDue(job: Job, now: Time): Time {
    var due := now + LaunchRetryDelay(job.attempts);
    if job.first.Some? then Min(due, job.first.value + LAUNCH_RETRY_WINDOW) else due
  }

  // ---------- following a run ----------

  function MarkStatus(d: Desk, j: JobId, status: Status, due: Time, message: string): Option<Desk> {
    if j !in d.jobs || !(d.jobs[j].status.Launched? || d.jobs[j].status.ReportPending?) then None
    else
      var job := d.jobs[j];
      Some(Put(d, j, job.(status := status, due := due, lastError := message,
                          preOutbox := if message == "" then 0 else job.preOutbox)))
  }

  function MarkPreOutboxFailure(d: Desk, j: JobId, status: Status, due: Time, message: string): Option<Desk> {
    if !(status.Launched? || status.ReportPending?) || j !in d.jobs || j in d.terminals then None
    else if !(d.jobs[j].status.Launched? || d.jobs[j].status.ReportPending?) then None
    else
      var job := d.jobs[j];
      Some(Put(d, j, job.(status := status, preOutbox := job.preOutbox + 1, due := due, lastError := message)))
  }

  function DeferReport(d: Desk, j: JobId, due: Time, message: string): Option<Desk> {
    if j !in d.jobs || !d.jobs[j].status.ReportPending? || j in d.terminals then None
    else Some(Put(d, j, d.jobs[j].(due := due, lastError := message)))
  }

  // ---------- terminal results and their notices ----------

  predicate ValidResult(job: Job, r: TerminalResult) {
    && r.version == RESULT_VERSION && r.run == job.run && r.profile == job.profile && r.repository == job.key.repository
    && (r.run == "" ==> r.fromSignalPlane && r.atLaunch && r.outcome.RunFailed?)
    && !r.outcome.UnknownOutcome? && !r.payload.Malformed?
  }

  function LaunchFailure(job: Job, reason: string): TerminalResult {
    TerminalResult(RESULT_VERSION, "", job.profile, job.key.repository, RunFailed, true, true, Text(reason))
  }

  function ProjectionFailure(job: Job, reason: string): TerminalResult {
    TerminalResult(RESULT_VERSION, job.run, job.profile, job.key.repository, RunFailed, true, false, Text(reason))
  }

  function NewNotice(d: Desk, job: Job, r: TerminalResult, now: Time): Notice {
    Notice(|d.outbox|, r.version, Body(job.key, r), ReportKey(job.key, r.version), Pending, 0, now, "", None)
  }

  /** The statuses from which a terminal result may be queued. */
  predicate Queueable(s: Status) {
    s.Launched? || s.ReportPending? || s.ReportRetry? || s.Failed? || Unlaunched(s)
  }

  /** Stores the result and its notice, or checks that a replay repeats what is stored. */
  function QueueResult(d: Desk, j: JobId, r: TerminalResult, now: Time): Option<Desk> {
    if j !in d.jobs || !ValidResult(d.jobs[j], r) || r.payload.Oversized? then None
    else
      var job := d.jobs[j];
      var notice := if j in d.outbox then d.outbox[j] else NewNotice(d, job, r, now);
      if (j in d.terminals && d.terminals[j] != r) || notice.Content() != NewNotice(d, job, r, now).Content() then None
      else if !Queueable(job.status) then None
      else
        Some(d.(terminals := d.terminals[j := r], outbox := d.outbox[j := notice],
                jobs := d.jobs[j := job.(status := ReportPending, due := now, lastError := "", preOutbox := 0)]))
  }

  predicate NoticeDue(d: Desk, j: JobId, now: Time) {
    j in d.outbox && j in d.jobs && d.outbox[j].Open() && d.outbox[j].due <= now
  }

  function DueNotices(d: Desk, now: Time): set<JobId> {
    set j | j in d.outbox && NoticeDue(d, j, now)
  }

  function NoticeRank(d: Desk): JobId -> Rank {
    (j: JobId) => if j in d.outbox then Rank(d.outbox[j].row, 0, 0) else Rank(0, 0, 0)
  }

  function FinalStatus(outcome: Outcome): Status {
    match outcome
    case NoChangeRequired => Completed
    case ReadyForReview => Completed
    case RunTimedOut => TimedOut
    case RunStopped => Stopped
    case RunCancelled => Cancelled
    case _ => Failed
  }

  predicate Reportable(d: Desk, j: JobId) {
    j in d.outbox && d.outbox[j].Open() && j in d.jobs
        && (d.jobs[j].status.ReportPending? || d.jobs[j].status.ReportRetry?)
  }

  function MarkReportDelivered(d: Desk, j: JobId, comment: int): Option<Desk> {
    if !Reportable(d, j) || j !in d.terminals then None
    else
      var n := d.outbox[j];
      var sent := n.(state := Sent, attempts := n.attempts + 1, comment := Some(comment), lastError := "");
      Some(d.(outbox := d.outbox[j := sent],
              jobs := d.jobs[j := d.jobs[j].(status := FinalStatus(d.terminals[j].outcome), lastError := "")]))
  }

  function MarkReportFailure(d: Desk, j: JobId, attempts: nat, retry: bool, message: string, now: Time): Option<Desk> {
    if !Reportable(d, j) then None
    else
      var n := d.outbox[j];
      var due := if retry then now + ReportRetryDelay(attempts + 1) else now;
      var state := if retry then Retry else Blocked;
      var status := if retry then ReportRetry else ReportBlocked;
      Some(d.(outbox := d.outbox[j := n.(state := state, attempts := n.attempts + 1, due := due, lastError := message)],
              jobs := d.jobs[j := d.jobs[j].(status := status, due := due, lastError := message)]))
  }

  /** The live loop gives up after the last allowed attempt. */
  predicate Retries(transient: bool, attempts: nat) {
    transient && attempts + 1 < REPORT_RETRY_MAX_ATTEMPTS
  }

  /** What an operator must show before a blocked report is queued again. */
  predicate Evidence(d: Desk, j: JobId, run: string, key: ReportKey) {
    && run != "" && j in d.jobs && j in d.terminals && j in d.outbox
    && d.jobs[j].run == run && d.terminals[j].run == run
    && d.outbox[j].key == key && d.outbox[j].version == d.terminals[j].version
    && d.jobs[j].status.ReportBlocked? && d.outbox[j].state.Blocked? && d.outbox[j].comment.None?
    && d.jobs[j].lastError != "" && d.jobs[j].lastError == d.outbox[j].lastError
  }

  function Requeue(d: Desk, j: JobId, run: string, key: ReportKey, now: Time): Option<Desk> {
    if !Evidence(d, j, run, key) then None
    else Some(d.(outbox := d.outbox[j := d.outbox[j].(state := Retry, due := now)],
                 jobs := d.jobs[j := d.jobs[j].(status := ReportRetry, due := now)]))
  }

  // ---------- external waits ----------

  function NewWait(j: JobId, run: string, wait: ExternalWait): WaitRow {
    WaitRow(run, wait, RunResumeKey(j, run, wait.generation), Waiting)
  }

  /** Records the reported generation; a replay must repeat it and keeps the row, with any wake already noted. */
  function RecordWait(d: Desk, j: JobId, run: string, wait: ExternalWait, wake: Time): Option<Desk> {
    if run == "" || !wait.Valid() || j !in d.jobs then None
    else
      var row := NewWait(j, run, wait);
      var waiting := if d.jobs[j].run == run then d.jobs[j := d.jobs[j].(status := ExternalWaiting, due := wake)]
          else d.jobs;
      if j !in d.waits then Some(d.(waits := d.waits[j := row], jobs := waiting))
      else
        var stored := d.waits[j];
        if wait.generation < stored.wait.generation then None
        else if wait.generation == stored.wait.generation then
          (if stored.(state := Waiting) == row then Some(d.(jobs := waiting)) else None)
        else
          Some(d.(waits := if stored.run == run then d.waits[j := row] else d.waits, jobs := waiting))
  }

  predicate Concerned(d: Desk, j: JobId, repository: string, issue: int) {
    j in d.jobs && d.jobs[j].key.repository == repository && d.jobs[j].key.issue == issue
        && d.jobs[j].status.ExternalWaiting?
  }

  /** The rows that a GitHub issue event wakes. */
  predicate Woken(d: Desk, j: JobId, repository: string, issue: int) {
    j in d.waits && Concerned(d, j, repository, issue) && !d.waits[j].state.Resumed?
  }

  function RecordWake(d: Desk, repository: string, issue: int, now: Time): Desk {
    if repository == "" || issue < 1 || !exists j | j in d.waits :: Woken(d, j, repository, issue) then d
    else
      d.(waits := map j | j in d.waits ::
          if Woken(d, j, repository, issue) then d.waits[j].(state := ResumeReady) else d.waits[j],
         jobs := map j | j in d.jobs ::
             if Concerned(d, j, repository, issue) then d.jobs[j].(due := now) else d.jobs[j])
  }

  function DeferResume(d: Desk, j: JobId, run: string, due: Time, message: string): Option<Desk> {
    if j !in d.jobs || d.jobs[j].run != run || !d.jobs[j].status.ExternalWaiting? then None
    else Some(Put(d, j, d.jobs[j].(due := due, lastError := message, preOutbox := d.jobs[j].preOutbox + 1)))
  }

  function Relaunched(job: Job, due: Time): Job {
    job.(status := Launched, due := due, lastError := "", preOutbox := 0)
  }

  /** Both row updates must apply. */
  function MarkResumed(d: Desk, j: JobId, w: WaitRow, now: Time): Option<Desk> {
    if j !in d.waits || d.waits[j].run != w.run || d.waits[j].wait.generation != w.wait.generation
        || d.waits[j].key != w.key then None
    else if !d.waits[j].state.ResumeReady? then None
    else if j !in d.jobs || d.jobs[j].run != w.run || !d.jobs[j].status.ExternalWaiting? then None
    else Some(d.(waits := d.waits[j := d.waits[j].(state := Resumed)],
                 jobs := d.jobs[j := Relaunched(d.jobs[j], now + STATUS_POLL_INTERVAL)]))
  }

  function ReconcileResume(d: Desk, j: JobId, run: string, now: Time): Option<Desk> {
    if j !in d.waits || d.waits[j].run != run || !d.waits[j].state.ResumeReady? then None
    else if j !in d.jobs || d.jobs[j].run != run || !d.jobs[j].status.ExternalWaiting? then None
    else Some(d.(waits := d.waits[j := d.waits[j].(state := Resumed)], jobs := d.jobs[j := Relaunched(d.jobs[j], now)]))
  }
}
