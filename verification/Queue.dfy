/** The transitions of the job queue as functions of the tables (jobs/queue.py, activity/repository.py). */
module Queue {
  import opened Prelude
  import opened Days
  import opened Schema

  // ----- policies -----

  datatype RetryPolicy = RetryPolicy(baseDelay: Micros, maxDelay: Micros) {
    predicate Valid() {
      0 < baseDelay <= maxDelay
    }

    function DelayAfter(attempts: nat): (delay: Micros)
      requires Valid() && attempts >= 1
      ensures baseDelay <= delay <= maxDelay
    {
      var doublings := if attempts - 1 <= 30 then attempts - 1 else 30;
      PowerPositive(doublings);
      var delay := baseDelay * Power2(doublings);
      if delay <= maxDelay then delay else maxDelay
    }
  }

  function Power2(n: nat): nat {
    if n == 0 then 1 else 2 * Power2(n - 1)
  }

  lemma {:induction false} PowerPositive(n: nat)
    ensures forall d: int :: d > 0 ==> d <= d * Power2(n)
  {
    if n > 0 {
      PowerPositive(n - 1);
      forall d: int | d > 0
        ensures d <= d * Power2(n)
      {
        assert d * Power2(n) == d * Power2(n - 1) + d * Power2(n - 1);
      }
    }
  }

  /** The first failure waits the base delay, each later one twice as long as the one before, up to the cap. */
  lemma DelayDoubles(policy: RetryPolicy, attempts: nat)
    requires policy.Valid() && 1 <= attempts <= 30
    ensures policy.DelayAfter(1) == policy.baseDelay
    ensures var twice := 2 * policy.DelayAfter(attempts);
            policy.DelayAfter(attempts + 1) == if twice <= policy.maxDelay then twice else policy.maxDelay
  {
    var power := Power2(attempts - 1);
    assert Power2(attempts) == 2 * power;
    assert policy.baseDelay * (2 * power) == 2 * (policy.baseDelay * power);
    assert Power2(0) == 1;
  }

  predicate CanRetry(retryable: bool, job: Job) {
    retryable && job.attempts < job.maxAttempts
  }

  /** The step a recording's pipeline runs after another. */
  function ChainedFollowUp(kind: JobKind): Option<JobKind> {
    match kind
    case Full => Some(Analysis)
    case Analysis => Some(Translation)
    case _ => None
  }

  function AutomaticFollowUps(switches: Option<Switches>): Switches {
    if switches.Some? then switches.value else Switches(true, true)
  }

  predicate Runs(switches: Switches, kind: JobKind) {
    match kind
    case Analysis => switches.analysis
    case Translation => switches.translation
    case _ => false
  }

  function ChainLength(followUp: Option<JobKind>): (n: nat)
    ensures n <= 3
  {
    match followUp
    case None => 0
    case Some(Full) => 3
    case Some(Analysis) => 2
    case Some(_) => 1
  }

  /** The first step of the rest of the chain that is switched on. */
  function FirstEnabled(switches: Switches, followUp: Option<JobKind>): (kind: Option<JobKind>)
    ensures kind.Some? ==> Runs(switches, kind.value) && ChainLength(kind) <= ChainLength(followUp)
    decreases ChainLength(followUp)
  {
    if followUp.None? || Runs(switches, followUp.value) then followUp
    else FirstEnabled(switches, ChainedFollowUp(followUp.value))
  }

  /** Asking for a step leads to this one, through steps that are switched off. */
  predicate Reaches(switches: Switches, followUp: Option<JobKind>, kind: Option<JobKind>)
    decreases ChainLength(followUp)
  {
    || followUp == kind
    || (followUp.Some? && !Runs(switches, followUp.value) && Reaches(switches, ChainedFollowUp(followUp.value), kind))
  }

  /** The hand-off goes to the first step of the rest of the chain that is switched on, and to none exactly when
      all of them are off. */
  lemma {:induction false} FirstEnabledIsFirst(switches: Switches, followUp: Option<JobKind>, kind: Option<JobKind>)
    ensures FirstEnabled(switches, followUp) == kind <==>
              Reaches(switches, followUp, kind) && (kind.Some? ==> Runs(switches, kind.value))
    decreases ChainLength(followUp)
  {
    if followUp.Some? && !Runs(switches, followUp.value) {
      FirstEnabledIsFirst(switches, ChainedFollowUp(followUp.value), kind);
    }
  }

  // ----- one job -----

  function FreshJob(scope: Scope, kind: JobKind, followUp: Option<JobKind>, maxAttempts: nat,
                    availableAt: Micros, now: Micros): Job
  {
    Job(scope, kind, followUp, Queued, StageQueued, 0, maxAttempts, availableAt, now,
        None, None, None, None, None, None, None, None)
  }

  function ClaimedStage(kind: JobKind): JobStage {
    match kind
    case Full => Preprocessing
    case Translation => Translating
    case _ => Analyzing
  }

  function Claimed(job: Job, now: Micros, token: Token, worker: string, lease: Micros): Job {
    job.(status := Processing, stage := ClaimedStage(job.kind), attempts := job.attempts + 1,
         workerId := Some(worker), claimToken := Some(token), claimedAt := Some(now), heartbeatAt := Some(now),
         leaseExpiresAt := Some(now + lease), startedAt := if job.startedAt.Some? then job.startedAt else Some(now),
         finishedAt := None, failure := None)
  }

  function Renewed(job: Job, now: Micros, lease: Micros): Job {
    job.(heartbeatAt := Some(now), leaseExpiresAt := Some(now + lease))
  }

  function Done(job: Job, now: Micros): Job {
    job.(status := Completed, stage := StageCompleted, finishedAt := Some(now), heartbeatAt := Some(now),
         leaseExpiresAt := None, claimToken := None)
  }

  function Released(job: Job, note: FailureNote): Job {
    job.(failure := Some(note), claimToken := None, workerId := None, claimedAt := None, heartbeatAt := None,
         leaseExpiresAt := None)
  }

  function Requeued(job: Job, note: FailureNote, now: Micros, policy: RetryPolicy): Job
    requires policy.Valid() && job.attempts >= 1
  {
    Released(job, note).(status := Queued, stage := StageQueued, availableAt := now + policy.DelayAfter(job.attempts))
  }

  function GivenUp(job: Job, note: FailureNote, now: Micros): Job {
    Released(job, note).(status := Failed, finishedAt := Some(now))
  }

  // ----- the activity log -----

  predicate SameKey(a: Activity, b: Activity) {
    a.job == b.job && a.attempt == b.attempt && a.event == b.event && a.stage == b.stage
  }

  /** An event that is already recorded is not recorded again. */
  function Append(log: seq<Activity>, a: Activity): seq<Activity> {
    if exists i :: 0 <= i < |log| && SameKey(log[i], a) then log else log + [a]
  }

  /** Only recording work has a timeline; a day summary records nothing. */
  function Logged(log: seq<Activity>, id: JobId, job: Job, event: ActivityType, stage: JobStage, at: Micros)
    : seq<Activity>
  {
    match job.scope
    case OfDay(_) => log
    case OfRecording(recording) => Append(log, Activity(recording, id, event, stage, job.attempts, at))
  }

  // ----- the queue's transactions -----

  /** Only transcription moves the recording's own status. */
  function WithStatus(recordings: map<RecordingId, Recording>, job: Job, status: RecordingStatus)
    : map<RecordingId, Recording>
  {
    if job.kind.Full? && job.scope.OfRecording? && job.scope.recording in recordings then
      recordings[job.scope.recording := recordings[job.scope.recording].(status := status)]
    else recordings
  }

  predicate Claimable(job: Job, now: Micros, kinds: Option<set<JobKind>>) {
    && job.status.Queued? && job.availableAt <= now
    && (kinds.Some? ==> job.kind in kinds.value)
  }

  /** The claim order: available first, then created first, then by id. */
  predicate Before(a: Job, aId: JobId, b: Job, bId: JobId) {
    || a.availableAt < b.availableAt
    || (a.availableAt == b.availableAt && a.createdAt < b.createdAt)
    || (a.availableAt == b.availableAt && a.createdAt == b.createdAt && aId < bId)
  }

  ghost predicate IsFirst(jobs: map<JobId, Job>, id: JobId, now: Micros, kinds: Option<set<JobKind>>) {
    && id in jobs && Claimable(jobs[id], now, kinds)
    && forall other :: other in jobs && other != id && Claimable(jobs[other], now, kinds) ==>
         Before(jobs[id], id, jobs[other], other)
  }

  function Claim(db: Db, id: JobId, now: Micros, token: Token, worker: string, lease: Micros): Db
    requires id in db.jobs
  {
    var job := Claimed(db.jobs[id], now, token, worker, lease);
    db.(jobs := db.jobs[id := job],
        recordings := WithStatus(db.recordings, job, RecProcessing),
        log := Logged(db.log, id, job, ProcessingStarted, job.stage, now))
  }

  /** The detached identity a worker holds; every later write is checked against it. */
  datatype ClaimedJob = ClaimedJob(
    id: JobId, scope: Scope, kind: JobKind, token: Token, workerId: string, attempts: nat, maxAttempts: nat)

  function ClaimOf(id: JobId, job: Job, token: Token, worker: string): ClaimedJob {
    ClaimedJob(id, job.scope, job.kind, token, worker, job.attempts, job.maxAttempts)
  }

  /** The fence: the row is still running under this claim's token and worker. */
  predicate Owns(jobs: map<JobId, Job>, claim: ClaimedJob) {
    && claim.id in jobs && jobs[claim.id].status.Processing?
    && jobs[claim.id].claimToken == Some(claim.token) && jobs[claim.id].workerId == Some(claim.workerId)
  }

  function Heartbeat(db: Db, claim: ClaimedJob, now: Micros, lease: Micros): Result<Db> {
    if !Owns(db.jobs, claim) then Failure("ClaimLostError")
    else Success(db.(jobs := db.jobs[claim.id := Renewed(db.jobs[claim.id], now, lease)]))
  }

  function AdvanceStage(db: Db, claim: ClaimedJob, stage: JobStage, now: Micros, lease: Micros): Result<Db> {
    if stage.StageQueued? || stage.StageCompleted? then Failure("ValueError")
    else if !Owns(db.jobs, claim) then Failure("ClaimLostError")
    else
      var job := Renewed(db.jobs[claim.id], now, lease).(stage := stage);
      Success(db.(jobs := db.jobs[claim.id := job],
                  log := Logged(db.log, claim.id, AsClaimed(job, claim), StageStarted, stage, now)))
  }

  /** The row as the claim describes it; a stage event is recorded from the claim, without reading the row. */
  function AsClaimed(job: Job, claim: ClaimedJob): Job {
    job.(scope := claim.scope, attempts := claim.attempts)
  }

  /** What the chain queues behind a job, if anything. */
  function Successor(db: Db, job: Job): Option<JobKind> {
    if job.followUp.None? || job.scope.OfDay? then None
    else FirstEnabled(AutomaticFollowUps(db.switches), job.followUp)
  }

  /** Queues the next step behind a job that is already terminal, a microsecond after it. */
  function HandOff(db: Db, job: Job, newId: JobId, now: Micros): Db {
    match Successor(db, job)
    case None => db
    case Some(kind) =>
      var next := FreshJob(job.scope, kind, ChainedFollowUp(kind), job.maxAttempts, now + 1, now);
      db.(jobs := db.jobs[newId := next],
          log := Logged(db.log, newId, next, JobQueued, StageQueued, now + 1))
  }

  function Finish(db: Db, id: JobId, now: Micros, newId: JobId): Db
    requires id in db.jobs
  {
    var job := Done(db.jobs[id], now);
    HandOff(db.(jobs := db.jobs[id := job],
                recordings := WithStatus(db.recordings, job, RecCompleted),
                log := Logged(db.log, id, job, ProcessingCompleted, StageCompleted, now)),
            job, newId, now)
  }

  function Requeue(db: Db, id: JobId, note: FailureNote, now: Micros, policy: RetryPolicy, event: ActivityType): Db
    requires id in db.jobs && policy.Valid() && db.jobs[id].attempts >= 1
  {
    var job := Requeued(db.jobs[id], note, now, policy);
    db.(jobs := db.jobs[id := job],
        recordings := WithStatus(db.recordings, job, RecQueued),
        log := Logged(db.log, id, job, event, note.stage, now))
  }

  /** Giving up on an analysis or a translation does not cancel the rest of the chain. */
  function GiveUp(db: Db, id: JobId, note: FailureNote, now: Micros, event: ActivityType, newId: JobId): Db
    requires id in db.jobs
  {
    var job := GivenUp(db.jobs[id], note, now);
    var failed := db.(jobs := db.jobs[id := job],
                      recordings := WithStatus(db.recordings, job, RecFailed),
                      log := Logged(db.log, id, job, event, note.stage, now));
    if job.kind.Full? then failed else HandOff(failed, job, newId, now)
  }

  datatype JobFailure = JobFailure(code: string, retryable: bool, stage: Option<JobStage>)

  function Fail(db: Db, claim: ClaimedJob, failure: JobFailure, now: Micros, policy: RetryPolicy, newId: JobId)
    : Result<Db>
    requires policy.Valid()
  {
    if !Owns(db.jobs, claim) then Failure("ClaimLostError")
    else if CanRetry(failure.retryable, db.jobs[claim.id]) && db.jobs[claim.id].attempts < 1 then Failure("ValueError")
    else
      var job := db.jobs[claim.id];
      var note := FailureNote(if failure.stage.Some? then failure.stage.value else job.stage, failure.code, now);
      if CanRetry(failure.retryable, job) then Success(Requeue(db, claim.id, note, now, policy, RetryScheduled))
      else Success(GiveUp(db, claim.id, note, now, ProcessingFailed, newId))
  }

  predicate Expired(job: Job, now: Micros) {
    job.status.Processing? && (job.leaseExpiresAt.None? || job.leaseExpiresAt.value <= now)
  }

  /** Recovery of one abandoned lease, which also fences its former owner. */
  function Recover(db: Db, id: JobId, now: Micros, policy: RetryPolicy, newId: JobId): Result<Db>
    requires policy.Valid() && id in db.jobs
  {
    var job := db.jobs[id];
    var note := FailureNote(job.stage, "worker_lease_expired", now);
    if !CanRetry(true, job) then Success(GiveUp(db, id, note, now, LeaseRecovered, newId))
    else if job.attempts < 1 then Failure("ValueError")
    else Success(Requeue(db, id, note, now, policy, LeaseRecovered))
  }
}
