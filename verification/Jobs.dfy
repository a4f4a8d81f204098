/** What every transaction keeps about jobs and the recordings they work on. */
module Jobs {
  import opened Prelude
  import opened Days
  import opened Schema
  import opened Queue
  import opened Services

  // ----- one job -----

  /** Each kind's place in the chain: what may still follow it. */
  predicate ChainOk(kind: JobKind, followUp: Option<JobKind>) {
    match kind
    case Full => followUp == Some(Analysis)
    case Analysis => followUp == None || followUp == Some(Translation)
    case _ => followUp == None
  }

  /** A job holds a token and a lease exactly while it is processing, and never overspends its attempts. */
  predicate JobOk(job: Job) {
    && (job.status.Processing? <==> job.claimToken.Some?)
    && (job.status.Processing? <==> job.leaseExpiresAt.Some?)
    && (job.status.Processing? ==> job.workerId.Some?)
    && (job.status.Queued? ==> job.attempts < job.maxAttempts)
    && (job.status.Processing? ==> 1 <= job.attempts)
    && job.attempts <= job.maxAttempts && 1 <= job.maxAttempts
    && (job.kind.DailySummary? <==> job.scope.OfDay?)
    && ChainOk(job.kind, job.followUp)
  }

  /** The columns no transition changes. */
  predicate SameIdentity(a: Job, b: Job) {
    a.scope == b.scope && a.kind == b.kind && a.followUp == b.followUp && a.maxAttempts == b.maxAttempts
    && a.createdAt == b.createdAt
  }

  // ----- jobs and recordings together -----

  /** At most one queued or running job per recording and per day. */
  ghost predicate OneActive(jobs: map<JobId, Job>) {
    forall a, b :: a in jobs && b in jobs && a != b && jobs[a].scope == jobs[b].scope && Active(jobs[a]) ==>
      !Active(jobs[b])
  }

  predicate Fits(job: Job, status: RecordingStatus) {
    if job.kind.Full? then
      (job.status.Queued? ==> status.RecQueued?) && (job.status.Processing? ==> status.RecProcessing?)
    else Active(job) ==> status.RecCompleted?
  }

  ghost predicate JobFits(recordings: map<RecordingId, Recording>, job: Job) {
    job.scope.OfRecording? ==>
      job.scope.recording in recordings && (Active(job) ==> Fits(job, recordings[job.scope.recording].status))
  }

  ghost predicate Waiting(status: RecordingStatus) {
    status.RecQueued? || status.RecProcessing?
  }

  ghost predicate HasActive(jobs: map<JobId, Job>, scope: Scope) {
    exists id :: id in jobs && jobs[id].scope == scope && Active(jobs[id])
  }

  ghost predicate AllJobs(recordings: map<RecordingId, Recording>, jobs: map<JobId, Job>) {
    forall id :: id in jobs ==> JobOk(jobs[id]) && JobFits(recordings, jobs[id])
  }

  ghost predicate AllWaiting(recordings: map<RecordingId, Recording>, jobs: map<JobId, Job>) {
    forall r :: r in recordings && Waiting(recordings[r].status) ==> HasActive(jobs, OfRecording(r))
  }

  ghost predicate Core(recordings: map<RecordingId, Recording>, jobs: map<JobId, Job>) {
    AllJobs(recordings, jobs) && OneActive(jobs) && AllWaiting(recordings, jobs)
  }

  /** The status column says exactly what the recording's transcription job is doing. */
  lemma StatusTellsJob(recordings: map<RecordingId, Recording>, jobs: map<JobId, Job>, r: RecordingId)
    requires Core(recordings, jobs) && r in recordings
    ensures recordings[r].status.RecQueued? <==>
              exists id :: id in jobs && jobs[id].scope == OfRecording(r) && jobs[id].kind.Full? && jobs[id].status.Queued?
    ensures recordings[r].status.RecProcessing? <==>
              exists id :: id in jobs && jobs[id].scope == OfRecording(r) && jobs[id].kind.Full? && jobs[id].status.Processing?
    ensures forall id :: id in jobs && jobs[id].scope == OfRecording(r) && !jobs[id].kind.Full? && Active(jobs[id]) ==>
              recordings[r].status.RecCompleted?
  {
    if Waiting(recordings[r].status) {
      var id :| id in jobs && jobs[id].scope == OfRecording(r) && Active(jobs[id]);
      assert JobFits(recordings, jobs[id]);
    }
    forall id | id in jobs && jobs[id].scope == OfRecording(r) && Active(jobs[id])
      ensures Fits(jobs[id], recordings[r].status)
    {
      assert JobFits(recordings, jobs[id]);
    }
  }

  // ----- the three ways a transaction touches the jobs table -----

  /** The status a moved job leaves on its recording. */
  predicate StatusAfter(job: Job, status: RecordingStatus) {
    if Active(job) then Fits(job, status) else !(status.RecQueued? || status.RecProcessing?)
  }

  /** An active job is updated in place. */
  lemma PutKeepsCore(recordings: map<RecordingId, Recording>, jobs: map<JobId, Job>, id: JobId, job: Job, status: RecordingStatus)
    requires Core(recordings, jobs) && id in jobs && Active(jobs[id])
    requires SameIdentity(jobs[id], job) && JobOk(job)
    requires job.kind.Full? ==> StatusAfter(job, status)
    ensures Core(WithStatus(recordings, job, status), jobs[id := job])
  {
    hide JobOk, Fits;
    var recordings', jobs' := WithStatus(recordings, job, status), jobs[id := job];
    PutKeepsOneActive(jobs, id, job);
    forall other | other in jobs'
      ensures JobOk(jobs'[other]) && JobFits(recordings', jobs'[other])
    {
      PutKeepsFit(recordings, jobs, id, job, status, other);
    }
    forall r | r in recordings' && Waiting(recordings'[r].status)
      ensures HasActive(jobs', OfRecording(r))
    {
      PutKeepsWaiting(recordings, jobs, id, job, status, r);
    }
  }

  lemma PutKeepsOneActive(jobs: map<JobId, Job>, id: JobId, job: Job)
    requires OneActive(jobs) && id in jobs && job.scope == jobs[id].scope && Active(jobs[id])
    ensures OneActive(jobs[id := job])
    ensures !Active(job) ==> NoActive(jobs[id := job], job.scope)
  {
  }

  lemma PutKeepsFit(recordings: map<RecordingId, Recording>, jobs: map<JobId, Job>, id: JobId, job: Job,
                    status: RecordingStatus, other: JobId)
    requires AllJobs(recordings, jobs) && OneActive(jobs) && id in jobs && Active(jobs[id])
    requires SameIdentity(jobs[id], job) && JobOk(job) && other in jobs
    requires job.kind.Full? ==> StatusAfter(job, status)
    ensures JobOk(jobs[id := job][other])
    ensures JobFits(WithStatus(recordings, job, status), jobs[id := job][other])
  {
    assert JobFits(recordings, jobs[id]) && JobFits(recordings, jobs[other]);
  }

  lemma PutKeepsWaiting(recordings: map<RecordingId, Recording>, jobs: map<JobId, Job>, id: JobId, job: Job,
                        status: RecordingStatus, r: RecordingId)
    requires Core(recordings, jobs) && id in jobs && Active(jobs[id])
    requires SameIdentity(jobs[id], job) && JobOk(job) && r in recordings
    requires job.kind.Full? ==> StatusAfter(job, status)
    requires Waiting(WithStatus(recordings, job, status)[r].status)
    ensures HasActive(jobs[id := job], OfRecording(r))
  {
    if job.scope == OfRecording(r) {
      assert JobFits(recordings, jobs[id]);
      assert Active(job);
      assert jobs[id := job][id] == job;
    } else {
      assert HasActive(jobs, OfRecording(r));
      var other :| other in jobs && jobs[other].scope == OfRecording(r) && Active(jobs[other]);
      assert jobs[id := job][other] == jobs[other];
    }
  }

  /** A job is queued for a scope that has none. */
  lemma InsertKeepsCore(recordings: map<RecordingId, Recording>, jobs: map<JobId, Job>, id: JobId, job: Job)
    requires Core(recordings, jobs) && id !in jobs && NoActive(jobs, job.scope)
    requires JobOk(job) && job.status.Queued?
    requires job.scope.OfRecording? ==> job.scope.recording in recordings
    requires job.scope.OfRecording? && !job.kind.Full? ==> recordings[job.scope.recording].status.RecCompleted?
    ensures Core(WithStatus(recordings, job, RecQueued), jobs[id := job])
  {
    var recordings', jobs' := WithStatus(recordings, job, RecQueued), jobs[id := job];
    forall other | other in jobs'
      ensures JobOk(jobs'[other]) && JobFits(recordings', jobs'[other])
    {
      if other != id {
        assert JobFits(recordings, jobs[other]);
      }
    }
    forall r | r in recordings' && Waiting(recordings'[r].status)
      ensures HasActive(jobs', OfRecording(r))
    {
      assert jobs'[id] == job;
      if job.scope != OfRecording(r) {
        var other :| other in jobs && jobs[other].scope == OfRecording(r) && Active(jobs[other]);
        assert jobs'[other] == jobs[other];
      }
    }
  }

  /** A recording arrives with its first job. */
  lemma UploadKeepsCore(recordings: map<RecordingId, Recording>, jobs: map<JobId, Job>, r: RecordingId, rec: Recording,
                        id: JobId, job: Job)
    requires Core(recordings, jobs) && r !in recordings && id !in jobs
    requires rec.status.RecQueued? && job.scope == OfRecording(r) && job.kind.Full? && JobOk(job) && job.status.Queued?
    ensures Core(recordings[r := rec], jobs[id := job])
  {
    var recordings', jobs' := recordings[r := rec], jobs[id := job];
    forall other | other in jobs
      ensures jobs[other].scope != OfRecording(r) && JobOk(jobs[other]) && JobFits(recordings', jobs[other])
    {
      assert JobFits(recordings, jobs[other]);
    }
    forall s | s in recordings' && Waiting(recordings'[s].status)
      ensures HasActive(jobs', OfRecording(s))
    {
      assert jobs'[id] == job;
      if s != r {
        var other :| other in jobs && jobs[other].scope == OfRecording(s) && Active(jobs[other]);
        assert jobs'[other] == jobs[other];
      }
    }
  }

  /** Rows of a recording change while its status stays. */
  lemma ContentKeepsCore(recordings: map<RecordingId, Recording>, jobs: map<JobId, Job>, r: RecordingId, rec: Recording)
    requires Core(recordings, jobs) && r in recordings && rec.status == recordings[r].status
    ensures Core(recordings[r := rec], jobs)
  {
    var recordings' := recordings[r := rec];
    forall id | id in jobs
      ensures JobOk(jobs[id]) && JobFits(recordings', jobs[id])
    {
      assert JobFits(recordings, jobs[id]);
    }
    forall s | s in recordings' && Waiting(recordings'[s].status)
      ensures HasActive(jobs, OfRecording(s))
    {
      assert Waiting(recordings[s].status);
    }
  }

  /** A recording goes with all its jobs. */
  lemma DeleteKeepsCore(recordings: map<RecordingId, Recording>, jobs: map<JobId, Job>, r: RecordingId)
    requires Core(recordings, jobs)
    ensures Core(recordings - {r}, JobsWithout(jobs, OfRecording(r)))
  {
    var recordings', jobs' := recordings - {r}, JobsWithout(jobs, OfRecording(r));
    forall id | id in jobs'
      ensures JobOk(jobs'[id]) && JobFits(recordings', jobs'[id])
    {
      assert JobFits(recordings, jobs[id]);
    }
    forall s | s in recordings' && Waiting(recordings'[s].status)
      ensures HasActive(jobs', OfRecording(s))
    {
      var other :| other in jobs && jobs[other].scope == OfRecording(s) && Active(jobs[other]);
      assert jobs'[other] == jobs[other];
    }
  }
}
