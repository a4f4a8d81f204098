/** Every transaction keeps the job invariants. */
module Keeping {
  import opened Prelude
  import opened Days
  import opened Schema
  import opened Queue
  import opened Services
  import opened Jobs
  import opened Protocol

  ghost predicate CoreOf(db: Db) {
    Core(db.recordings, db.jobs)
  }

  // ----- moves of one job -----

  lemma ClaimedOk(job: Job, now: Micros, token: Token, worker: string, lease: Micros)
    requires JobOk(job) && job.status.Queued?
    ensures JobOk(Claimed(job, now, token, worker, lease))
  {
  }

  lemma DoneOk(job: Job, now: Micros)
    requires JobOk(job) && job.status.Processing?
    ensures JobOk(Done(job, now))
  {
  }

  lemma RequeuedOk(job: Job, note: FailureNote, now: Micros, policy: RetryPolicy)
    requires policy.Valid() && JobOk(job) && job.status.Processing? && job.attempts < job.maxAttempts
    ensures JobOk(Requeued(job, note, now, policy))
  {
  }

  lemma GivenUpOk(job: Job, note: FailureNote, now: Micros)
    requires JobOk(job) && job.status.Processing?
    ensures JobOk(GivenUp(job, note, now))
  {
  }

  // ----- the queue -----

  lemma ClaimKeeps(db: Db, id: JobId, now: Micros, token: Token, worker: string, lease: Micros)
    requires CoreOf(db) && id in db.jobs && db.jobs[id].status.Queued?
    ensures CoreOf(Claim(db, id, now, token, worker, lease))
  {
    hide Core;
    CoreJobOk(db, id);
    ClaimedOk(db.jobs[id], now, token, worker, lease);
    PutKeepsCore(db.recordings, db.jobs, id, Claimed(db.jobs[id], now, token, worker, lease), RecProcessing);
  }

  lemma CoreJobOk(db: Db, id: JobId)
    requires CoreOf(db) && id in db.jobs
    ensures JobOk(db.jobs[id]) && JobFits(db.recordings, db.jobs[id])
  {
  }

  lemma HeartbeatKeeps(db: Db, claim: ClaimedJob, now: Micros, lease: Micros)
    requires CoreOf(db)
    ensures CoreOf(OrElse(Heartbeat(db, claim, now, lease), db))
  {
    hide Core;
    if Owns(db.jobs, claim) {
      CoreJobOk(db, claim.id);
      RenewKeeps(db, claim.id, Renewed(db.jobs[claim.id], now, lease));
    }
  }

  /** A running job may be rewritten as long as it keeps running. */
  lemma RenewKeeps(db: Db, id: JobId, job: Job)
    requires CoreOf(db) && id in db.jobs && db.jobs[id].status.Processing? && job.status.Processing?
    requires SameIdentity(db.jobs[id], job) && JobOk(job)
    ensures Core(db.recordings, db.jobs[id := job])
  {
    hide Core, JobOk;
    CoreJobOk(db, id);
    PutKeepsCore(db.recordings, db.jobs, id, job, RecProcessing);
    if job.kind.Full? && job.scope.OfRecording? {
      var r := job.scope.recording;
      assert db.recordings[r].(status := RecProcessing) == db.recordings[r];
      assert WithStatus(db.recordings, job, RecProcessing) == db.recordings;
    }
  }

  lemma AdvanceKeeps(db: Db, claim: ClaimedJob, stage: JobStage, now: Micros, lease: Micros)
    requires CoreOf(db)
    ensures CoreOf(OrElse(AdvanceStage(db, claim, stage, now, lease), db))
  {
    hide Core;
    if Owns(db.jobs, claim) {
      CoreJobOk(db, claim.id);
      RenewKeeps(db, claim.id, Renewed(db.jobs[claim.id], now, lease).(stage := stage));
    }
  }

  /** The successor can always be inserted: its predecessor is terminal and was the only active job. */
  lemma HandOffKeeps(db: Db, job: Job, newId: JobId, now: Micros)
    requires CoreOf(db) && newId !in db.jobs && JobOk(job) && NoActive(db.jobs, job.scope)
    requires job.scope.OfRecording? ==>
               job.scope.recording in db.recordings && db.recordings[job.scope.recording].status.RecCompleted?
    ensures CoreOf(HandOff(db, job, newId, now))
  {
    hide Core, NoActive;
    match Successor(db, job)
    case None =>
    case Some(kind) =>
      var next := FreshJob(job.scope, kind, ChainedFollowUp(kind), job.maxAttempts, now + 1, now);
      InsertKeepsCore(db.recordings, db.jobs, newId, next);
  }

  /** The row an ending claim leaves behind, before any hand-off. */
  function Ended(db: Db, id: JobId, job: Job, status: RecordingStatus, log: seq<Activity>): Db {
    db.(jobs := db.jobs[id := job], recordings := WithStatus(db.recordings, job, status), log := log)
  }

  lemma EndKeeps(db: Db, id: JobId, job: Job, status: RecordingStatus, log: seq<Activity>)
    requires CoreOf(db) && id in db.jobs && db.jobs[id].status.Processing?
    requires SameIdentity(db.jobs[id], job) && JobOk(job) && !Active(job)
    requires status.RecCompleted? || status.RecFailed?
    ensures CoreOf(Ended(db, id, job, status, log))
    ensures NoActive(Ended(db, id, job, status, log).jobs, job.scope)
    ensures job.scope.OfRecording? ==>
              && job.scope.recording in db.recordings
              && Ended(db, id, job, status, log).recordings[job.scope.recording].status
                 == if job.kind.Full? then status else RecCompleted
  {
    hide AllJobs, AllWaiting, JobOk;
    CoreJobOk(db, id);
    PutKeepsCore(db.recordings, db.jobs, id, job, status);
    PutKeepsOneActive(db.jobs, id, job);
  }

  lemma FinishKeeps(db: Db, id: JobId, now: Micros, newId: JobId)
    requires CoreOf(db) && id in db.jobs && db.jobs[id].status.Processing? && newId !in db.jobs
    ensures CoreOf(Finish(db, id, now, newId))
  {
    hide Core, Logged, NoActive;
    CoreJobOk(db, id);
    var job := Done(db.jobs[id], now);
    DoneOk(db.jobs[id], now);
    var log := Logged(db.log, id, job, ProcessingCompleted, StageCompleted, now);
    EndKeeps(db, id, job, RecCompleted, log);
    HandOffKeeps(Ended(db, id, job, RecCompleted, log), job, newId, now);
  }

  lemma RequeueKeeps(db: Db, id: JobId, note: FailureNote, now: Micros, policy: RetryPolicy, event: ActivityType)
    requires policy.Valid() && CoreOf(db) && id in db.jobs
    requires db.jobs[id].status.Processing? && 1 <= db.jobs[id].attempts < db.jobs[id].maxAttempts
    ensures CoreOf(Requeue(db, id, note, now, policy, event))
  {
    hide Core;
    CoreJobOk(db, id);
    RequeuedOk(db.jobs[id], note, now, policy);
    PutKeepsCore(db.recordings, db.jobs, id, Requeued(db.jobs[id], note, now, policy), RecQueued);
  }

  lemma GiveUpKeeps(db: Db, id: JobId, note: FailureNote, now: Micros, event: ActivityType, newId: JobId)
    requires CoreOf(db) && id in db.jobs && db.jobs[id].status.Processing? && newId !in db.jobs
    ensures CoreOf(GiveUp(db, id, note, now, event, newId))
  {
    hide Core, Logged, NoActive;
    CoreJobOk(db, id);
    var job := GivenUp(db.jobs[id], note, now);
    GivenUpOk(db.jobs[id], note, now);
    var log := Logged(db.log, id, job, event, note.stage, now);
    EndKeeps(db, id, job, RecFailed, log);
    if !job.kind.Full? {
      HandOffKeeps(Ended(db, id, job, RecFailed, log), job, newId, now);
    }
  }

  lemma FailKeeps(db: Db, claim: ClaimedJob, failure: JobFailure, now: Micros, policy: RetryPolicy, newId: JobId)
    requires policy.Valid() && CoreOf(db) && newId !in db.jobs
    ensures CoreOf(OrElse(Fail(db, claim, failure, now, policy, newId), db))
  {
    hide Core, Requeue, GiveUp;
    if Owns(db.jobs, claim) {
      var job := db.jobs[claim.id];
      CoreJobOk(db, claim.id);
      var note := FailureNote(if failure.stage.Some? then failure.stage.value else job.stage, failure.code, now);
      if CanRetry(failure.retryable, job) {
        RequeueKeeps(db, claim.id, note, now, policy, RetryScheduled);
      } else {
        GiveUpKeeps(db, claim.id, note, now, ProcessingFailed, newId);
      }
    }
  }

  lemma RecoverKeeps(db: Db, id: JobId, now: Micros, policy: RetryPolicy, newId: JobId)
    requires policy.Valid() && CoreOf(db) && id in db.jobs && Expired(db.jobs[id], now) && newId !in db.jobs
    ensures CoreOf(OrElse(Recover(db, id, now, policy, newId), db))
  {
    hide Core, Requeue, GiveUp;
    CoreJobOk(db, id);
    var note := FailureNote(db.jobs[id].stage, "worker_lease_expired", now);
    if CanRetry(true, db.jobs[id]) {
      RequeueKeeps(db, id, note, now, policy, LeaseRecovered);
    } else {
      GiveUpKeeps(db, id, note, now, LeaseRecovered, newId);
    }
  }

  // ----- everything else -----

  lemma ContentKeepsStatus(rec: Recording, input: Option<Input>, outcome: Outcome, kind: JobKind)
    requires Answers(kind, input, outcome) && !outcome.DaySummarised? && !outcome.DaySkipped?
    ensures var r := PersistRecording(rec, input, outcome, kind);
            r.Success? ==> r.value.status == rec.status && r.value.startedAt == rec.startedAt
  {
    hide Translations.Retranscribed, TranslationWrites.Written, Sentences.Grouped;
  }

  lemma PersistKeeps(db: Db, claim: ClaimedJob, input: Option<Input>, outcome: Outcome)
    requires CoreOf(db) && Answers(claim.kind, input, outcome)
    ensures var r := Persist(db, claim, input, outcome);
            r.Success? ==> CoreOf(r.value) && r.value.jobs == db.jobs && r.value.log == db.log
  {
    hide Core, PersistRecording, PersistSummary, Answers;
    match claim.scope
    case OfDay(day) =>
      if outcome.DaySummarised? {
        PersistSummaryKeeps(db, day, input.value, outcome.text, outcome.points) by {
          AnswersDay(claim.kind, input, outcome);
        }
      }
    case OfRecording(r) =>
      if !outcome.DaySummarised? && !outcome.DaySkipped? && r in db.recordings {
        ContentKeepsStatus(db.recordings[r], input, outcome, claim.kind);
        var rec := PersistRecording(db.recordings[r], input, outcome, claim.kind);
        if rec.Success? {
          ContentKeepsCore(db.recordings, db.jobs, r, rec.value);
        }
      }
  }

  lemma AnswersDay(kind: JobKind, input: Option<Input>, outcome: Outcome)
    requires Answers(kind, input, outcome) && outcome.DaySummarised?
    ensures input.Some? && input.value.DayRead?
  {
  }

  lemma PersistSummaryKeeps(db: Db, day: Day, input: Input, text: string, points: seq<nat>)
    requires input.DayRead?
    ensures var r := PersistSummary(db, day, input, text, points);
            r.Success? ==> r.value.recordings == db.recordings && r.value.jobs == db.jobs && r.value.log == db.log
  {
  }

  lemma CompleteKeeps(db: Db, claim: ClaimedJob, input: Option<Input>, outcome: Outcome, now: Micros, newId: JobId)
    requires CoreOf(db) && newId !in db.jobs && Answers(claim.kind, input, outcome)
    ensures CoreOf(OrElse(Complete(db, claim, input, outcome, now, newId), db))
  {
    hide Core, Persist, Finish, Answers;
    if Owns(db.jobs, claim) {
      PersistKeeps(db, claim, input, outcome);
      var r := Persist(db, claim, input, outcome);
      if r.Success? {
        FinishKeeps(r.value, claim.id, now, newId);
      }
    }
  }

  lemma UploadKeeps(db: Db, recording: RecordingId, startedAt: Micros, duration: real, jobId: JobId,
                    uploadedAt: Micros, now: Micros, maxAttempts: nat)
    requires CoreOf(db) && recording !in db.recordings && jobId !in db.jobs && maxAttempts >= 1
    ensures CoreOf(Upload(db, recording, startedAt, duration, jobId, uploadedAt, now, maxAttempts))
  {
    hide Core;
    var job := FreshJob(OfRecording(recording), Full, ChainedFollowUp(Full), maxAttempts, uploadedAt, now);
    UploadKeepsCore(db.recordings, db.jobs, recording, NewRecording(startedAt, duration), jobId, job);
  }

  lemma EnqueueKeeps(db: Db, request: Request, recording: RecordingId, jobId: JobId, now: Micros, maxAttempts: nat)
    requires CoreOf(db) && jobId !in db.jobs && maxAttempts >= 1
    ensures CoreOf(OrElse(Enqueue(db, request, recording, jobId, now, maxAttempts), db))
  {
    hide Core, NoActive;
    if Enqueue(db, request, recording, jobId, now, maxAttempts).Success? {
      var kind := RequestedKind(request);
      var job := FreshJob(OfRecording(recording), kind, if kind.Full? then ChainedFollowUp(kind) else None,
                          maxAttempts, now, now);
      InsertKeepsCore(db.recordings, db.jobs, jobId, job);
    }
  }

  lemma QueueSummaryKeeps(db: Db, day: Day, jobId: JobId, now: Micros, maxAttempts: nat)
    requires CoreOf(db) && jobId !in db.jobs && maxAttempts >= 1
    ensures CoreOf(OrElse(QueueSummary(db, day, jobId, now, maxAttempts), db))
  {
    hide Core, NoActive, Digests;
    var job := FreshJob(OfDay(day), DailySummary, None, maxAttempts, now, now);
    if NoActive(db.jobs, OfDay(day)) {
      InsertKeepsCore(db.recordings, db.jobs, jobId, job);
    }
  }

  lemma EditKeepsStatus(rec: Recording, edit: Edit)
    ensures ApplyEdit(rec, edit).Success? ==>
              ApplyEdit(rec, edit).value.status == rec.status && ApplyEdit(rec, edit).value.startedAt == rec.startedAt
  {
    hide TranscriptEdit.Edited, TranslationWrites.EditRows;
  }

  lemma SaveKeeps(db: Db, recording: RecordingId, expectedRevision: nat, edit: Edit)
    requires CoreOf(db)
    ensures CoreOf(OrElse(Save(db, recording, expectedRevision, edit), db))
  {
    hide Core, ApplyEdit, NoActive;
    if Save(db, recording, expectedRevision, edit).Success? {
      var rec := ApplyEdit(db.recordings[recording], edit);
      EditKeepsStatus(db.recordings[recording], edit);
      ContentKeepsCore(db.recordings, db.jobs, recording, rec.value);
    }
  }

  lemma DeleteKeeps(db: Db, recording: RecordingId)
    requires CoreOf(db)
    ensures CoreOf(OrElse(Delete(db, recording), db))
  {
    hide Core, NoActive, JobsWithout, WithoutRecording;
    DeleteKeepsCore(db.recordings, db.jobs, recording);
  }

  // ----- any step -----

  /** The job invariants, and the identifiers seen so far cover those in use. */
  ghost predicate WorldCore(w: World) {
    CoreOf(w.db) && w.db.jobs.Keys <= w.usedJobs && w.db.recordings.Keys <= w.usedRecordings
  }

  lemma StepKeepsCore(cfg: Config, w: World, now: Micros, action: Action)
    requires cfg.Valid() && Possible(w, now, action) && WorldCore(w)
    ensures WorldCore(Step(cfg, w, now, action))
  {
    hide Core, Upload, Enqueue, QueueSummary, Claim, Heartbeat, AdvanceStage, Complete, Fail, Recover, Save, Delete,
         Answers, Digests, Issued, Inputs, BuiltFrom, CurrentReadings;
    var db := w.db;
    match action
    case DoUpload(recording, startedAt, duration, jobId, uploadedAt) =>
      UploadKeeps(db, recording, startedAt, duration, jobId, uploadedAt, now, cfg.maxAttempts);
    case DoEnqueue(request, recording, jobId) => EnqueueKeeps(db, request, recording, jobId, now, cfg.maxAttempts);
    case DoQueueSummary(day, jobId) => QueueSummaryKeeps(db, day, jobId, now, cfg.maxAttempts);
    case DoClaim(id, worker, _, token) => ClaimKeeps(db, id, now, token, worker, cfg.lease);
    case DoHeartbeat(claim) => HeartbeatKeeps(db, claim, now, cfg.lease);
    case DoAdvance(claim, stage) => AdvanceKeeps(db, claim, stage, now, cfg.lease);
    case DoRead(_, _) =>
    case DoComplete(claim, outcome, jobId) => CompleteKeeps(db, claim, InputOf(w, claim), outcome, now, jobId);
    case DoFail(claim, failure, jobId) => FailKeeps(db, claim, failure, now, cfg.policy, jobId);
    case DoRecover(id, jobId) => RecoverKeeps(db, id, now, cfg.policy, jobId);
    case DoSave(recording, expectedRevision, edit) => SaveKeeps(db, recording, expectedRevision, edit);
    case DoDelete(recording) => DeleteKeeps(db, recording);
    case DoSetSwitches(_, _) =>
  }

  /** In every reachable state: one active job per recording and per day, tokens and leases exactly while
      processing, attempts within bounds, and recording status in step with its transcription job. */
  lemma {:induction false} RunKeepsCore(cfg: Config, worlds: seq<World>, times: seq<Micros>, actions: seq<Action>, i: nat)
    requires IsRun(cfg, worlds, times, actions) && i < |worlds|
    ensures WorldCore(worlds[i])
  {
    hide Core, Step, Possible, Next;
    if i == 0 {
      EmptyCore();
    } else {
      RunKeepsCore(cfg, worlds, times, actions, i - 1);
      assert Follows(cfg, worlds[i - 1], times[i - 1], actions[i - 1], worlds[i - 1 + 1]);
      StepKeepsCore(cfg, worlds[i - 1], times[i - 1], actions[i - 1]);
    }
  }

  lemma EmptyCore()
    ensures WorldCore(Empty)
  {
  }
}
