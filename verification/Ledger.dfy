/** The activity log as a ledger of each job's attempts (activity/repository.py and its callers). */
module Ledger {
  import opened Prelude
  import opened Days
  import opened Schema
  import opened Queue
  import opened Services
  import opened Jobs
  import opened Protocol
  import opened Keeping
  import opened Fencing

  predicate Queues(event: ActivityType) {
    event.JobQueued? || event.ManualRetryQueued?
  }

  predicate Ends(event: ActivityType) {
    event.RetryScheduled? || event.LeaseRecovered? || event.ProcessingCompleted? || event.ProcessingFailed?
  }

  datatype Tally = Tally(queued: nat, started: nat, ended: nat)

  function Counted(t: Tally, event: ActivityType): Tally {
    if Queues(event) then t.(queued := t.queued + 1)
    else if event.ProcessingStarted? then t.(started := t.started + 1)
    else if Ends(event) then t.(ended := t.ended + 1)
    else t
  }

  /** How often a job was queued, started and ended, according to the log. */
  function TallyOf(log: seq<Activity>, id: JobId): Tally {
    if log == [] then Tally(0, 0, 0)
    else
      var last := log[|log| - 1];
      var before := TallyOf(log[..|log| - 1], id);
      if last.job == id then Counted(before, last.event) else before
  }

  /** What the log must show for a job: queued once, started at every attempt, every attempt but a running one ended. */
  function Expected(job: Job): Tally
    requires job.status.Processing? ==> job.attempts >= 1
  {
    Tally(1, job.attempts, job.attempts - if job.status.Processing? then 1 else 0)
  }

  /** No event is recorded twice. */
  ghost predicate NoRepeat(log: seq<Activity>) {
    forall i, j :: 0 <= i < j < |log| ==> !SameKey(log[i], log[j])
  }

  /** An entry belongs to its job's recording and to an attempt the job has had. */
  predicate EntryOk(job: Job, e: Activity) {
    && job.scope == OfRecording(e.recording) && e.attempt <= job.attempts
    && (Ends(e.event) && job.status.Processing? ==> e.attempt < job.attempts)
  }

  ghost predicate EntriesOk(jobs: map<JobId, Job>, log: seq<Activity>, used: set<JobId>) {
    forall i :: 0 <= i < |log| ==> log[i].job in used && (log[i].job in jobs ==> EntryOk(jobs[log[i].job], log[i]))
  }

  ghost predicate Balanced(jobs: map<JobId, Job>, log: seq<Activity>) {
    forall id :: id in jobs && jobs[id].scope.OfRecording? ==>
      (jobs[id].status.Processing? ==> jobs[id].attempts >= 1) && TallyOf(log, id) == Expected(jobs[id])
  }

  ghost predicate LedgerOk(jobs: map<JobId, Job>, log: seq<Activity>, used: set<JobId>) {
    NoRepeat(log) && EntriesOk(jobs, log, used) && Balanced(jobs, log)
  }

  lemma AppendTally(log: seq<Activity>, a: Activity, id: JobId)
    ensures TallyOf(log + [a], id) == if a.job == id then Counted(TallyOf(log, id), a.event) else TallyOf(log, id)
  {
    assert (log + [a])[..|log|] == log;
  }

  lemma AppendKeepsNoRepeat(log: seq<Activity>, a: Activity)
    requires NoRepeat(log)
    ensures NoRepeat(Append(log, a))
  {
  }

  lemma {:induction false} NoEntriesNoTally(log: seq<Activity>, id: JobId)
    requires forall i :: 0 <= i < |log| ==> log[i].job != id
    ensures TallyOf(log, id) == Tally(0, 0, 0)
  {
    if log != [] {
      NoEntriesNoTally(log[..|log| - 1], id);
    }
  }

  /** The lifecycle events are never mistaken for ones already recorded. */
  lemma RecordedAfresh(jobs: map<JobId, Job>, log: seq<Activity>, used: set<JobId>, id: JobId, job: Job, a: Activity)
    requires EntriesOk(jobs, log, used) && a.job == id && a.attempt == job.attempts
    requires
      || id !in used
      || (id in jobs && job.attempts == jobs[id].attempts + 1)
      || (id in jobs && job.attempts == jobs[id].attempts && jobs[id].status.Processing? && Ends(a.event))
    ensures Append(log, a) == log + [a]
  {
    forall i | 0 <= i < |log|
      ensures !SameKey(log[i], a)
    {
      if log[i].job == id {
        assert log[i].job in used;
      }
    }
  }

  /** One job moves and its event is logged. */
  lemma PutKeepsLedger(jobs: map<JobId, Job>, log: seq<Activity>, used: set<JobId>, id: JobId, job: Job,
                       event: ActivityType, stage: JobStage, at: Micros)
    requires LedgerOk(jobs, log, used) && id in jobs && id in used && job.scope == jobs[id].scope
    requires
      || (event.ProcessingStarted? && !jobs[id].status.Processing? && job.status.Processing? && job.attempts == jobs[id].attempts + 1)
      || (Ends(event) && jobs[id].status.Processing? && !job.status.Processing? && job.attempts == jobs[id].attempts)
      || (event.StageStarted? && jobs[id].status.Processing? && job.status.Processing? && job.attempts == jobs[id].attempts)
    ensures LedgerOk(jobs[id := job], Logged(log, id, job, event, stage, at), used)
  {
    if job.scope.OfRecording? {
      hide SameKey;
      var a := Activity(job.scope.recording, id, event, stage, job.attempts, at);
      AppendKeepsNoRepeat(log, a);
      if !event.StageStarted? {
        RecordedAfresh(jobs, log, used, id, job, a);
      }
      forall other
        ensures TallyOf(Append(log, a), other)
             == if other == id && !event.StageStarted? then Counted(TallyOf(log, other), event) else TallyOf(log, other)
      {
        AppendTally(log, a, other);
      }
      EntryBelongs(jobs, log, used, id, job, a);
      BalanceMoves(jobs, log, Append(log, a), id, job, event);
    } else {
      DayMovesNothing(jobs, log, used, id, job);
    }
  }

  lemma EntryBelongs(jobs: map<JobId, Job>, log: seq<Activity>, used: set<JobId>, id: JobId, job: Job, a: Activity)
    requires EntriesOk(jobs, log, used) && id in jobs && id in used && job.scope == jobs[id].scope
    requires a.job == id && job.scope == OfRecording(a.recording) && a.attempt == job.attempts
    requires job.attempts >= jobs[id].attempts
    requires job.status.Processing? ==> !Ends(a.event)
    requires job.status.Processing? ==> job.attempts > jobs[id].attempts || jobs[id].status.Processing?
    ensures EntriesOk(jobs[id := job], Append(log, a), used)
  {
  }

  lemma BalanceMoves(jobs: map<JobId, Job>, log: seq<Activity>, after: seq<Activity>, id: JobId, job: Job, event: ActivityType)
    requires Balanced(jobs, log) && id in jobs && job.scope == jobs[id].scope
    requires forall other :: TallyOf(after, other)
               == if other == id && !event.StageStarted? then Counted(TallyOf(log, other), event) else TallyOf(log, other)
    requires
      || (event.ProcessingStarted? && !jobs[id].status.Processing? && job.status.Processing? && job.attempts == jobs[id].attempts + 1)
      || (Ends(event) && jobs[id].status.Processing? && !job.status.Processing? && job.attempts == jobs[id].attempts)
      || (event.StageStarted? && jobs[id].status.Processing? && job.status.Processing? && job.attempts == jobs[id].attempts)
    ensures Balanced(jobs[id := job], after)
  {
    hide TallyOf;
  }

  lemma DayMovesNothing(jobs: map<JobId, Job>, log: seq<Activity>, used: set<JobId>, id: JobId, job: Job)
    requires LedgerOk(jobs, log, used) && id in jobs && job.scope == jobs[id].scope && job.scope.OfDay?
    ensures LedgerOk(jobs[id := job], log, used)
  {
    hide TallyOf, SameKey;
  }

  /** A job is renewed without an event. */
  lemma RenewKeepsLedger(jobs: map<JobId, Job>, log: seq<Activity>, used: set<JobId>, id: JobId, job: Job)
    requires LedgerOk(jobs, log, used) && id in jobs && job.scope == jobs[id].scope
    requires job.attempts == jobs[id].attempts && job.status == jobs[id].status
    ensures LedgerOk(jobs[id := job], log, used)
  {
    hide TallyOf, SameKey;
  }

  /** A job is queued under an id never used before. */
  lemma InsertKeepsLedger(jobs: map<JobId, Job>, log: seq<Activity>, used: set<JobId>, id: JobId, job: Job,
                          event: ActivityType, at: Micros)
    requires LedgerOk(jobs, log, used) && jobs.Keys <= used && id !in used
    requires job.status.Queued? && job.attempts == 0 && Queues(event)
    ensures LedgerOk(jobs[id := job], Logged(log, id, job, event, StageQueued, at), used + {id})
  {
    if job.scope.OfRecording? {
      hide SameKey, LedgerOk, Append;
      var a := Activity(job.scope.recording, id, event, StageQueued, job.attempts, at);
      InsertedEntry(jobs, log, used, id, job, a);
    }
  }

  lemma InsertedEntry(jobs: map<JobId, Job>, log: seq<Activity>, used: set<JobId>, id: JobId, job: Job, a: Activity)
    requires LedgerOk(jobs, log, used) && jobs.Keys <= used && id !in used
    requires job.status.Queued? && job.attempts == 0 && job.scope == OfRecording(a.recording)
    requires a == Activity(a.recording, id, a.event, StageQueued, 0, a.at) && Queues(a.event)
    ensures LedgerOk(jobs[id := job], Append(log, a), used + {id})
  {
    hide SameKey, Append, TallyOf;
    AppendKeepsNoRepeat(log, a);
    RecordedAfresh(jobs, log, used, id, job, a);
    NoEntriesNoTally(log, id);
    forall other
      ensures TallyOf(log + [a], other) == if other == id then Tally(1, 0, 0) else TallyOf(log, other)
    {
      AppendTally(log, a, other);
    }
  }

  lemma {:induction false} WithoutKeepsTally(jobs: map<JobId, Job>, log: seq<Activity>, recording: RecordingId, id: JobId)
    requires forall i :: 0 <= i < |log| && log[i].job == id ==> log[i].recording != recording
    ensures TallyOf(WithoutRecording(log, recording), id) == TallyOf(log, id)
  {
    if log != [] {
      var n := |log| - 1;
      WithoutKeepsTally(jobs, log[..n], recording, id);
      if log[n].recording != recording {
        AppendTally(WithoutRecording(log[..n], recording), log[n], id);
      }
    }
  }

  lemma {:induction false} WithoutIsPart(log: seq<Activity>, recording: RecordingId)
    ensures forall e :: e in WithoutRecording(log, recording) ==> e in log
    ensures NoRepeat(log) ==> NoRepeat(WithoutRecording(log, recording))
  {
    if log != [] {
      var n := |log| - 1;
      WithoutIsPart(log[..n], recording);
      var rest := WithoutRecording(log[..n], recording);
      if NoRepeat(log) && log[n].recording != recording {
        forall i | 0 <= i < |rest|
          ensures !SameKey(rest[i], log[n])
        {
          assert rest[i] in rest;
        }
      }
    }
  }

  lemma DeleteKeepsLedger(jobs: map<JobId, Job>, log: seq<Activity>, used: set<JobId>, recording: RecordingId)
    requires LedgerOk(jobs, log, used)
    ensures LedgerOk(JobsWithout(jobs, OfRecording(recording)), WithoutRecording(log, recording), used)
  {
    hide SameKey;
    var jobs', log' := JobsWithout(jobs, OfRecording(recording)), WithoutRecording(log, recording);
    WithoutIsPart(log, recording);
    forall i | 0 <= i < |log'|
      ensures log'[i].job in used && (log'[i].job in jobs' ==> EntryOk(jobs'[log'[i].job], log'[i]))
    {
      assert log'[i] in log';
    }
    forall id | id in jobs' && jobs'[id].scope.OfRecording?
      ensures TallyOf(log', id) == TallyOf(log, id)
    {
      WithoutKeepsTally(jobs, log, recording, id);
    }
  }

  // ----- transactions -----

  ghost predicate LedgerOf(db: Db, used: set<JobId>) {
    LedgerOk(db.jobs, db.log, used) && db.jobs.Keys <= used
  }

  lemma LedgerGrows(db: Db, used: set<JobId>, more: set<JobId>)
    requires LedgerOf(db, used) && used <= more
    ensures LedgerOf(db, more)
  {
    hide TallyOf, SameKey, EntryOk;
  }

  lemma HandOffKeepsLedger(db: Db, job: Job, newId: JobId, now: Micros, used: set<JobId>)
    requires LedgerOf(db, used) && newId !in used
    ensures LedgerOf(HandOff(db, job, newId, now), used + {newId})
  {
    hide LedgerOk, Logged;
    LedgerGrows(db, used, used + {newId});
    match Successor(db, job)
    case None =>
    case Some(kind) =>
      InsertKeepsLedger(db.jobs, db.log, used, newId,
                        FreshJob(job.scope, kind, ChainedFollowUp(kind), job.maxAttempts, now + 1, now), JobQueued, now + 1);
  }

  lemma EndKeepsLedger(db: Db, used: set<JobId>, id: JobId, job: Job, status: RecordingStatus, event: ActivityType,
                       stage: JobStage, now: Micros)
    requires LedgerOf(db, used) && id in db.jobs && db.jobs[id].status.Processing? && !job.status.Processing?
    requires SameIdentity(db.jobs[id], job) && job.attempts == db.jobs[id].attempts && Ends(event)
    ensures LedgerOf(Ended(db, id, job, status, Logged(db.log, id, job, event, stage, now)), used)
  {
    hide LedgerOk, Logged;
    PutKeepsLedger(db.jobs, db.log, used, id, job, event, stage, now);
  }

  lemma FinishKeepsLedger(db: Db, id: JobId, now: Micros, newId: JobId, used: set<JobId>)
    requires LedgerOf(db, used) && id in db.jobs && db.jobs[id].status.Processing? && newId !in used
    ensures LedgerOf(Finish(db, id, now, newId), used + {newId})
  {
    hide LedgerOf, Logged, HandOff;
    var job := Done(db.jobs[id], now);
    EndKeepsLedger(db, used, id, job, RecCompleted, ProcessingCompleted, StageCompleted, now);
    HandOffKeepsLedger(Ended(db, id, job, RecCompleted, Logged(db.log, id, job, ProcessingCompleted, StageCompleted, now)),
                       job, newId, now, used);
  }

  lemma RequeueKeepsLedger(db: Db, id: JobId, note: FailureNote, now: Micros, policy: RetryPolicy, event: ActivityType,
                           used: set<JobId>)
    requires policy.Valid() && LedgerOf(db, used) && id in db.jobs && Ends(event)
    requires db.jobs[id].status.Processing? && db.jobs[id].attempts >= 1
    ensures LedgerOf(Requeue(db, id, note, now, policy, event), used)
  {
    hide LedgerOf, Logged;
    EndKeepsLedger(db, used, id, Requeued(db.jobs[id], note, now, policy), RecQueued, event, note.stage, now);
  }

  lemma GiveUpKeepsLedger(db: Db, id: JobId, note: FailureNote, now: Micros, event: ActivityType, newId: JobId,
                          used: set<JobId>)
    requires LedgerOf(db, used) && id in db.jobs && db.jobs[id].status.Processing? && newId !in used && Ends(event)
    ensures LedgerOf(GiveUp(db, id, note, now, event, newId), used + {newId})
  {
    hide LedgerOf, Logged, HandOff;
    var job := GivenUp(db.jobs[id], note, now);
    EndKeepsLedger(db, used, id, job, RecFailed, event, note.stage, now);
    var ended := Ended(db, id, job, RecFailed, Logged(db.log, id, job, event, note.stage, now));
    LedgerGrows(ended, used, used + {newId});
    HandOffKeepsLedger(ended, job, newId, now, used);
  }

  lemma CompleteKeepsLedger(db: Db, claim: ClaimedJob, input: Option<Input>, outcome: Outcome, now: Micros, newId: JobId,
                            used: set<JobId>)
    requires CoreOf(db) && LedgerOf(db, used) && newId !in used && Answers(claim.kind, input, outcome)
    ensures LedgerOf(OrElse(Complete(db, claim, input, outcome, now, newId), db), used + {newId})
  {
    hide CoreOf, LedgerOk, Persist, Finish, Answers;
    LedgerGrows(db, used, used + {newId});
    if Owns(db.jobs, claim) {
      PersistKeeps(db, claim, input, outcome);
      var r := Persist(db, claim, input, outcome);
      if r.Success? {
        FinishKeepsLedger(r.value, claim.id, now, newId, used);
      }
    }
  }

  lemma FailKeepsLedger(db: Db, claim: ClaimedJob, failure: JobFailure, now: Micros, policy: RetryPolicy, newId: JobId,
                        used: set<JobId>)
    requires policy.Valid() && LedgerOf(db, used) && newId !in used
    ensures LedgerOf(OrElse(Fail(db, claim, failure, now, policy, newId), db), used + {newId})
  {
    hide LedgerOf, Requeue, GiveUp;
    LedgerGrows(db, used, used + {newId});
    if Owns(db.jobs, claim) {
      var job := db.jobs[claim.id];
      var note := FailureNote(if failure.stage.Some? then failure.stage.value else job.stage, failure.code, now);
      if !CanRetry(failure.retryable, job) {
        GiveUpKeepsLedger(db, claim.id, note, now, ProcessingFailed, newId, used);
      } else if job.attempts >= 1 {
        RequeueKeepsLedger(db, claim.id, note, now, policy, RetryScheduled, used);
        LedgerGrows(Requeue(db, claim.id, note, now, policy, RetryScheduled), used, used + {newId});
      }
    }
  }

  lemma RecoverKeepsLedger(db: Db, id: JobId, now: Micros, policy: RetryPolicy, newId: JobId, used: set<JobId>)
    requires policy.Valid() && LedgerOf(db, used) && id in db.jobs && Expired(db.jobs[id], now) && newId !in used
    ensures LedgerOf(OrElse(Recover(db, id, now, policy, newId), db), used + {newId})
  {
    hide LedgerOf, Requeue, GiveUp;
    LedgerGrows(db, used, used + {newId});
    var job := db.jobs[id];
    var note := FailureNote(job.stage, "worker_lease_expired", now);
    if !CanRetry(true, job) {
      GiveUpKeepsLedger(db, id, note, now, LeaseRecovered, newId, used);
    } else if job.attempts >= 1 {
      RequeueKeepsLedger(db, id, note, now, policy, LeaseRecovered, used);
      LedgerGrows(Requeue(db, id, note, now, policy, LeaseRecovered), used, used + {newId});
    }
  }

  lemma ClaimKeepsLedger(db: Db, id: JobId, now: Micros, token: Token, worker: string, lease: Micros, used: set<JobId>)
    requires LedgerOf(db, used) && id in db.jobs && db.jobs[id].status.Queued?
    ensures LedgerOf(Claim(db, id, now, token, worker, lease), used)
  {
    hide LedgerOk, Logged;
    var job := Claimed(db.jobs[id], now, token, worker, lease);
    PutKeepsLedger(db.jobs, db.log, used, id, job, ProcessingStarted, job.stage, now);
  }

  lemma RenewalKeepsLedger(db: Db, claim: ClaimedJob, stage: JobStage, now: Micros, lease: Micros, used: set<JobId>)
    requires LedgerOf(db, used)
    requires Owns(db.jobs, claim) ==> db.jobs[claim.id].scope == claim.scope && db.jobs[claim.id].attempts == claim.attempts
    ensures LedgerOf(OrElse(Heartbeat(db, claim, now, lease), db), used)
    ensures LedgerOf(OrElse(AdvanceStage(db, claim, stage, now, lease), db), used)
  {
    hide LedgerOk, Logged;
    if Owns(db.jobs, claim) {
      var job := Renewed(db.jobs[claim.id], now, lease);
      RenewKeepsLedger(db.jobs, db.log, used, claim.id, job);
      PutKeepsLedger(db.jobs, db.log, used, claim.id, job.(stage := stage), StageStarted, stage, now);
    }
  }

  lemma RequestsKeepLedger(cfg: Config, w: World, now: Micros, action: Action)
    requires cfg.Valid() && Possible(w, now, action) && LedgerOf(w.db, w.usedJobs)
    requires action.DoUpload? || action.DoEnqueue? || action.DoQueueSummary?
    ensures LedgerOf(Next(cfg, w, now, action), w.usedJobs + {action.jobId})
  {
    hide LedgerOk, Logged, NoActive, Digests;
    var db, used := w.db, w.usedJobs;
    LedgerGrows(db, used, used + {action.jobId});
    match action
    case DoUpload(recording, startedAt, duration, jobId, uploadedAt) =>
      InsertKeepsLedger(db.jobs, db.log, used, jobId,
        FreshJob(OfRecording(recording), Full, ChainedFollowUp(Full), cfg.maxAttempts, uploadedAt, now), JobQueued, uploadedAt);
    case DoEnqueue(request, recording, jobId) =>
      var kind := RequestedKind(request);
      InsertKeepsLedger(db.jobs, db.log, used, jobId,
        FreshJob(OfRecording(recording), kind, if kind.Full? then ChainedFollowUp(kind) else None, cfg.maxAttempts, now, now),
        if request.CreateJob? then JobQueued else ManualRetryQueued, now);
    case DoQueueSummary(day, jobId) =>
      var job := FreshJob(OfDay(day), DailySummary, None, cfg.maxAttempts, now, now);
      InsertKeepsLedger(db.jobs, db.log, used, jobId, job, JobQueued, now);
      assert Logged(db.log, jobId, job, JobQueued, StageQueued, now) == db.log by {
        DayLogsNothing(db.log, jobId, job, now);
      }
  }

  lemma DayLogsNothing(log: seq<Activity>, id: JobId, job: Job, now: Micros)
    requires job.scope.OfDay?
    ensures Logged(log, id, job, JobQueued, StageQueued, now) == log
  {
  }

  lemma EditsKeepLedger(db: Db, recording: RecordingId, expectedRevision: nat, edit: Edit, used: set<JobId>)
    requires LedgerOf(db, used)
    ensures LedgerOf(OrElse(Save(db, recording, expectedRevision, edit), db), used)
    ensures LedgerOf(OrElse(Delete(db, recording), db), used)
  {
    hide LedgerOk, NoActive, ApplyEdit, WithoutRecording, HasJob;
    DeleteKeepsLedger(db.jobs, db.log, used, recording);
  }

  lemma StepKeepsLedger(cfg: Config, w: World, now: Micros, action: Action)
    requires cfg.Valid() && Possible(w, now, action) && Fenced(w) && LedgerOf(w.db, w.usedJobs)
    ensures LedgerOf(Step(cfg, w, now, action).db, Step(cfg, w, now, action).usedJobs)
  {
    hide CoreOf, LedgerOf, Next, Issued, Inputs, BuiltFrom, CurrentReadings;
    NextLedger(cfg, w, now, action);
    LedgerGrows(Next(cfg, w, now, action), w.usedJobs + Drawn(action), Step(cfg, w, now, action).usedJobs);
  }

  lemma NextLedger(cfg: Config, w: World, now: Micros, action: Action)
    requires cfg.Valid() && Possible(w, now, action) && Fenced(w) && LedgerOf(w.db, w.usedJobs)
    ensures LedgerOf(Next(cfg, w, now, action), w.usedJobs + Drawn(action))
  {
    hide CoreOf, LedgerOf, Upload, Enqueue, QueueSummary, Claim, Heartbeat, AdvanceStage, Complete, Fail, Recover, Save,
         Delete, Answers, Digests;
    var db, used := w.db, w.usedJobs;
    assert used + {} == used;
    match action
    case DoUpload(_, _, _, _, _) => RequestsKeepLedger(cfg, w, now, action);
    case DoEnqueue(_, _, _) => RequestsKeepLedger(cfg, w, now, action);
    case DoQueueSummary(_, _) => RequestsKeepLedger(cfg, w, now, action);
    case DoClaim(id, worker, _, token) => ClaimKeepsLedger(db, id, now, token, worker, cfg.lease, used);
    case DoHeartbeat(claim) =>
      ClaimDescribesRow(w, claim);
      RenewalKeepsLedger(db, claim, Preprocessing, now, cfg.lease, used);
    case DoAdvance(claim, stage) =>
      ClaimDescribesRow(w, claim);
      RenewalKeepsLedger(db, claim, stage, now, cfg.lease, used);
    case DoRead(_, _) =>
    case DoComplete(claim, outcome, jobId) =>
      CompleteKeepsLedger(db, claim, InputOf(w, claim), outcome, now, jobId, used);
    case DoFail(claim, failure, jobId) => FailKeepsLedger(db, claim, failure, now, cfg.policy, jobId, used);
    case DoRecover(id, jobId) => RecoverKeepsLedger(db, id, now, cfg.policy, jobId, used);
    case DoSave(recording, expectedRevision, edit) => EditsKeepLedger(db, recording, expectedRevision, edit, used);
    case DoDelete(recording) => EditsKeepLedger(db, recording, 0, EditTranslations([]), used);
    case DoSetSwitches(_, _) => SwitchesKeepLedger(db, SetSwitches(db, action.analysis, action.translation), used);
  }

  lemma ClaimDescribesRow(w: World, claim: ClaimedJob)
    requires Fenced(w) && Holds(w, claim)
    ensures Owns(w.db.jobs, claim) ==>
              w.db.jobs[claim.id].scope == claim.scope && w.db.jobs[claim.id].attempts == claim.attempts
  {
    hide Fenced;
    if Owns(w.db.jobs, claim) {
      OwnedIsLatest(w, claim);
    }
  }

  lemma SwitchesKeepLedger(db: Db, after: Db, used: set<JobId>)
    requires LedgerOf(db, used) && after.jobs == db.jobs && after.log == db.log
    ensures LedgerOf(after, used)
  {
  }

  /** In every reachable state the ledger balances: no event twice, and each recording job was queued
      once, started at each of its attempts, and ended at each but a running one. */
  lemma {:induction false} RunKeepsLedger(cfg: Config, worlds: seq<World>, times: seq<Micros>, actions: seq<Action>, i: nat)
    requires IsRun(cfg, worlds, times, actions) && i < |worlds|
    ensures LedgerOf(worlds[i].db, worlds[i].usedJobs)
  {
    hide Fenced, Step, Possible, LedgerOf;
    if i == 0 {
      EmptyLedger();
    } else {
      RunKeepsLedger(cfg, worlds, times, actions, i - 1);
      RunKeepsFence(cfg, worlds, times, actions, i - 1);
      assert Follows(cfg, worlds[i - 1], times[i - 1], actions[i - 1], worlds[i - 1 + 1]);
      StepKeepsLedger(cfg, worlds[i - 1], times[i - 1], actions[i - 1]);
    }
  }

  lemma EmptyLedger()
    ensures LedgerOf(Empty.db, Empty.usedJobs)
  {
  }
}
