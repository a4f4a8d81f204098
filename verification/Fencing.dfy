/** The life of a job, and what its claim tokens fence, over whole runs. */
module Fencing {
  import opened Prelude
  import opened Days
  import opened Schema
  import opened Queue
  import opened Services
  import opened Jobs
  import opened Protocol
  import opened Keeping

  // ----- the only moves a job makes -----

  predicate Terminal(job: Job) {
    job.status.Completed? || job.status.Failed?
  }

  /** A running job goes on under the same claim, or ends it; only a claim starts one. */
  predicate Moves(id: JobId, a: Job, b: Job, claimed: Option<ClaimedJob>, now: Micros) {
    || b == a
    || (SameIdentity(a, b) && a.status.Processing? && b.attempts == a.attempts
        && (b.status.Processing? ==> b.claimToken == a.claimToken && b.workerId == a.workerId)
        && (b.status.Queued? ==> b.availableAt > now))
    || (SameIdentity(a, b) && a.status.Queued? && b.status.Processing? && b.attempts == a.attempts + 1
        && b.claimToken.Some? && b.workerId.Some?
        && claimed == Some(ClaimOf(id, b, b.claimToken.value, b.workerId.value)))
  }

  /** Rows in the table after a step: moved, or newly queued. */
  ghost predicate Evolve(jobs: map<JobId, Job>, after: map<JobId, Job>, claimed: Option<ClaimedJob>, now: Micros) {
    forall id :: id in after ==>
      if id in jobs then Moves(id, jobs[id], after[id], claimed, now)
      else after[id].status.Queued? && after[id].attempts == 0
  }

  ghost function ClaimMade(w: World, action: Action): Option<ClaimedJob>
    requires action.DoClaim? ==> action.id in w.db.jobs
  {
    if action.DoClaim? then
      Some(ClaimOf(action.id, w.db.jobs[action.id].(attempts := w.db.jobs[action.id].attempts + 1),
                   action.token, action.worker))
    else None
  }

  lemma PutEvolves(jobs: map<JobId, Job>, id: JobId, job: Job, now: Micros)
    requires id in jobs && Moves(id, jobs[id], job, None, now)
    ensures Evolve(jobs, jobs[id := job], None, now)
  {
  }

  lemma HandOffEvolves(db: Db, job: Job, newId: JobId, now: Micros, jobs: map<JobId, Job>)
    requires Evolve(jobs, db.jobs, None, now) && newId !in jobs
    ensures Evolve(jobs, HandOff(db, job, newId, now).jobs, None, now)
  {
    hide Moves;
  }

  lemma FinishEvolves(db: Db, id: JobId, now: Micros, newId: JobId)
    requires id in db.jobs && db.jobs[id].status.Processing? && newId !in db.jobs
    ensures Evolve(db.jobs, Finish(db, id, now, newId).jobs, None, now)
  {
    hide HandOff, Logged, WithStatus, Evolve;
    var job := Done(db.jobs[id], now);
    PutEvolves(db.jobs, id, job, now);
    HandOffEvolves(Ended(db, id, job, RecCompleted, Logged(db.log, id, job, ProcessingCompleted, StageCompleted, now)),
                   job, newId, now, db.jobs);
  }

  lemma RequeueEvolves(db: Db, id: JobId, note: FailureNote, now: Micros, policy: RetryPolicy, event: ActivityType)
    requires policy.Valid() && id in db.jobs && db.jobs[id].status.Processing? && db.jobs[id].attempts >= 1
    ensures Evolve(db.jobs, Requeue(db, id, note, now, policy, event).jobs, None, now)
  {
    hide Evolve, Logged, WithStatus;
    PutEvolves(db.jobs, id, Requeued(db.jobs[id], note, now, policy), now);
  }

  lemma GiveUpEvolves(db: Db, id: JobId, note: FailureNote, now: Micros, event: ActivityType, newId: JobId)
    requires id in db.jobs && db.jobs[id].status.Processing? && newId !in db.jobs
    ensures Evolve(db.jobs, GiveUp(db, id, note, now, event, newId).jobs, None, now)
  {
    hide HandOff, Logged, WithStatus, Evolve;
    var job := GivenUp(db.jobs[id], note, now);
    PutEvolves(db.jobs, id, job, now);
    HandOffEvolves(Ended(db, id, job, RecFailed, Logged(db.log, id, job, event, note.stage, now)), job, newId, now, db.jobs);
  }

  lemma CompleteEvolves(db: Db, claim: ClaimedJob, input: Option<Input>, outcome: Outcome, now: Micros, newId: JobId)
    requires CoreOf(db) && newId !in db.jobs && Answers(claim.kind, input, outcome)
    ensures Evolve(db.jobs, OrElse(Complete(db, claim, input, outcome, now, newId), db).jobs, None, now)
  {
    hide CoreOf, Persist, Finish, Answers, Evolve;
    SameEvolves(db.jobs, now);
    if Owns(db.jobs, claim) {
      PersistKeeps(db, claim, input, outcome);
      var r := Persist(db, claim, input, outcome);
      if r.Success? {
        FinishEvolves(r.value, claim.id, now, newId);
      }
    }
  }

  lemma SameEvolves(jobs: map<JobId, Job>, now: Micros)
    ensures Evolve(jobs, jobs, None, now)
  {
  }

  lemma FailEvolves(db: Db, claim: ClaimedJob, failure: JobFailure, now: Micros, policy: RetryPolicy, newId: JobId)
    requires policy.Valid() && newId !in db.jobs
    ensures Evolve(db.jobs, OrElse(Fail(db, claim, failure, now, policy, newId), db).jobs, None, now)
  {
    hide Requeue, GiveUp, Evolve;
    SameEvolves(db.jobs, now);
    if Owns(db.jobs, claim) {
      var job := db.jobs[claim.id];
      var note := FailureNote(if failure.stage.Some? then failure.stage.value else job.stage, failure.code, now);
      if CanRetry(failure.retryable, job) {
        if job.attempts >= 1 {
          RequeueEvolves(db, claim.id, note, now, policy, RetryScheduled);
        }
      } else {
        GiveUpEvolves(db, claim.id, note, now, ProcessingFailed, newId);
      }
    }
  }

  lemma RecoverEvolves(db: Db, id: JobId, now: Micros, policy: RetryPolicy, newId: JobId)
    requires policy.Valid() && id in db.jobs && Expired(db.jobs[id], now) && newId !in db.jobs
    ensures Evolve(db.jobs, OrElse(Recover(db, id, now, policy, newId), db).jobs, None, now)
  {
    hide Requeue, GiveUp, Evolve;
    SameEvolves(db.jobs, now);
    var note := FailureNote(db.jobs[id].stage, "worker_lease_expired", now);
    if CanRetry(true, db.jobs[id]) {
      if db.jobs[id].attempts >= 1 {
        RequeueEvolves(db, id, note, now, policy, LeaseRecovered);
      }
    } else {
      GiveUpEvolves(db, id, note, now, LeaseRecovered, newId);
    }
  }

  lemma RenewEvolves(db: Db, claim: ClaimedJob, stage: JobStage, now: Micros, lease: Micros)
    ensures Evolve(db.jobs, OrElse(Heartbeat(db, claim, now, lease), db).jobs, None, now)
    ensures Evolve(db.jobs, OrElse(AdvanceStage(db, claim, stage, now, lease), db).jobs, None, now)
  {
    hide Evolve, Logged;
    SameEvolves(db.jobs, now);
    if Owns(db.jobs, claim) {
      var job := Renewed(db.jobs[claim.id], now, lease);
      PutEvolves(db.jobs, claim.id, job, now);
      PutEvolves(db.jobs, claim.id, job.(stage := stage), now);
    }
  }

  lemma InsertEvolves(jobs: map<JobId, Job>, id: JobId, job: Job, now: Micros)
    requires id !in jobs && job.status.Queued? && job.attempts == 0
    ensures Evolve(jobs, jobs[id := job], None, now)
  {
    hide Moves;
    SameEvolves(jobs, now);
  }

  lemma EnqueueEvolves(db: Db, request: Request, recording: RecordingId, jobId: JobId, now: Micros, maxAttempts: nat)
    requires jobId !in db.jobs
    ensures Evolve(db.jobs, OrElse(Enqueue(db, request, recording, jobId, now, maxAttempts), db).jobs, None, now)
  {
    hide Evolve, NoActive, Logged, WithStatus;
    SameEvolves(db.jobs, now);
    var kind := RequestedKind(request);
    InsertEvolves(db.jobs, jobId, FreshJob(OfRecording(recording), kind, if kind.Full? then ChainedFollowUp(kind) else None,
                                           maxAttempts, now, now), now);
  }

  lemma QueueSummaryEvolves(db: Db, day: Day, jobId: JobId, now: Micros, maxAttempts: nat)
    requires jobId !in db.jobs
    ensures Evolve(db.jobs, OrElse(QueueSummary(db, day, jobId, now, maxAttempts), db).jobs, None, now)
  {
    hide Evolve, NoActive, Digests;
    SameEvolves(db.jobs, now);
    InsertEvolves(db.jobs, jobId, FreshJob(OfDay(day), DailySummary, None, maxAttempts, now, now), now);
  }

  lemma SaveEvolves(db: Db, recording: RecordingId, expectedRevision: nat, edit: Edit, now: Micros)
    ensures Evolve(db.jobs, OrElse(Save(db, recording, expectedRevision, edit), db).jobs, None, now)
  {
    hide Evolve, NoActive, ApplyEdit;
    SameEvolves(db.jobs, now);
  }

  lemma DeleteEvolves(db: Db, recording: RecordingId, now: Micros)
    ensures Evolve(db.jobs, OrElse(Delete(db, recording), db).jobs, None, now)
  {
    hide NoActive, WithoutRecording, Moves;
    SameEvolves(db.jobs, now);
  }

  lemma ClaimEvolves(db: Db, id: JobId, now: Micros, token: Token, worker: string, lease: Micros)
    requires id in db.jobs && db.jobs[id].status.Queued?
    ensures Evolve(db.jobs, Claim(db, id, now, token, worker, lease).jobs,
                   Some(ClaimOf(id, db.jobs[id].(attempts := db.jobs[id].attempts + 1), token, worker)), now)
  {
    hide Logged, WithStatus;
  }

  /** Whatever the step, every job in the table moved legally or was newly queued. */
  lemma StepEvolves(cfg: Config, w: World, now: Micros, action: Action)
    requires cfg.Valid() && Possible(w, now, action) && WorldCore(w)
    ensures Evolve(w.db.jobs, Next(cfg, w, now, action).jobs, ClaimMade(w, action), now)
  {
    hide CoreOf, Upload, Enqueue, QueueSummary, Claim, Heartbeat, AdvanceStage, Complete, Fail, Recover, Save, Delete,
         Answers, Digests, Evolve;
    var db := w.db;
    SameEvolves(db.jobs, now);
    match action
    case DoUpload(recording, startedAt, duration, jobId, uploadedAt) =>
      UploadEvolves(db, recording, startedAt, duration, jobId, uploadedAt, now, cfg.maxAttempts);
    case DoEnqueue(request, recording, jobId) => EnqueueEvolves(db, request, recording, jobId, now, cfg.maxAttempts);
    case DoQueueSummary(day, jobId) => QueueSummaryEvolves(db, day, jobId, now, cfg.maxAttempts);
    case DoClaim(id, worker, _, token) => ClaimEvolves(db, id, now, token, worker, cfg.lease);
    case DoHeartbeat(claim) => RenewEvolves(db, claim, Preprocessing, now, cfg.lease);
    case DoAdvance(claim, stage) => RenewEvolves(db, claim, stage, now, cfg.lease);
    case DoRead(_, _) =>
    case DoComplete(claim, outcome, jobId) => CompleteEvolves(db, claim, InputOf(w, claim), outcome, now, jobId);
    case DoFail(claim, failure, jobId) => FailEvolves(db, claim, failure, now, cfg.policy, jobId);
    case DoRecover(id, jobId) => RecoverEvolves(db, id, now, cfg.policy, jobId);
    case DoSave(recording, expectedRevision, edit) => SaveEvolves(db, recording, expectedRevision, edit, now);
    case DoDelete(recording) => DeleteEvolves(db, recording, now);
    case DoSetSwitches(_, _) =>
  }

  lemma UploadEvolves(db: Db, recording: RecordingId, startedAt: Micros, duration: real, jobId: JobId,
                      uploadedAt: Micros, now: Micros, maxAttempts: nat)
    requires jobId !in db.jobs
    ensures Evolve(db.jobs, Upload(db, recording, startedAt, duration, jobId, uploadedAt, now, maxAttempts).jobs, None, now)
  {
    hide Evolve, Logged;
    InsertEvolves(db.jobs, jobId,
                  FreshJob(OfRecording(recording), Full, ChainedFollowUp(Full), maxAttempts, uploadedAt, now), now);
  }

  // ----- the fence -----

  /** A running job's token was issued for it, at its current attempt, and for nothing else. */
  ghost predicate TokensOk(jobs: map<JobId, Job>, issued: map<Token, ClaimedJob>) {
    && (forall id :: id in jobs && jobs[id].status.Processing? ==> TokenOk(id, jobs[id], issued))
    && (forall token :: token in issued ==> issued[token].token == token)
  }

  ghost predicate TokenOk(id: JobId, job: Job, issued: map<Token, ClaimedJob>) {
    && job.claimToken.Some? && job.workerId.Some? && job.claimToken.value in issued
    && issued[job.claimToken.value] == ClaimOf(id, job, job.claimToken.value, job.workerId.value)
  }

  lemma StepKeepsTokens(cfg: Config, w: World, now: Micros, action: Action)
    requires cfg.Valid() && Possible(w, now, action) && WorldCore(w) && TokensOk(w.db.jobs, w.issued)
    ensures TokensOk(Step(cfg, w, now, action).db.jobs, Step(cfg, w, now, action).issued)
  {
    hide CoreOf, Next, Inputs, BuiltFrom, CurrentReadings;
    StepEvolves(cfg, w, now, action);
    var after := Step(cfg, w, now, action);
    forall id | id in after.db.jobs && after.db.jobs[id].status.Processing?
      ensures TokenOk(id, after.db.jobs[id], after.issued)
    {
      assert id in w.db.jobs;
      assert Moves(id, w.db.jobs[id], after.db.jobs[id], ClaimMade(w, action), now);
      if w.db.jobs[id].status.Processing? {
        assert TokenOk(id, w.db.jobs[id], w.issued);
      }
    }
  }

  /** A claim that lost its job never owns it again. */
  lemma LostStaysLost(cfg: Config, w: World, now: Micros, action: Action, claim: ClaimedJob)
    requires cfg.Valid() && Possible(w, now, action) && WorldCore(w) && TokensOk(w.db.jobs, w.issued)
    requires Holds(w, claim) && !Owns(w.db.jobs, claim)
    ensures Holds(Step(cfg, w, now, action), claim) && !Owns(Step(cfg, w, now, action).db.jobs, claim)
  {
    hide CoreOf, Next, Inputs, BuiltFrom, CurrentReadings;
    StepEvolves(cfg, w, now, action);
    var after := Step(cfg, w, now, action);
    var id := claim.id;
    if id in w.db.jobs && id in after.db.jobs {
      assert Moves(id, w.db.jobs[id], after.db.jobs[id], ClaimMade(w, action), now);
    }
  }

  /** Every write with a lost claim is refused. */
  lemma LostIsRefused(cfg: Config, w: World, now: Micros, action: Action, claim: ClaimedJob)
    requires cfg.Valid() && Possible(w, now, action) && !Owns(w.db.jobs, claim)
    requires
      || action == DoHeartbeat(claim) || (action.DoAdvance? && action.claim == claim)
      || (action.DoComplete? && action.claim == claim) || (action.DoFail? && action.claim == claim)
    ensures Next(cfg, w, now, action) == w.db
  {
  }

  /** A completed or failed job is never changed again; it can only be deleted with its recording. */
  lemma TerminalIsAbsorbing(cfg: Config, w: World, now: Micros, action: Action, id: JobId)
    requires cfg.Valid() && Possible(w, now, action) && WorldCore(w)
    requires id in w.usedJobs && (id in w.db.jobs ==> Terminal(w.db.jobs[id]))
    ensures var after := Step(cfg, w, now, action);
            && id in after.usedJobs
            && (id in after.db.jobs ==> id in w.db.jobs && after.db.jobs[id] == w.db.jobs[id])
  {
    hide CoreOf, Inputs, BuiltFrom, CurrentReadings;
    StepEvolves(cfg, w, now, action);
    var after := Step(cfg, w, now, action);
    if id in after.db.jobs {
      if id in w.db.jobs {
        assert Moves(id, w.db.jobs[id], after.db.jobs[id], ClaimMade(w, action), now);
      } else {
        NewJobsAreUnused(cfg, w, now, action, id);
      }
    }
  }

  lemma NewJobsAreUnused(cfg: Config, w: World, now: Micros, action: Action, id: JobId)
    requires cfg.Valid() && Possible(w, now, action) && id !in w.db.jobs && id in w.usedJobs
    ensures id !in Next(cfg, w, now, action).jobs
  {
    hide Answers, Digests, Persist, Successor, Logged, WithStatus, ApplyEdit, NoActive, WithoutRecording;
    if action.DoComplete? {
      PersistKeepsJobs(w.db, action.claim, InputOf(w, action.claim), action.outcome);
    }
  }

  lemma PersistKeepsJobs(db: Db, claim: ClaimedJob, input: Option<Input>, outcome: Outcome)
    requires Answers(claim.kind, input, outcome)
    ensures Persist(db, claim, input, outcome).Success? ==> Persist(db, claim, input, outcome).value.jobs == db.jobs
  {
    hide Answers, PersistRecording;
  }

  // ----- over whole runs -----

  ghost predicate Fenced(w: World) {
    WorldCore(w) && TokensOk(w.db.jobs, w.issued)
  }

  lemma {:induction false} RunKeepsFence(cfg: Config, worlds: seq<World>, times: seq<Micros>, actions: seq<Action>, i: nat)
    requires IsRun(cfg, worlds, times, actions) && i < |worlds|
    ensures Fenced(worlds[i])
  {
    hide CoreOf, Step, Possible, TokenOk;
    RunKeepsCore(cfg, worlds, times, actions, i);
    if i > 0 {
      RunKeepsFence(cfg, worlds, times, actions, i - 1);
      assert Follows(cfg, worlds[i - 1], times[i - 1], actions[i - 1], worlds[i - 1 + 1]);
      StepKeepsTokens(cfg, worlds[i - 1], times[i - 1], actions[i - 1]);
    }
  }

  /** An owned claim is the job's latest attempt, and the job is the one it was issued for. */
  lemma OwnedIsLatest(w: World, claim: ClaimedJob)
    requires Fenced(w) && Holds(w, claim) && Owns(w.db.jobs, claim)
    ensures claim == ClaimOf(claim.id, w.db.jobs[claim.id], claim.token, claim.workerId)
  {
    assert TokenOk(claim.id, w.db.jobs[claim.id], w.issued);
  }

  /** A row that is not running is nobody's. */
  lemma StoppedIsNotOwned(jobs: map<JobId, Job>, claim: ClaimedJob)
    requires claim.id in jobs ==> !jobs[claim.id].status.Processing?
    ensures !Owns(jobs, claim)
  {
  }

  lemma CompletionStops(db: Db, claim: ClaimedJob, input: Option<Input>, outcome: Outcome, now: Micros, newId: JobId)
    requires Answers(claim.kind, input, outcome) && Complete(db, claim, input, outcome, now, newId).Success?
    ensures !Owns(Complete(db, claim, input, outcome, now, newId).value.jobs, claim)
  {
    hide Answers, Persist, Logged, WithStatus, Successor, Owns;
    StoppedIsNotOwned(Complete(db, claim, input, outcome, now, newId).value.jobs, claim);
  }

  lemma FailureStops(db: Db, claim: ClaimedJob, failure: JobFailure, now: Micros, policy: RetryPolicy, newId: JobId)
    requires policy.Valid() && Owns(db.jobs, claim) && JobOk(db.jobs[claim.id])
    ensures !Owns(OrElse(Fail(db, claim, failure, now, policy, newId), db).jobs, claim)
  {
    hide Logged, WithStatus, Successor;
  }

  lemma RecoveryStops(db: Db, claim: ClaimedJob, now: Micros, policy: RetryPolicy, newId: JobId)
    requires policy.Valid() && Owns(db.jobs, claim) && JobOk(db.jobs[claim.id])
    ensures !Owns(OrElse(Recover(db, claim.id, now, policy, newId), db).jobs, claim)
  {
    hide Logged, WithStatus, Successor;
  }

  /** Completing, failing and being recovered each end the claim. */
  lemma EndingLosesClaim(cfg: Config, w: World, now: Micros, action: Action, claim: ClaimedJob)
    requires cfg.Valid() && Possible(w, now, action) && Fenced(w) && Holds(w, claim) && Owns(w.db.jobs, claim)
    requires
      || (action.DoComplete? && action.claim == claim
          && Complete(w.db, claim, InputOf(w, claim), action.outcome, now, action.jobId).Success?)
      || (action.DoFail? && action.claim == claim)
      || (action.DoRecover? && action.id == claim.id)
    ensures !Owns(Step(cfg, w, now, action).db.jobs, claim)
  {
    hide Answers, Complete, Fail, Recover, Expired, JobOk, AllJobs, AllWaiting, OneActive, TokensOk, BuiltFrom,
         CurrentReadings, Issued, Inputs;
    CoreJobOk(w.db, claim.id);
    match action
    case DoComplete(_, outcome, jobId) => CompletionStops(w.db, claim, InputOf(w, claim), outcome, now, jobId);
    case DoFail(_, failure, jobId) => FailureStops(w.db, claim, failure, now, cfg.policy, jobId);
    case DoRecover(_, jobId) => RecoveryStops(w.db, claim, now, cfg.policy, jobId);
  }

  /** Over a whole run: once a claim no longer owns its job it never does again, so by LostIsRefused every
      later heartbeat, stage, completion and failure under it changes nothing. */
  lemma {:induction false} LostForGood(cfg: Config, worlds: seq<World>, times: seq<Micros>, actions: seq<Action>,
                                       i: nat, j: nat, claim: ClaimedJob)
    requires IsRun(cfg, worlds, times, actions) && i <= j < |worlds|
    requires Holds(worlds[i], claim) && !Owns(worlds[i].db.jobs, claim)
    ensures Holds(worlds[j], claim) && !Owns(worlds[j].db.jobs, claim)
  {
    hide CoreOf, Step, Possible, TokensOk;
    if i < j {
      LostForGood(cfg, worlds, times, actions, i, j - 1, claim);
      RunKeepsFence(cfg, worlds, times, actions, j - 1);
      assert Follows(cfg, worlds[j - 1], times[j - 1], actions[j - 1], worlds[j - 1 + 1]);
      LostStaysLost(cfg, worlds[j - 1], times[j - 1], actions[j - 1], claim);
    }
  }

  /** Over a whole run: a completed or failed job keeps every column it has for as long as it exists. */
  lemma {:induction false} TerminalForGood(cfg: Config, worlds: seq<World>, times: seq<Micros>, actions: seq<Action>,
                                           i: nat, j: nat, id: JobId)
    requires IsRun(cfg, worlds, times, actions) && i <= j < |worlds|
    requires id in worlds[i].db.jobs && Terminal(worlds[i].db.jobs[id])
    ensures id in worlds[j].usedJobs
    ensures id in worlds[j].db.jobs ==> worlds[j].db.jobs[id] == worlds[i].db.jobs[id]
  {
    hide CoreOf, Step, Possible, TokensOk;
    if i == j {
      RunKeepsFence(cfg, worlds, times, actions, i);
    } else {
      TerminalForGood(cfg, worlds, times, actions, i, j - 1, id);
      RunKeepsFence(cfg, worlds, times, actions, j - 1);
      assert Follows(cfg, worlds[j - 1], times[j - 1], actions[j - 1], worlds[j - 1 + 1]);
      TerminalIsAbsorbing(cfg, worlds[j - 1], times[j - 1], actions[j - 1], id);
    }
  }

  /** The transaction that commits a job's results. */
  ghost predicate Commits(cfg: Config, w: World, now: Micros, action: Action, id: JobId) {
    && cfg.Valid() && Possible(w, now, action)
    && action.DoComplete? && action.claim.id == id
    && Complete(w.db, action.claim, InputOf(w, action.claim), action.outcome, now, action.jobId).Success?
  }

  lemma CommitIsTerminal(cfg: Config, w: World, now: Micros, action: Action, id: JobId)
    requires Commits(cfg, w, now, action, id) && WorldCore(w)
    ensures id in w.db.jobs && w.db.jobs[id].status.Processing?
    ensures var after := Step(cfg, w, now, action).db.jobs; id in after && after[id].status.Completed?
  {
    hide Answers, Persist, Logged, WithStatus, Successor, Core, BuiltFrom, CurrentReadings;
    PersistKeepsJobs(w.db, action.claim, InputOf(w, action.claim), action.outcome);
  }

  /** Over a whole run a job's results are committed at most once. */
  lemma CommitsOnce(cfg: Config, worlds: seq<World>, times: seq<Micros>, actions: seq<Action>, i: nat, j: nat, id: JobId)
    requires IsRun(cfg, worlds, times, actions) && i < |actions| && j < |actions|
    requires Commits(cfg, worlds[i], times[i], actions[i], id)
    requires Commits(cfg, worlds[j], times[j], actions[j], id)
    ensures i == j
  {
    hide CoreOf, Step, Possible, TokensOk, Complete;
    var first, second := if i <= j then i else j, if i <= j then j else i;
    RunKeepsFence(cfg, worlds, times, actions, first);
    RunKeepsFence(cfg, worlds, times, actions, second);
    assert Follows(cfg, worlds[first], times[first], actions[first], worlds[first + 1]);
    CommitIsTerminal(cfg, worlds[first], times[first], actions[first], id);
    CommitIsTerminal(cfg, worlds[second], times[second], actions[second], id);
    if first < second {
      TerminalForGood(cfg, worlds, times, actions, first + 1, second, id);
    }
  }
}
