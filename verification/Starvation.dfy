/** No starvation: an available job waits behind a fixed finite set of jobs. */
module Starvation {
  import opened Prelude
  import opened Days
  import opened Schema
  import opened Queue
  import opened Services
  import opened Jobs
  import opened Protocol
  import opened Keeping
  import opened Fencing
  import opened Work

  /** The queued jobs a claim would take before this one. */
  function Ahead(jobs: map<JobId, Job>, id: JobId): set<JobId>
    requires id in jobs
  {
    set other | other in jobs && jobs[other].status.Queued? && Before(jobs[other], other, jobs[id], id)
  }

  // ----- when a new job becomes available -----

  /** The steps that queue a job because someone asked for it. */
  predicate IsRequest(action: Action) {
    action.DoUpload? || action.DoEnqueue? || action.DoQueueSummary?
  }

  /** When the job of a request becomes available: an upload is dated by its arrival, before its file is stored. */
  function RequestedAt(now: Micros, action: Action): Micros {
    if action.DoUpload? then action.uploadedAt else now
  }

  predicate IsRequested(now: Micros, action: Action, id: JobId, job: Job) {
    IsRequest(action) && id == action.jobId && job.availableAt == RequestedAt(now, action) && job.createdAt == now
  }

  /** A job a step adds is the requested one, or follows up later than now. */
  ghost predicate NewJobs(jobs: map<JobId, Job>, after: map<JobId, Job>, now: Micros, action: Action) {
    forall id :: id in after && id !in jobs ==> IsRequested(now, action, id, after[id]) || after[id].availableAt > now
  }

  lemma HandOffIsLater(db: Db, job: Job, newId: JobId, now: Micros, jobs: map<JobId, Job>, action: Action)
    requires NewJobs(jobs, db.jobs, now, action)
    ensures NewJobs(jobs, HandOff(db, job, newId, now).jobs, now, action)
  {
    hide IsRequested;
  }

  lemma EndsAreLater(db: Db, id: JobId, note: FailureNote, now: Micros, event: ActivityType, newId: JobId, action: Action)
    requires id in db.jobs
    ensures NewJobs(db.jobs, Finish(db, id, now, newId).jobs, now, action)
    ensures NewJobs(db.jobs, GiveUp(db, id, note, now, event, newId).jobs, now, action)
  {
    hide Logged, HandOff, WithStatus, IsRequested;
    var done, given := Done(db.jobs[id], now), GivenUp(db.jobs[id], note, now);
    HandOffIsLater(Ended(db, id, done, RecCompleted, Logged(db.log, id, done, ProcessingCompleted, StageCompleted, now)),
                   done, newId, now, db.jobs, action);
    HandOffIsLater(Ended(db, id, given, RecFailed, Logged(db.log, id, given, event, note.stage, now)),
                   given, newId, now, db.jobs, action);
  }

  lemma CompletionIsLater(db: Db, claim: ClaimedJob, input: Option<Input>, outcome: Outcome, now: Micros, newId: JobId, action: Action)
    requires Answers(claim.kind, input, outcome)
    ensures NewJobs(db.jobs, OrElse(Complete(db, claim, input, outcome, now, newId), db).jobs, now, action)
  {
    hide Persist, Finish, Answers, IsRequested;
    PersistKeepsJobs(db, claim, input, outcome);
    var r := Persist(db, claim, input, outcome);
    if Owns(db.jobs, claim) && r.Success? {
      EndsAreLater(r.value, claim.id, FailureNote(StageQueued, "", now), now, ProcessingFailed, newId, action);
    }
  }

  lemma FailureIsLater(db: Db, claim: ClaimedJob, failure: JobFailure, now: Micros, policy: RetryPolicy, newId: JobId, action: Action)
    requires policy.Valid()
    ensures NewJobs(db.jobs, OrElse(Fail(db, claim, failure, now, policy, newId), db).jobs, now, action)
  {
    hide GiveUp, Logged, WithStatus, IsRequested;
    if Owns(db.jobs, claim) {
      var note := FailureNote(if failure.stage.Some? then failure.stage.value else db.jobs[claim.id].stage, failure.code, now);
      EndsAreLater(db, claim.id, note, now, ProcessingFailed, newId, action);
    }
  }

  lemma RecoveryIsLater(db: Db, id: JobId, now: Micros, policy: RetryPolicy, newId: JobId, action: Action)
    requires policy.Valid() && id in db.jobs
    ensures NewJobs(db.jobs, OrElse(Recover(db, id, now, policy, newId), db).jobs, now, action)
  {
    hide GiveUp, Logged, WithStatus, IsRequested;
    EndsAreLater(db, id, FailureNote(db.jobs[id].stage, "worker_lease_expired", now), now, LeaseRecovered, newId, action);
  }

  lemma RequestAdds(cfg: Config, w: World, now: Micros, action: Action)
    requires cfg.Valid() && Possible(w, now, action) && IsRequest(action)
    ensures NewJobs(w.db.jobs, Next(cfg, w, now, action).jobs, now, action)
    ensures action.jobId in Next(cfg, w, now, action).jobs && action.jobId !in w.db.jobs ==>
              var job := Next(cfg, w, now, action).jobs[action.jobId];
              IsRequested(now, action, action.jobId, job) && job.status.Queued?
  {
    hide Logged, WithStatus, NoActive, Digests;
  }

  lemma StepAdds(cfg: Config, w: World, now: Micros, action: Action)
    requires cfg.Valid() && Possible(w, now, action)
    ensures NewJobs(w.db.jobs, Next(cfg, w, now, action).jobs, now, action)
  {
    hide Upload, Enqueue, QueueSummary, Complete, Fail, Recover, Answers, Digests, WithStatus, Logged, ApplyEdit, NoActive,
         WithoutRecording, HasJob, IsRequested;
    var db := w.db;
    match action
    case DoComplete(claim, outcome, jobId) => CompletionIsLater(db, claim, InputOf(w, claim), outcome, now, jobId, action);
    case DoFail(claim, failure, jobId) => FailureIsLater(db, claim, failure, now, cfg.policy, jobId, action);
    case DoRecover(id, jobId) => RecoveryIsLater(db, id, now, cfg.policy, jobId, action);
    case DoUpload(_, _, _, _, _) => RequestAdds(cfg, w, now, action);
    case DoEnqueue(_, _, _) => RequestAdds(cfg, w, now, action);
    case DoQueueSummary(_, _) => RequestAdds(cfg, w, now, action);
    case _ =>
  }

  // ----- one step -----

  /** A worker that runs this kind of job claims something. */
  predicate AcceptingClaim(action: Action, kind: JobKind) {
    action.DoClaim? && (action.kinds.Some? ==> kind in action.kinds.value)
  }

  /** The request's job would be claimed before this one: it is dated earlier, or as early and created earlier,
      or both at once with a smaller id. */
  predicate Overtakes(now: Micros, action: Action, id: JobId, job: Job) {
    && IsRequest(action)
    && var at := RequestedAt(now, action);
       || at < job.availableAt
       || (at == job.availableAt && (now < job.createdAt || (now == job.createdAt && action.jobId < id)))
  }

  /** A request that overtakes this job was accepted. */
  predicate Overtaken(now: Micros, action: Action, after: map<JobId, Job>, id: JobId, job: Job) {
    Overtakes(now, action, id, job) && action.jobId in after
  }

  /** Once a job is available, the jobs ahead of it only leave if and only if no accepted request overtakes it;
      and every claim by a worker that would take it takes one of them. */
  lemma StepShrinksAhead(cfg: Config, w: World, now: Micros, action: Action, id: JobId)
    requires cfg.Valid() && Possible(w, now, action) && WorldCore(w)
    requires id in w.db.jobs && w.db.jobs[id].status.Queued? && w.db.jobs[id].availableAt <= now
    requires id in Next(cfg, w, now, action).jobs && Next(cfg, w, now, action).jobs[id] == w.db.jobs[id]
    ensures Ahead(Next(cfg, w, now, action).jobs, id) <= Ahead(w.db.jobs, id)
       <==> !Overtaken(now, action, Next(cfg, w, now, action).jobs, id, w.db.jobs[id])
    ensures AcceptingClaim(action, w.db.jobs[id].kind) ==>
              action.id in Ahead(w.db.jobs, id) && action.id !in Ahead(Next(cfg, w, now, action).jobs, id)
  {
    hide CoreOf, Next, Overtaken, Possible;
    var jobs, after := w.db.jobs, Next(cfg, w, now, action).jobs;
    forall other | other in Ahead(after, id)
      ensures other in Ahead(jobs, id) || (other !in Ahead(jobs, id) && Overtaken(now, action, after, id, jobs[id]))
    {
      AheadComesFrom(cfg, w, now, action, id, other);
    }
    if Overtaken(now, action, after, id, jobs[id]) {
      OvertakingJoins(cfg, w, now, action, id);
    }
    if AcceptingClaim(action, jobs[id].kind) {
      ClaimTakesFirst(cfg, w, now, action, id);
    }
  }

  /** Whatever is ahead after a step was ahead before it, or overtakes. */
  lemma AheadComesFrom(cfg: Config, w: World, now: Micros, action: Action, id: JobId, other: JobId)
    requires cfg.Valid() && Possible(w, now, action) && WorldCore(w)
    requires id in w.db.jobs && w.db.jobs[id].availableAt <= now
    requires id in Next(cfg, w, now, action).jobs && Next(cfg, w, now, action).jobs[id] == w.db.jobs[id]
    requires other in Ahead(Next(cfg, w, now, action).jobs, id)
    ensures other in Ahead(w.db.jobs, id) || Overtaken(now, action, Next(cfg, w, now, action).jobs, id, w.db.jobs[id])
  {
    hide CoreOf, Next;
    StepEvolves(cfg, w, now, action);
    StepAdds(cfg, w, now, action);
    var jobs, after := w.db.jobs, Next(cfg, w, now, action).jobs;
    if other in jobs {
      assert Moves(other, jobs[other], after[other], ClaimMade(w, action), now);
    }
  }

  lemma OvertakingJoins(cfg: Config, w: World, now: Micros, action: Action, id: JobId)
    requires cfg.Valid() && Possible(w, now, action) && WorldCore(w) && id in w.db.jobs
    requires id in Next(cfg, w, now, action).jobs && Next(cfg, w, now, action).jobs[id] == w.db.jobs[id]
    requires Overtaken(now, action, Next(cfg, w, now, action).jobs, id, w.db.jobs[id])
    ensures action.jobId in Ahead(Next(cfg, w, now, action).jobs, id) && action.jobId !in w.db.jobs
  {
    hide CoreOf, Next, Possible;
    RequestIsNew(cfg, w, now, action);
    RequestAdds(cfg, w, now, action);
  }

  lemma ClaimTakesFirst(cfg: Config, w: World, now: Micros, action: Action, id: JobId)
    requires cfg.Valid() && Possible(w, now, action)
    requires id in w.db.jobs && w.db.jobs[id].status.Queued? && w.db.jobs[id].availableAt <= now
    requires id in Next(cfg, w, now, action).jobs && Next(cfg, w, now, action).jobs[id] == w.db.jobs[id]
    requires AcceptingClaim(action, w.db.jobs[id].kind)
    ensures action.id in Ahead(w.db.jobs, id) && action.id !in Ahead(Next(cfg, w, now, action).jobs, id)
  {
    hide Next;
    ClaimRuns(cfg, w, now, action);
  }

  lemma RequestIsNew(cfg: Config, w: World, now: Micros, action: Action)
    requires cfg.Valid() && Possible(w, now, action) && WorldCore(w) && IsRequest(action)
    ensures action.jobId !in w.db.jobs
  {
    hide CoreOf;
  }

  /** An upload goes ahead of a job exactly when it overtakes it: it is never refused. */
  lemma UploadOvertakesIff(cfg: Config, w: World, now: Micros, action: Action, id: JobId)
    requires cfg.Valid() && Possible(w, now, action) && WorldCore(w) && action.DoUpload? && id in w.db.jobs
    ensures id in Next(cfg, w, now, action).jobs
    ensures action.jobId in Ahead(Next(cfg, w, now, action).jobs, id) <==> Overtakes(now, action, id, w.db.jobs[id])
  {
    hide Logged, CoreOf;
  }

  /** It happens: an upload that arrived at 4 and is stored at 6 is claimed before a job available since 5. */
  lemma UploadOvertakes() returns (cfg: Config, worlds: seq<World>, times: seq<Micros>, actions: seq<Action>)
    ensures IsRun(cfg, worlds, times, actions) && |actions| == 3
    ensures 0 in worlds[1].db.jobs && worlds[1].db.jobs[0].status.Queued? && worlds[1].db.jobs[0].availableAt <= worlds[1].now
    ensures actions[1].DoUpload? && actions[1].jobId == 1 && Overtakes(times[1], actions[1], 0, worlds[1].db.jobs[0])
    ensures 0 in worlds[2].db.jobs && worlds[2].db.jobs[0] == worlds[1].db.jobs[0] && 1 in Ahead(worlds[2].db.jobs, 0)
    ensures actions[2].DoClaim? && actions[2].id == 1
  {
    hide Upload, Step, Claim, Overtakes;
    cfg := Config(3, 1, RetryPolicy(1, 1));
    actions := [DoUpload(0, 0, 1.0, 0, 5), DoUpload(1, 0, 1.0, 1, 4), DoClaim(1, "worker", None, 0)];
    times := [5, 6, 7];
    var w1 := UploadStep(cfg, Empty, 5, actions[0]);
    var w2 := UploadStep(cfg, w1, 6, actions[1]);
    assert w1.db.jobs.Keys == {0} && w2.db.jobs.Keys == {0, 1};
    EarlierUploadOvertakes(actions[1], w1.db.jobs[0]);
    assert IsFirst(w2.db.jobs, 1, 7, None);
    var w3 := Step(cfg, w2, 7, actions[2]);
    worlds := [Empty, w1, w2, w3];
    assert Follows(cfg, worlds[2], times[2], actions[2], worlds[3]);
  }

  lemma EarlierUploadOvertakes(action: Action, job: Job)
    requires action.DoUpload? && action.uploadedAt < job.availableAt
    ensures Overtakes(6, action, 0, job)
  {
  }

  lemma UploadStep(cfg: Config, w: World, now: Micros, action: Action) returns (after: World)
    requires cfg.Valid() && w.now <= now && action.DoUpload?
    requires action.recording !in w.usedRecordings && action.jobId !in w.usedJobs && action.uploadedAt <= now
    requires w.db.jobs.Keys <= w.usedJobs && w.db.recordings.Keys <= w.usedRecordings
    ensures Follows(cfg, w, now, action, after) && after.now == now && after.issued == w.issued
    ensures after.usedJobs == w.usedJobs + {action.jobId} && after.usedRecordings == w.usedRecordings + {action.recording}
    ensures after.db.jobs == w.db.jobs[action.jobId := FreshJob(OfRecording(action.recording), Full, ChainedFollowUp(Full),
                                                                cfg.maxAttempts, action.uploadedAt, now)]
    ensures after.db.recordings.Keys == w.db.recordings.Keys + {action.recording}
  {
    hide Logged, BuiltFrom, CurrentReadings;
    after := Step(cfg, w, now, action);
  }

  // ----- over whole runs -----

  function AcceptingClaims(actions: seq<Action>, kind: JobKind, i: nat, j: nat): nat
    requires i <= j <= |actions|
  {
    if i == j then 0
    else AcceptingClaims(actions, kind, i, j - 1) + One(AcceptingClaim(actions[j - 1], kind))
  }

  /** No request accepted in this stretch overtakes the job. */
  ghost predicate NeverOvertaken(worlds: seq<World>, times: seq<Micros>, actions: seq<Action>, i: nat, j: nat, id: JobId, job: Job)
    requires |worlds| == |actions| + 1 && |times| == |actions| && i <= j <= |actions|
  {
    forall k :: i <= k < j ==> !Overtaken(times[k], actions[k], worlds[k + 1].db.jobs, id, job)
  }

  /** A job that is unchanged at the end of a step was there, unchanged, before it. */
  lemma WaitedBefore(cfg: Config, w: World, now: Micros, action: Action, id: JobId, job: Job)
    requires cfg.Valid() && Possible(w, now, action) && WorldCore(w) && id in w.usedJobs
    requires id in Next(cfg, w, now, action).jobs && Next(cfg, w, now, action).jobs[id] == job
    requires job.status.Queued? && job.availableAt <= now
    ensures id in w.db.jobs && w.db.jobs[id] == job
  {
    hide CoreOf, Next;
    StepEvolves(cfg, w, now, action);
    if id !in w.db.jobs {
      NewJobsAreUnused(cfg, w, now, action, id);
    } else {
      assert Moves(id, w.db.jobs[id], job, ClaimMade(w, action), now);
    }
  }

  lemma {:induction false} StaysUsed(cfg: Config, worlds: seq<World>, times: seq<Micros>, actions: seq<Action>,
                                     i: nat, j: nat, id: JobId)
    requires IsRun(cfg, worlds, times, actions) && i <= j < |worlds| && id in worlds[i].db.jobs
    ensures id in worlds[j].usedJobs && worlds[i].now <= worlds[j].now
  {
    hide CoreOf, Possible, Next, Inputs, BuiltFrom, CurrentReadings, Issued;
    if i == j {
      RunKeepsCore(cfg, worlds, times, actions, i);
    } else {
      StaysUsed(cfg, worlds, times, actions, i, j - 1, id);
      assert Follows(cfg, worlds[j - 1], times[j - 1], actions[j - 1], worlds[j - 1 + 1]);
      TimeMoves(cfg, worlds[j - 1], times[j - 1], actions[j - 1]);
    }
  }

  lemma TimeMoves(cfg: Config, w: World, now: Micros, action: Action)
    requires cfg.Valid() && Possible(w, now, action)
    ensures w.now <= now == Step(cfg, w, now, action).now
  {
    hide Next, Inputs, BuiltFrom, CurrentReadings, Issued;
  }

  /** One step of the wait. */
  lemma WaitStep(cfg: Config, w: World, now: Micros, action: Action, after: World, id: JobId, job: Job)
    requires Follows(cfg, w, now, action, after) && WorldCore(w) && id in w.usedJobs
    requires id in after.db.jobs && after.db.jobs[id] == job && job.status.Queued? && job.availableAt <= w.now
    requires !Overtaken(now, action, after.db.jobs, id, job)
    ensures id in w.db.jobs && w.db.jobs[id] == job
    ensures Ahead(after.db.jobs, id) <= Ahead(w.db.jobs, id)
    ensures One(AcceptingClaim(action, job.kind)) + |Ahead(after.db.jobs, id)| <= |Ahead(w.db.jobs, id)|
  {
    hide CoreOf, Possible, Step, Ahead, Overtaken;
    StepTables(cfg, w, now, action);
    WaitedBefore(cfg, w, now, action, id, job);
    StepShrinksAhead(cfg, w, now, action, id);
    Shrinks(Ahead(w.db.jobs, id), Ahead(after.db.jobs, id),
            if AcceptingClaim(action, job.kind) then Some(action.id) else None);
  }

  /** Over a whole run: while an available job waits, the jobs ahead of it only leave, and workers that run
      its kind claim at most as many jobs as were ahead of it when it became available. */
  lemma {:induction false} NoStarvation(cfg: Config, worlds: seq<World>, times: seq<Micros>, actions: seq<Action>,
                                        i: nat, j: nat, id: JobId, job: Job)
    requires IsRun(cfg, worlds, times, actions) && i <= j < |worlds|
    requires id in worlds[i].db.jobs && worlds[i].db.jobs[id] == job
    requires id in worlds[j].db.jobs && worlds[j].db.jobs[id] == job
    requires job.status.Queued? && job.availableAt <= worlds[i].now
    requires NeverOvertaken(worlds, times, actions, i, j, id, job)
    ensures Ahead(worlds[j].db.jobs, id) <= Ahead(worlds[i].db.jobs, id)
    ensures AcceptingClaims(actions, job.kind, i, j) + |Ahead(worlds[j].db.jobs, id)| <= |Ahead(worlds[i].db.jobs, id)|
  {
    hide CoreOf, Follows, Ahead, AcceptingClaim, Overtaken;
    if i < j {
      StaysUsed(cfg, worlds, times, actions, i, j - 1, id);
      RunKeepsCore(cfg, worlds, times, actions, j - 1);
      assert Follows(cfg, worlds[j - 1], times[j - 1], actions[j - 1], worlds[j - 1 + 1]);
      WaitStep(cfg, worlds[j - 1], times[j - 1], actions[j - 1], worlds[j], id, job);
      NoStarvation(cfg, worlds, times, actions, i, j - 1, id, job);
    }
  }

  lemma StepTables(cfg: Config, w: World, now: Micros, action: Action)
    requires cfg.Valid() && Possible(w, now, action)
    ensures Step(cfg, w, now, action).db == Next(cfg, w, now, action) && w.now <= now
  {
    hide Next, Inputs, BuiltFrom, CurrentReadings, Issued;
  }

  lemma Shrinks(a: set<JobId>, b: set<JobId>, gone: Option<JobId>)
    requires b <= a && (gone.Some? ==> gone.value in a && gone.value !in b)
    ensures |b| + One(gone.Some?) <= |a|
  {
    var rest := if gone.Some? then a - {gone.value} else a;
    SubsetSize(b, rest);
  }

  lemma {:induction false} SubsetSize(b: set<JobId>, a: set<JobId>)
    requires b <= a
    ensures |b| <= |a|
  {
    if b != {} {
      var x :| x in b;
      SubsetSize(b - {x}, a - {x});
    }
  }

  /** So one claim more, by workers that run its kind, and the job has been taken. */
  lemma TakenInTheEnd(cfg: Config, worlds: seq<World>, times: seq<Micros>, actions: seq<Action>,
                      i: nat, j: nat, id: JobId, job: Job)
    requires IsRun(cfg, worlds, times, actions) && i <= j < |worlds|
    requires id in worlds[i].db.jobs && worlds[i].db.jobs[id] == job
    requires job.status.Queued? && job.availableAt <= worlds[i].now
    requires NeverOvertaken(worlds, times, actions, i, j, id, job)
    requires AcceptingClaims(actions, job.kind, i, j) > |Ahead(worlds[i].db.jobs, id)|
    ensures exists k :: i <= k < j && actions[k].DoClaim? && actions[k].id == id
  {
    hide CoreOf, Possible, Step, Ahead, AcceptingClaim, NeverOvertaken, AcceptingClaims;
    if forall k :: i <= k < j && actions[k].DoClaim? ==> actions[k].id != id {
      WaitsUnclaimed(cfg, worlds, times, actions, i, j, id, job);
      NoStarvation(cfg, worlds, times, actions, i, j, id, job);
    }
  }

  /** Nothing but a claim moves a queued job: its recording cannot be deleted under it. */
  lemma {:induction false} WaitsUnclaimed(cfg: Config, worlds: seq<World>, times: seq<Micros>, actions: seq<Action>,
                                          i: nat, j: nat, id: JobId, job: Job)
    requires IsRun(cfg, worlds, times, actions) && i <= j < |worlds|
    requires id in worlds[i].db.jobs && worlds[i].db.jobs[id] == job && job.status.Queued?
    requires forall k :: i <= k < j && actions[k].DoClaim? ==> actions[k].id != id
    ensures id in worlds[j].db.jobs && worlds[j].db.jobs[id] == job
  {
    hide CoreOf, Follows;
    if i < j {
      WaitsUnclaimed(cfg, worlds, times, actions, i, j - 1, id, job);
      RunKeepsCore(cfg, worlds, times, actions, j - 1);
      assert Follows(cfg, worlds[j - 1], times[j - 1], actions[j - 1], worlds[j - 1 + 1]);
      QueuedWaits(cfg, worlds[j - 1], times[j - 1], actions[j - 1], worlds[j], id);
    }
  }

  lemma QueuedWaits(cfg: Config, w: World, now: Micros, action: Action, after: World, id: JobId)
    requires Follows(cfg, w, now, action, after) && WorldCore(w)
    requires id in w.db.jobs && w.db.jobs[id].status.Queued? && (action.DoClaim? ==> action.id != id)
    ensures id in after.db.jobs && after.db.jobs[id] == w.db.jobs[id]
  {
    hide CoreOf, Possible, Step;
    StepTables(cfg, w, now, action);
    QueuedStays(cfg, w, now, action, id);
  }

  lemma ActiveStays(cfg: Config, w: World, now: Micros, action: Action, id: JobId)
    requires cfg.Valid() && Possible(w, now, action) && id in w.db.jobs && Active(w.db.jobs[id])
    ensures id in Next(cfg, w, now, action).jobs
  {
    hide Answers, Digests, Persist, Successor, Logged, WithStatus, ApplyEdit, WithoutRecording, HasJob;
    if action.DoComplete? {
      PersistKeepsJobs(w.db, action.claim, InputOf(w, action.claim), action.outcome);
    }
  }

  lemma QueuedStays(cfg: Config, w: World, now: Micros, action: Action, id: JobId)
    requires cfg.Valid() && Possible(w, now, action) && WorldCore(w)
    requires id in w.db.jobs && w.db.jobs[id].status.Queued? && (action.DoClaim? ==> action.id != id)
    ensures id in Next(cfg, w, now, action).jobs && Next(cfg, w, now, action).jobs[id] == w.db.jobs[id]
  {
    hide CoreOf, Next;
    StepEvolves(cfg, w, now, action);
    ActiveStays(cfg, w, now, action, id);
    assert Moves(id, w.db.jobs[id], Next(cfg, w, now, action).jobs[id], ClaimMade(w, action), now);
  }
}
