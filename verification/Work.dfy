/** How much work one request can cause, under any failures, crashes and switch changes. */
module Work {
  import opened Prelude
  import opened Days
  import opened Schema
  import opened Queue
  import opened Services
  import opened Jobs
  import opened Protocol
  import opened Keeping
  import opened Fencing

  /** Attempts an active job has left, and those of every step that may still follow it. */
  function Budget(job: Job): int {
    if Active(job) then job.maxAttempts - job.attempts + job.maxAttempts * ChainLength(job.followUp) else 0
  }

  ghost function Potential(jobs: map<JobId, Job>, scope: Scope): int {
    if HasActive(jobs, scope) then
      var id :| id in jobs && jobs[id].scope == scope && Active(jobs[id]);
      Budget(jobs[id])
    else 0
  }

  lemma PotentialIsBudget(jobs: map<JobId, Job>, id: JobId)
    requires OneActive(jobs) && id in jobs && Active(jobs[id])
    ensures Potential(jobs, jobs[id].scope) == Budget(jobs[id])
  {
  }

  lemma PotentialNonNegative(recordings: map<RecordingId, Recording>, jobs: map<JobId, Job>, scope: Scope)
    requires AllJobs(recordings, jobs)
    ensures Potential(jobs, scope) >= 0
  {
    if HasActive(jobs, scope) {
      var id :| id in jobs && jobs[id].scope == scope && Active(jobs[id]) && Potential(jobs, scope) == Budget(jobs[id]);
      assert JobOk(jobs[id]);
    }
  }

  // ----- where new jobs come from -----

  /** Someone asked for work on this scope. */
  predicate Requests(action: Action, scope: Scope) {
    || (action.DoUpload? && scope == OfRecording(action.recording))
    || (action.DoEnqueue? && scope == OfRecording(action.recording))
    || (action.DoQueueSummary? && scope == OfDay(action.day))
  }

  function AskedKind(action: Action): JobKind
    requires action.DoUpload? || action.DoEnqueue? || action.DoQueueSummary?
  {
    match action
    case DoEnqueue(request, _, _) => RequestedKind(request)
    case DoUpload(_, _, _, _, _) => Full
    case _ => DailySummary
  }

  /** The steps a request can lead to: transcription chains two more, anything else asked for runs alone. */
  function Steps(kind: JobKind): nat {
    1 + if kind.Full? then ChainLength(ChainedFollowUp(Full)) else 0
  }

  predicate Accepted(action: Action, after: map<JobId, Job>, scope: Scope) {
    Requests(action, scope) && action.jobId in after
  }

  /** The attempts an accepted request allows on this scope; a refused one allows none. */
  function Grant(action: Action, after: map<JobId, Job>, scope: Scope, maxAttempts: nat): nat {
    if Accepted(action, after, scope) then maxAttempts * Steps(AskedKind(action)) else 0
  }

  ghost predicate Funded(jobs: map<JobId, Job>, job: Job) {
    exists p :: p in jobs && jobs[p].scope == job.scope && Active(jobs[p]) && Budget(job) <= Budget(jobs[p])
  }

  /** New jobs of a scope are paid for by the job they follow, or by the request that was accepted. */
  ghost predicate Paid(jobs: map<JobId, Job>, after: map<JobId, Job>, scope: Scope, grant: nat) {
    forall id :: id in after && id !in jobs && after[id].scope == scope ==>
      Budget(after[id]) <= grant || Funded(jobs, after[id])
  }

  lemma SuccessorCosts(db: Db, job: Job, kind: JobKind, now: Micros)
    requires JobOk(job) && Successor(db, job) == Some(kind)
    ensures var next := FreshJob(job.scope, kind, ChainedFollowUp(kind), job.maxAttempts, now + 1, now);
            Budget(next) <= job.maxAttempts * ChainLength(job.followUp)
  {
    var all := ChainLength(job.followUp);
    var rest := ChainLength(Some(kind));
    assert rest <= all <= 3;
    assert ChainLength(ChainedFollowUp(kind)) == rest - 1;
    assert job.maxAttempts * rest <= job.maxAttempts * all;
    assert job.maxAttempts * (rest - 1) == job.maxAttempts * rest - job.maxAttempts;
  }

  lemma HandOffPaid(db: Db, job: Job, newId: JobId, now: Micros, jobs: map<JobId, Job>, id: JobId, scope: Scope)
    requires JobOk(job) && id in jobs && JobOk(jobs[id]) && jobs[id].status.Processing? && SameIdentity(jobs[id], job)
    requires db.jobs == jobs[id := job]
    ensures Paid(jobs, HandOff(db, job, newId, now).jobs, scope, 0)
  {
    hide Logged, JobOk, ChainLength;
    match Successor(db, job)
    case None =>
    case Some(kind) =>
      SuccessorCosts(db, job, kind, now);
      BudgetCoversChain(jobs[id]);
      var next := FreshJob(job.scope, kind, ChainedFollowUp(kind), job.maxAttempts, now + 1, now);
      assert Funded(jobs, next);
  }

  lemma BudgetCoversChain(job: Job)
    requires JobOk(job) && job.status.Processing?
    ensures job.maxAttempts * ChainLength(job.followUp) <= Budget(job)
  {
  }

  lemma EndPaid(db: Db, id: JobId, note: FailureNote, now: Micros, event: ActivityType, newId: JobId, scope: Scope)
    requires id in db.jobs && JobOk(db.jobs[id]) && db.jobs[id].status.Processing?
    ensures Paid(db.jobs, Finish(db, id, now, newId).jobs, scope, 0)
    ensures Paid(db.jobs, GiveUp(db, id, note, now, event, newId).jobs, scope, 0)
  {
    hide Logged, HandOff, WithStatus, JobOk, Funded;
    DoneOk(db.jobs[id], now);
    GivenUpOk(db.jobs[id], note, now);
    var done, given := Done(db.jobs[id], now), GivenUp(db.jobs[id], note, now);
    HandOffPaid(Ended(db, id, done, RecCompleted, Logged(db.log, id, done, ProcessingCompleted, StageCompleted, now)),
                done, newId, now, db.jobs, id, scope);
    HandOffPaid(Ended(db, id, given, RecFailed, Logged(db.log, id, given, event, note.stage, now)),
                given, newId, now, db.jobs, id, scope);
  }

  lemma CompletePaid(db: Db, claim: ClaimedJob, input: Option<Input>, outcome: Outcome, now: Micros, newId: JobId, scope: Scope)
    requires CoreOf(db) && Answers(claim.kind, input, outcome)
    ensures Paid(db.jobs, OrElse(Complete(db, claim, input, outcome, now, newId), db).jobs, scope, 0)
  {
    hide CoreOf, Persist, Finish, Answers, Funded, JobOk;
    if Owns(db.jobs, claim) {
      PersistKeeps(db, claim, input, outcome);
      CoreJobOk(db, claim.id);
      var r := Persist(db, claim, input, outcome);
      if r.Success? {
        EndPaid(r.value, claim.id, FailureNote(StageQueued, "", now), now, ProcessingFailed, newId, scope);
      }
    }
  }

  lemma FailPaid(db: Db, claim: ClaimedJob, failure: JobFailure, now: Micros, policy: RetryPolicy, newId: JobId, scope: Scope)
    requires policy.Valid() && CoreOf(db)
    ensures Paid(db.jobs, OrElse(Fail(db, claim, failure, now, policy, newId), db).jobs, scope, 0)
  {
    hide CoreOf, GiveUp, Funded, JobOk, Logged, WithStatus;
    if Owns(db.jobs, claim) {
      var job := db.jobs[claim.id];
      CoreJobOk(db, claim.id);
      EndPaid(db, claim.id, FailureNote(if failure.stage.Some? then failure.stage.value else job.stage, failure.code, now),
              now, ProcessingFailed, newId, scope);
    }
  }

  lemma RecoverPaid(db: Db, id: JobId, now: Micros, policy: RetryPolicy, newId: JobId, scope: Scope)
    requires policy.Valid() && CoreOf(db) && id in db.jobs && Expired(db.jobs[id], now)
    ensures Paid(db.jobs, OrElse(Recover(db, id, now, policy, newId), db).jobs, scope, 0)
  {
    hide CoreOf, GiveUp, Funded, JobOk, Logged, WithStatus;
    CoreJobOk(db, id);
    EndPaid(db, id, FailureNote(db.jobs[id].stage, "worker_lease_expired", now), now, LeaseRecovered, newId, scope);
  }

  lemma RequestPaid(cfg: Config, w: World, now: Micros, action: Action, scope: Scope)
    requires cfg.Valid() && Possible(w, now, action)
    requires action.DoUpload? || action.DoEnqueue? || action.DoQueueSummary?
    ensures Paid(w.db.jobs, Next(cfg, w, now, action).jobs, scope,
                 Grant(action, Next(cfg, w, now, action).jobs, scope, cfg.maxAttempts))
  {
    hide Logged, WithStatus, NoActive, Digests, Funded;
  }

  lemma StepPaid(cfg: Config, w: World, now: Micros, action: Action, scope: Scope)
    requires cfg.Valid() && Possible(w, now, action) && WorldCore(w)
    ensures Paid(w.db.jobs, Next(cfg, w, now, action).jobs, scope,
                 Grant(action, Next(cfg, w, now, action).jobs, scope, cfg.maxAttempts))
  {
    hide CoreOf, Upload, Enqueue, QueueSummary, Complete, Fail, Recover, Answers, Digests, Funded, WithStatus, Logged,
         ApplyEdit, NoActive, WithoutRecording, HasJob;
    var db := w.db;
    match action
    case DoComplete(claim, outcome, jobId) => CompletePaid(db, claim, InputOf(w, claim), outcome, now, jobId, scope);
    case DoFail(claim, failure, jobId) => FailPaid(db, claim, failure, now, cfg.policy, jobId, scope);
    case DoRecover(id, jobId) => RecoverPaid(db, id, now, cfg.policy, jobId, scope);
    case DoUpload(_, _, _, _, _) => RequestPaid(cfg, w, now, action, scope);
    case DoEnqueue(_, _, _) => RequestPaid(cfg, w, now, action, scope);
    case DoQueueSummary(_, _) => RequestPaid(cfg, w, now, action, scope);
    case _ =>
  }

  // ----- every claim spends -----

  ghost predicate Claims(w: World, action: Action, scope: Scope) {
    action.DoClaim? && action.id in w.db.jobs && w.db.jobs[action.id].scope == scope
  }

  function One(b: bool): nat {
    if b then 1 else 0
  }

  lemma MoveSpends(id: JobId, a: Job, b: Job, claimed: Option<ClaimedJob>, now: Micros)
    requires Moves(id, a, b, claimed, now) && Active(b)
    ensures Active(a) && a.scope == b.scope
    ensures Budget(b) + One(a.status.Queued? && b.status.Processing?) == Budget(a)
  {
  }

  /** A job that is active after a step was paid for by the one active before it, or by a request. */
  lemma ActiveIsPaidFor(jobs: map<JobId, Job>, after: map<JobId, Job>, id: JobId, scope: Scope, claimed: Option<ClaimedJob>,
                        now: Micros, grant: nat)
    requires OneActive(jobs) && Evolve(jobs, after, claimed, now) && Paid(jobs, after, scope, grant)
    requires id in after && after[id].scope == scope && Active(after[id]) && Potential(jobs, scope) >= 0
    ensures
      if id in jobs then
        Active(jobs[id]) && jobs[id].scope == scope
        && Budget(after[id]) + One(jobs[id].status.Queued? && after[id].status.Processing?) == Potential(jobs, scope)
      else Budget(after[id]) <= Potential(jobs, scope) + grant
  {
    hide Potential, Budget, Moves;
    if id in jobs {
      assert Moves(id, jobs[id], after[id], claimed, now);
      MoveSpends(id, jobs[id], after[id], claimed, now);
      PotentialIsBudget(jobs, id);
    } else if Funded(jobs, after[id]) {
      var p :| p in jobs && jobs[p].scope == scope && Active(jobs[p]) && Budget(after[id]) <= Budget(jobs[p]);
      PotentialIsBudget(jobs, p);
    }
  }

  lemma StepSpends(cfg: Config, w: World, now: Micros, action: Action, scope: Scope)
    requires cfg.Valid() && Possible(w, now, action) && WorldCore(w)
    ensures Potential(Step(cfg, w, now, action).db.jobs, scope) + One(Claims(w, action, scope))
         <= Potential(w.db.jobs, scope) + Grant(action, Step(cfg, w, now, action).db.jobs, scope, cfg.maxAttempts)
  {
    hide AllJobs, AllWaiting, OneActive, Next, Issued, Inputs, BuiltFrom, CurrentReadings, Potential, Budget, Evolve, Paid,
         Grant, Funded, Claimable, IsFirst;
    StepKeepsCore(cfg, w, now, action);
    StepEvolves(cfg, w, now, action);
    StepPaid(cfg, w, now, action, scope);
    var jobs, after := w.db.jobs, Step(cfg, w, now, action).db.jobs;
    PotentialNonNegative(w.db.recordings, jobs, scope);
    if action.DoClaim? {
      ClaimRuns(cfg, w, now, action);
      ClaimOpens(jobs, action.id);
    }
    if HasActive(after, scope) {
      var id :| id in after && after[id].scope == scope && Active(after[id]);
      PotentialIsBudget(after, id);
      ActiveIsPaidFor(jobs, after, id, scope, ClaimMade(w, action), now,
                      Grant(action, after, scope, cfg.maxAttempts));
      if Claims(w, action, scope) {
        OnlyOne(after, id, action.id);
      }
    } else {
      NoActiveNoPotential(after, scope);
    }
  }

  lemma ClaimOpens(jobs: map<JobId, Job>, id: JobId)
    requires id in jobs && jobs[id].status.Queued?
    ensures Active(jobs[id])
  {
  }

  lemma OnlyOne(jobs: map<JobId, Job>, a: JobId, b: JobId)
    requires OneActive(jobs) && a in jobs && b in jobs && jobs[a].scope == jobs[b].scope
    requires Active(jobs[a]) && jobs[b].status.Processing?
    ensures a == b
  {
  }

  lemma NoActiveNoPotential(jobs: map<JobId, Job>, scope: Scope)
    requires !HasActive(jobs, scope)
    ensures Potential(jobs, scope) == 0
  {
  }

  lemma ClaimRuns(cfg: Config, w: World, now: Micros, action: Action)
    requires cfg.Valid() && Possible(w, now, action) && action.DoClaim?
    ensures action.id in w.db.jobs && w.db.jobs[action.id].status.Queued?
    ensures var after := Next(cfg, w, now, action).jobs;
            && after.Keys == w.db.jobs.Keys
            && after[action.id].status.Processing? && after[action.id].scope == w.db.jobs[action.id].scope
  {
    hide WithStatus, Logged;
  }

  // ----- over whole runs -----

  ghost function ClaimCount(worlds: seq<World>, actions: seq<Action>, scope: Scope, j: nat): nat
    requires j <= |actions| < |worlds|
  {
    if j == 0 then 0
    else ClaimCount(worlds, actions, scope, j - 1) + One(Claims(worlds[j - 1], actions[j - 1], scope))
  }

  /** The attempts allowed by the requests accepted so far. */
  function Granted(worlds: seq<World>, actions: seq<Action>, scope: Scope, maxAttempts: nat, j: nat): nat
    requires j <= |actions| < |worlds|
  {
    if j == 0 then 0
    else Granted(worlds, actions, scope, maxAttempts, j - 1) + Grant(actions[j - 1], worlds[j].db.jobs, scope, maxAttempts)
  }

  /** Whatever happens in a run, a recording or a day is claimed at most as often as the requests accepted for it
      allow: max_attempts for each step the request can lead to, and none for a refused one. */
  lemma {:induction false} WorkIsBounded(cfg: Config, worlds: seq<World>, times: seq<Micros>, actions: seq<Action>,
                                         scope: Scope, j: nat)
    requires IsRun(cfg, worlds, times, actions) && j <= |actions|
    ensures ClaimCount(worlds, actions, scope, j) + Potential(worlds[j].db.jobs, scope)
         <= Granted(worlds, actions, scope, cfg.maxAttempts, j)
    ensures ClaimCount(worlds, actions, scope, j) <= Granted(worlds, actions, scope, cfg.maxAttempts, j)
  {
    hide CoreOf, Step, Possible, Potential, Claims, Grant;
    RunKeepsCore(cfg, worlds, times, actions, j);
    PotentialOfWorld(worlds[j], scope);
    if j == 0 {
      NoActiveNoPotential(map[], scope);
    } else {
      var i := j - 1;
      WorkIsBounded(cfg, worlds, times, actions, scope, i);
      RunKeepsCore(cfg, worlds, times, actions, i);
      assert Follows(cfg, worlds[i], times[i], actions[i], worlds[i + 1]);
      StepSpends(cfg, worlds[i], times[i], actions[i], scope);
    }
  }

  lemma PotentialOfWorld(w: World, scope: Scope)
    requires WorldCore(w)
    ensures Potential(w.db.jobs, scope) >= 0
  {
    PotentialNonNegative(w.db.recordings, w.db.jobs, scope);
  }

  function AcceptedCount(worlds: seq<World>, actions: seq<Action>, scope: Scope, j: nat): nat
    requires j <= |actions| < |worlds|
  {
    if j == 0 then 0
    else AcceptedCount(worlds, actions, scope, j - 1) + One(Accepted(actions[j - 1], worlds[j].db.jobs, scope))
  }

  /** So at most three times max_attempts for each accepted request, and max_attempts for a day's. */
  lemma {:induction false} GrantedIsBounded(worlds: seq<World>, actions: seq<Action>, scope: Scope, maxAttempts: nat, j: nat)
    requires j <= |actions| < |worlds|
    ensures Granted(worlds, actions, scope, maxAttempts, j)
         <= (if scope.OfDay? then 1 else 3) * maxAttempts * AcceptedCount(worlds, actions, scope, j)
  {
    hide Grant, Accepted;
    if j > 0 {
      GrantedIsBounded(worlds, actions, scope, maxAttempts, j - 1);
      var unit := (if scope.OfDay? then 1 else 3) * maxAttempts;
      Distribute(unit, AcceptedCount(worlds, actions, scope, j - 1), Accepted(actions[j - 1], worlds[j].db.jobs, scope));
      GrantIsBounded(actions[j - 1], worlds[j].db.jobs, scope, maxAttempts);
    }
  }

  lemma Distribute(unit: nat, n: nat, more: bool)
    ensures unit * (n + One(more)) == unit * n + if more then unit else 0
  {
  }

  lemma GrantIsBounded(action: Action, after: map<JobId, Job>, scope: Scope, maxAttempts: nat)
    ensures Grant(action, after, scope, maxAttempts)
         <= if Accepted(action, after, scope) then (if scope.OfDay? then 1 else 3) * maxAttempts else 0
  {
    if Accepted(action, after, scope) {
      var steps := Steps(AskedKind(action));
      assert steps <= if scope.OfDay? then 1 else 3;
      assert maxAttempts * steps <= maxAttempts * (if scope.OfDay? then 1 else 3);
    }
  }
}
