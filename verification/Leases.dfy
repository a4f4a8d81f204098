/** What a claim stores, and how long its lease keeps recovery away. */
module Leases {
  import opened Prelude
  import opened Days
  import opened Schema
  import opened Queue
  import opened Services
  import opened Jobs
  import opened Protocol
  import opened Keeping
  import opened Fencing
  import opened Ledger
  import Starvation
  import Endings

  /** A claim takes a queued job that is due, starts its next attempt under a fresh token and a lease that begins
      now, clears what the attempt before left, and tells the recording and the log. */
  lemma ClaimStarts(cfg: Config, w: World, now: Micros, action: Action)
    requires cfg.Valid() && Possible(w, now, action) && Fenced(w) && LedgerOf(w.db, w.usedJobs) && action.DoClaim?
    ensures var after := Next(cfg, w, now, action);
            && action.id in w.db.jobs && action.id in after.jobs
            && var a, b := w.db.jobs[action.id], after.jobs[action.id];
               && a.status.Queued? && b.status.Processing? && SameIdentity(a, b)
               && b.attempts == a.attempts + 1 && b.availableAt == a.availableAt
               && b.stage == (if a.kind.Full? then Preprocessing else if a.kind.Translation? then Translating else Analyzing)
               && b.claimToken == Some(action.token) && b.workerId == Some(action.worker)
               && b.claimedAt == b.heartbeatAt == Some(now) && b.leaseExpiresAt == Some(now + cfg.lease)
               && b.startedAt == (if a.startedAt.Some? then a.startedAt else Some(now))
               && b.finishedAt.None? && b.failure.None?
               && after.jobs == w.db.jobs[action.id := b]
               && (forall r :: r in w.db.recordings ==>
                     && r in after.recordings
                     && after.recordings[r] == if a.kind.Full? && a.scope == OfRecording(r)
                                               then w.db.recordings[r].(status := RecProcessing) else w.db.recordings[r])
               && after.log == if a.scope.OfDay? then w.db.log
                               else w.db.log + [Activity(a.scope.recording, action.id, ProcessingStarted, b.stage, b.attempts, now)]
  {
    hide CoreOf, TokensOk, Logged, Answers, Digests;
    var job := Claimed(w.db.jobs[action.id], now, action.token, action.worker, cfg.lease);
    StartIsLogged(w.db.jobs, w.db.log, w.usedJobs, action.id, job, now);
  }

  lemma StartIsLogged(jobs: map<JobId, Job>, log: seq<Activity>, used: set<JobId>, id: JobId, job: Job, now: Micros)
    requires LedgerOk(jobs, log, used) && id in jobs && job.scope == jobs[id].scope && job.attempts == jobs[id].attempts + 1
    ensures Logged(log, id, job, ProcessingStarted, job.stage, now)
         == if job.scope.OfDay? then log
            else log + [Activity(job.scope.recording, id, ProcessingStarted, job.stage, job.attempts, now)]
  {
    if job.scope.OfRecording? {
      RecordedAfresh(jobs, log, used, id, job,
                     Activity(job.scope.recording, id, ProcessingStarted, job.stage, job.attempts, now));
    }
  }

  // ----- the lease -----

  /** The steps by which a worker shows that it is alive: its claim, a heartbeat, a new stage. */
  predicate Renews(action: Action, claim: ClaimedJob) {
    match action
    case DoClaim(_, _, _, token) => token == claim.token
    case DoHeartbeat(c) => c == claim
    case DoAdvance(c, stage) => c == claim && !stage.StageQueued? && !stage.StageCompleted?
    case _ => false
  }

  predicate LeasedFrom(job: Job, at: Micros, lease: Micros) {
    job.heartbeatAt == Some(at) && job.leaseExpiresAt == Some(at + lease)
  }

  /** A claim that owns its job after a step renewed it by that step, or owned it before with the same lease. */
  lemma LeaseMoves(cfg: Config, w: World, now: Micros, action: Action, claim: ClaimedJob)
    requires cfg.Valid() && Possible(w, now, action) && Fenced(w)
    requires Holds(Step(cfg, w, now, action), claim) && Owns(Next(cfg, w, now, action).jobs, claim)
    ensures var after := Next(cfg, w, now, action).jobs[claim.id];
            if Renews(action, claim) then LeasedFrom(after, now, cfg.lease)
            else Holds(w, claim) && Owns(w.db.jobs, claim) && after.heartbeatAt == w.db.jobs[claim.id].heartbeatAt
                 && after.leaseExpiresAt == w.db.jobs[claim.id].leaseExpiresAt
  {
    hide CoreOf, TokensOk, Next, BuiltFrom, CurrentReadings, Inputs, Answers, Digests;
    if !Renews(action, claim) {
      assert Holds(w, claim);
      if !Owns(w.db.jobs, claim) {
        LostStaysLost(cfg, w, now, action, claim);
        Starvation.StepTables(cfg, w, now, action);
      }
    }
    LeaseStays(cfg, w, now, action, claim);
  }

  lemma LeaseStays(cfg: Config, w: World, now: Micros, action: Action, claim: ClaimedJob)
    requires cfg.Valid() && Possible(w, now, action) && WorldCore(w) && Owns(Next(cfg, w, now, action).jobs, claim)
    requires Renews(action, claim) || (Holds(w, claim) && Owns(w.db.jobs, claim))
    requires action.DoClaim? && Renews(action, claim) ==> claim.id == action.id
    ensures var after := Next(cfg, w, now, action).jobs[claim.id];
            if Renews(action, claim) then LeasedFrom(after, now, cfg.lease)
            else claim.id in w.db.jobs && after.heartbeatAt == w.db.jobs[claim.id].heartbeatAt
                 && after.leaseExpiresAt == w.db.jobs[claim.id].leaseExpiresAt
  {
    hide CoreOf, Answers, Digests, Persist, Successor, Logged, WithStatus, ApplyEdit, NoActive, WithoutRecording, HasJob;
    if action.DoComplete? {
      PersistKeepsJobs(w.db, action.claim, InputOf(w, action.claim), action.outcome);
    }
  }

  /** The lease of an owned job began with its owner's last sign of life, and recovery is possible exactly from its
      end on. */
  lemma {:induction false} LeaseIsLastRenewal(cfg: Config, worlds: seq<World>, times: seq<Micros>, actions: seq<Action>,
                                              j: nat, claim: ClaimedJob)
    returns (i: nat)
    requires IsRun(cfg, worlds, times, actions) && j < |worlds|
    requires Holds(worlds[j], claim) && Owns(worlds[j].db.jobs, claim)
    ensures i < j && Renews(actions[i], claim) && (forall k :: i < k < j ==> !Renews(actions[k], claim))
    ensures LeasedFrom(worlds[j].db.jobs[claim.id], times[i], cfg.lease)
    ensures forall now :: Expired(worlds[j].db.jobs[claim.id], now) <==> times[i] + cfg.lease <= now
  {
    hide CoreOf, TokensOk, Step, Possible, Renews;
    assert j > 0;
    var w, now, action := worlds[j - 1], times[j - 1], actions[j - 1];
    RunKeepsFence(cfg, worlds, times, actions, j - 1);
    assert Follows(cfg, w, now, action, worlds[j - 1 + 1]);
    Starvation.StepTables(cfg, w, now, action);
    LeaseMoves(cfg, w, now, action, claim);
    if Renews(action, claim) {
      i := j - 1;
    } else {
      i := LeaseIsLastRenewal(cfg, worlds, times, actions, j - 1, claim);
    }
  }

  /** While a claim owns its job, no recovery touches the job until the whole lease after every sign of life is over. */
  lemma RecoveryWaits(cfg: Config, worlds: seq<World>, times: seq<Micros>, actions: seq<Action>, i: nat, j: nat,
                      claim: ClaimedJob)
    requires IsRun(cfg, worlds, times, actions) && i < j < |actions| && Renews(actions[i], claim)
    requires Holds(worlds[j], claim) && Owns(worlds[j].db.jobs, claim)
    requires actions[j].DoRecover? && actions[j].id == claim.id
    ensures times[j] >= times[i] + cfg.lease
  {
    hide Follows, Renews, LeasedFrom;
    var last := LeaseIsLastRenewal(cfg, worlds, times, actions, j, claim);
    Endings.TimesGrow(cfg, worlds, times, actions, i, last);
    assert Follows(cfg, worlds[j], times[j], actions[j], worlds[j + 1]);
    RecoveredIsExpired(cfg, worlds[j], times[j], actions[j], worlds[j + 1]);
  }

  lemma RecoveredIsExpired(cfg: Config, w: World, now: Micros, action: Action, after: World)
    requires Follows(cfg, w, now, action, after) && action.DoRecover?
    ensures action.id in w.db.jobs && Expired(w.db.jobs[action.id], now)
  {
    hide Step;
  }

  // ----- stages -----

  /** An owner's new stage is stored with a fresh lease and recorded once for its attempt; without ownership, or for
      a stage that is not one of processing, nothing changes. */
  lemma StageIsRecorded(cfg: Config, w: World, now: Micros, action: Action)
    requires cfg.Valid() && Possible(w, now, action) && Fenced(w) && action.DoAdvance?
    ensures var after, claim, stage := Next(cfg, w, now, action), action.claim, action.stage;
            if !Owns(w.db.jobs, claim) || stage.StageQueued? || stage.StageCompleted? then after == w.db
            else
              && after.jobs == w.db.jobs[claim.id := w.db.jobs[claim.id].(stage := stage, heartbeatAt := Some(now),
                                                                          leaseExpiresAt := Some(now + cfg.lease))]
              && after == w.db.(jobs := after.jobs, log := after.log)
              && RecordedOnce(w.db.log, after.log, claim.id, w.db.jobs[claim.id], stage, now)
  {
    hide CoreOf, TokensOk, Answers, Digests;
    if Owns(w.db.jobs, action.claim) {
      OwnedIsLatest(w, action.claim);
    }
  }

  /** The log shows this stage of this attempt: since before, or by one entry more, and never twice. */
  ghost predicate RecordedOnce(before: seq<Activity>, after: seq<Activity>, id: JobId, job: Job, stage: JobStage, now: Micros) {
    match job.scope
    case OfDay(_) => after == before
    case OfRecording(recording) =>
      if exists i :: 0 <= i < |before| && before[i].job == id && before[i].attempt == job.attempts
                     && before[i].event.StageStarted? && before[i].stage == stage
      then after == before
      else after == before + [Activity(recording, id, StageStarted, stage, job.attempts, now)]
  }
}
