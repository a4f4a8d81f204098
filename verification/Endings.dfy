/** How an attempt ends, what is queued behind it, and how long a retry and a lease last: said of the stored
    columns along whole runs. */
module Endings {
  import opened Prelude
  import opened Days
  import opened Schema
  import opened Queue
  import opened Services
  import opened Jobs
  import opened Protocol
  import opened Keeping
  import opened Fencing
  import opened Ledger
  import Starvation

  // ----- how long a retry waits -----

  function Doubled(delay: Micros, times: nat): Micros {
    if times == 0 then delay else 2 * Doubled(delay, times - 1)
  }

  /** The wait after a failed attempt: the base delay, doubled for every attempt before it but at most thirty
      times, and never more than the cap. */
  function WaitAfter(base: Micros, cap: Micros, attempts: nat): Micros
    requires attempts >= 1
  {
    var wait := Doubled(base, if attempts <= 31 then attempts - 1 else 30);
    if wait <= cap then wait else cap
  }

  lemma {:induction false} DoubledIsPower(delay: Micros, times: nat)
    ensures Doubled(delay, times) == delay * Power2(times)
  {
    if times > 0 {
      DoubledIsPower(delay, times - 1);
      var power := Power2(times - 1);
      assert delay * (2 * power) == 2 * (delay * power);
    } else {
      assert delay * 1 == delay;
    }
  }

  lemma DelayIsWait(policy: RetryPolicy, attempts: nat)
    requires policy.Valid() && attempts >= 1
    ensures policy.DelayAfter(attempts) == WaitAfter(policy.baseDelay, policy.maxDelay, attempts)
  {
    DoubledIsPower(policy.baseDelay, if attempts <= 31 then attempts - 1 else 30);
  }

  // ----- the row an attempt leaves -----

  predicate DoneRow(a: Job, b: Job, now: Micros) {
    b == a.(status := Completed, stage := StageCompleted, finishedAt := Some(now), heartbeatAt := Some(now),
            leaseExpiresAt := None, claimToken := None)
  }

  predicate RetriedRow(a: Job, b: Job, note: FailureNote, now: Micros, policy: RetryPolicy) {
    && a.attempts >= 1
    && b == a.(status := Queued, stage := StageQueued,
               availableAt := now + WaitAfter(policy.baseDelay, policy.maxDelay, a.attempts),
               failure := Some(note), claimToken := None, workerId := None, claimedAt := None, heartbeatAt := None,
               leaseExpiresAt := None)
  }

  predicate GivenUpRow(a: Job, b: Job, note: FailureNote, now: Micros) {
    b == a.(status := Failed, finishedAt := Some(now), failure := Some(note), claimToken := None, workerId := None,
            claimedAt := None, heartbeatAt := None, leaseExpiresAt := None)
  }

  // ----- what is queued behind it -----

  predicate AnalysisOn(switches: Option<Switches>) {
    switches.None? || switches.value.analysis
  }

  predicate TranslationOn(switches: Option<Switches>) {
    switches.None? || switches.value.translation
  }

  /** One job more: the next step of the same recording, queued under a fresh id, a microsecond after now. */
  ghost predicate QueuedNext(before: map<JobId, Job>, after: map<JobId, Job>, job: Job, newId: JobId, kind: JobKind,
                             now: Micros)
  {
    && newId !in before && after.Keys == before.Keys + {newId}
    && after[newId] == Job(job.scope, kind, if kind.Analysis? then Some(Translation) else None, Queued, StageQueued, 0,
                           job.maxAttempts, now + 1, now, None, None, None, None, None, None, None, None)
  }

  /** A full job hands on when it completes, an analysis with a follow-up whenever it ends, and nothing else does. */
  predicate HandsOn(job: Job, completed: bool) {
    (job.kind.Full? && completed) || (job.kind.Analysis? && job.followUp.Some?)
  }

  ghost predicate Succeeds(before: map<JobId, Job>, after: map<JobId, Job>, switches: Option<Switches>, job: Job,
                           completed: bool, newId: JobId, now: Micros)
  {
    if job.kind.Full? && completed && AnalysisOn(switches) then QueuedNext(before, after, job, newId, Analysis, now)
    else if HandsOn(job, completed) && TranslationOn(switches) then QueuedNext(before, after, job, newId, Translation, now)
    else after.Keys == before.Keys
  }

  // ----- one ending, table by table -----

  ghost predicate SettlesJobs(before: map<JobId, Job>, after: map<JobId, Job>, switches: Option<Switches>, id: JobId,
                              newId: JobId, now: Micros)
    requires id in before
  {
    && id in after
    && (forall other :: other in before && other != id ==> other in after && after[other] == before[other])
    && (if after[id].status.Queued? then after.Keys == before.Keys
        else Succeeds(before, after, switches, before[id], after[id].status.Completed?, newId, now))
  }

  ghost predicate SettlesLog(before: Db, after: Db, id: JobId, event: ActivityType, stage: JobStage, newId: JobId, now: Micros)
    requires id in before.jobs
  {
    match before.jobs[id].scope
    case OfDay(_) => after.log == before.log
    case OfRecording(r) =>
      var ended := before.log + [Activity(r, id, event, stage, before.jobs[id].attempts, now)];
      after.log == if after.jobs.Keys == before.jobs.Keys then ended
                   else ended + [Activity(r, newId, JobQueued, StageQueued, 0, now + 1)]
  }

  /** Only a full job moves its recording's status. */
  ghost predicate SettlesStatus(before: map<RecordingId, Recording>, after: map<RecordingId, Recording>, job: Job,
                                status: RecordingStatus)
  {
    && after.Keys == before.Keys
    && forall r :: r in before ==>
         after[r] == if job.kind.Full? && job.scope == OfRecording(r) then before[r].(status := status) else before[r]
  }

  ghost predicate Settles(before: Db, after: Db, id: JobId, status: RecordingStatus, event: ActivityType, stage: JobStage,
                          newId: JobId, now: Micros)
    requires id in before.jobs
  {
    && SettlesJobs(before.jobs, after.jobs, before.switches, id, newId, now)
    && SettlesLog(before, after, id, event, stage, newId, now)
    && SettlesStatus(before.recordings, after.recordings, before.jobs[id], status)
    && after.switches == before.switches && after.summaries == before.summaries
  }

  lemma StatusIs(recordings: map<RecordingId, Recording>, job: Job, status: RecordingStatus)
    ensures SettlesStatus(recordings, WithStatus(recordings, job, status), job, status)
  {
  }

  /** The successor in cases, for a job in its place of the chain. */
  lemma SuccessorIs(db: Db, job: Job)
    requires ChainOk(job.kind, job.followUp) && (job.kind.DailySummary? <==> job.scope.OfDay?)
    ensures Successor(db, job)
         == if job.kind.Full? && AnalysisOn(db.switches) then Some(Analysis)
            else if (job.kind.Full? || (job.kind.Analysis? && job.followUp.Some?)) && TranslationOn(db.switches)
            then Some(Translation) else None
  {
    var s := AutomaticFollowUps(db.switches);
    assert FirstEnabled(s, None) == None;
    assert FirstEnabled(s, Some(Translation)) == if s.translation then Some(Translation) else None;
    assert FirstEnabled(s, Some(Analysis)) == if s.analysis then Some(Analysis) else FirstEnabled(s, Some(Translation));
  }

  /** The ending event is new, so it is recorded; so is the first event of the job behind it. */
  lemma EndingIsLogged(jobs: map<JobId, Job>, log: seq<Activity>, used: set<JobId>, id: JobId, job: Job,
                       event: ActivityType, stage: JobStage, now: Micros)
    requires LedgerOk(jobs, log, used) && id in jobs && jobs[id].status.Processing? && Ends(event)
    requires job.scope == jobs[id].scope && job.attempts == jobs[id].attempts
    ensures Logged(log, id, job, event, stage, now)
         == if job.scope.OfDay? then log
            else log + [Activity(job.scope.recording, id, event, stage, job.attempts, now)]
  {
    if job.scope.OfRecording? {
      RecordedAfresh(jobs, log, used, id, job, Activity(job.scope.recording, id, event, stage, job.attempts, now));
    }
  }

  lemma NextIsLogged(jobs: map<JobId, Job>, log: seq<Activity>, used: set<JobId>, newId: JobId, next: Job, now: Micros)
    requires LedgerOk(jobs, log, used) && newId !in used && next.attempts == 0 && next.scope.OfRecording?
    ensures Logged(log, newId, next, JobQueued, StageQueued, now + 1)
         == log + [Activity(next.scope.recording, newId, JobQueued, StageQueued, 0, now + 1)]
  {
    RecordedAfresh(jobs, log, used, newId, next, Activity(next.scope.recording, newId, JobQueued, StageQueued, 0, now + 1));
  }

  lemma EndSettles(db: Db, used: set<JobId>, id: JobId, job: Job, status: RecordingStatus, event: ActivityType,
                   stage: JobStage, newId: JobId, now: Micros)
    requires LedgerOf(db, used) && id in db.jobs && db.jobs[id].status.Processing? && JobOk(db.jobs[id]) && Ends(event)
    requires SameIdentity(db.jobs[id], job) && job.attempts == db.jobs[id].attempts
    requires job.status.Queued? || (job.status.Failed? && job.kind.Full?)
    ensures Settles(db, Ended(db, id, job, status, Logged(db.log, id, job, event, stage, now)), id, status, event, stage, newId, now)
  {
    hide LedgerOk, Logged, WithStatus;
    EndingIsLogged(db.jobs, db.log, used, id, job, event, stage, now);
    StatusIs(db.recordings, job, status);
  }

  /** What a hand-off adds, with its event. */
  lemma HandOffAdds(db: Db, used: set<JobId>, job: Job, newId: JobId, now: Micros)
    requires LedgerOk(db.jobs, db.log, used) && newId !in used && db.jobs.Keys <= used
    requires ChainOk(job.kind, job.followUp) && (job.kind.DailySummary? <==> job.scope.OfDay?)
    requires job.status.Completed? || !job.kind.Full?
    ensures var after := HandOff(db, job, newId, now);
            && Succeeds(db.jobs, after.jobs, db.switches, job, true, newId, now)
            && (forall other :: other in db.jobs ==> other in after.jobs && after.jobs[other] == db.jobs[other])
            && after == db.(jobs := after.jobs, log := after.log)
            && after.log == if after.jobs.Keys == db.jobs.Keys || job.scope.OfDay? then db.log
                            else db.log + [Activity(job.scope.recording, newId, JobQueued, StageQueued, 0, now + 1)]
  {
    hide LedgerOk, Logged, Successor;
    SuccessorIs(db, job);
    match Successor(db, job)
    case None =>
    case Some(kind) =>
      var next := FreshJob(job.scope, kind, ChainedFollowUp(kind), job.maxAttempts, now + 1, now);
      NextIsLogged(db.jobs, db.log, used, newId, next, now);
      assert newId in HandOff(db, job, newId, now).jobs;
  }

  lemma HandOffSettles(db: Db, used: set<JobId>, id: JobId, job: Job, status: RecordingStatus, event: ActivityType,
                       stage: JobStage, newId: JobId, now: Micros, ended: Db, after: Db)
    requires LedgerOf(db, used) && id in db.jobs && db.jobs[id].status.Processing? && JobOk(db.jobs[id]) && Ends(event)
    requires SameIdentity(db.jobs[id], job) && job.attempts == db.jobs[id].attempts && newId !in used
    requires job.status.Completed? || (job.status.Failed? && !job.kind.Full?)
    requires ended == Ended(db, id, job, status, Logged(db.log, id, job, event, stage, now))
    requires after == HandOff(ended, job, newId, now)
    ensures Settles(db, after, id, status, event, stage, newId, now)
    ensures id in after.jobs && after.jobs[id] == job
  {
    hide LedgerOk, Logged, WithStatus, HandOff, SettlesStatus, SettlesJobs, SettlesLog, Succeeds;
    StatusIs(db.recordings, job, status);
    SameSettling(db.recordings, ended.recordings, db.jobs[id], job, status);
    EndKeepsLedger(db, used, id, job, status, event, stage, now);
    HandOffAdds(ended, used, job, newId, now);
    HandOffSettlesJobs(db.jobs, ended.jobs, after.jobs, db.switches, id, job, newId, now);
    EndingIsLogged(db.jobs, db.log, used, id, job, event, stage, now);
    HandOffSettlesLog(db, ended, after, id, job, event, stage, newId, now);
  }

  lemma HandOffSettlesJobs(before: map<JobId, Job>, ended: map<JobId, Job>, after: map<JobId, Job>, switches: Option<Switches>,
                           id: JobId, job: Job, newId: JobId, now: Micros)
    requires id in before && ended == before[id := job] && SameIdentity(before[id], job)
    requires job.status.Completed? || (job.status.Failed? && !job.kind.Full?)
    requires forall other :: other in ended ==> other in after && after[other] == ended[other]
    requires Succeeds(ended, after, switches, job, true, newId, now)
    ensures SettlesJobs(before, after, switches, id, newId, now)
    ensures id in after && after[id] == job
  {
    hide Succeeds;
    assert ended.Keys == before.Keys;
    assert id in ended;
    SameSuccession(before, ended, after, switches, before[id], job, newId, now);
  }

  lemma HandOffSettlesLog(db: Db, ended: Db, after: Db, id: JobId, job: Job, event: ActivityType, stage: JobStage,
                          newId: JobId, now: Micros)
    requires id in db.jobs && SameIdentity(db.jobs[id], job) && (db.jobs[id].kind.DailySummary? <==> db.jobs[id].scope.OfDay?)
    requires ended.jobs == db.jobs[id := job]
    requires ended.log == if job.scope.OfDay? then db.log
                          else db.log + [Activity(job.scope.recording, id, event, stage, db.jobs[id].attempts, now)]
    requires Succeeds(ended.jobs, after.jobs, db.switches, job, true, newId, now)
    requires after.log == if after.jobs.Keys == ended.jobs.Keys || job.scope.OfDay? then ended.log
                          else ended.log + [Activity(job.scope.recording, newId, JobQueued, StageQueued, 0, now + 1)]
    ensures SettlesLog(db, after, id, event, stage, newId, now)
  {
    hide Succeeds;
    assert ended.jobs.Keys == db.jobs.Keys;
    if job.scope.OfDay? {
      DaysHandNothingOn(ended.jobs, after.jobs, db.switches, job, true, newId, now);
    }
  }

  lemma DaysHandNothingOn(before: map<JobId, Job>, after: map<JobId, Job>, switches: Option<Switches>, job: Job,
                          completed: bool, newId: JobId, now: Micros)
    requires job.kind.DailySummary? && Succeeds(before, after, switches, job, completed, newId, now)
    ensures after.Keys == before.Keys
  {
  }

  lemma SameSettling(before: map<RecordingId, Recording>, after: map<RecordingId, Recording>, a: Job, b: Job, status: RecordingStatus)
    requires SameIdentity(a, b) && SettlesStatus(before, after, b, status)
    ensures SettlesStatus(before, after, a, status)
  {
  }

  lemma SameSuccession(before: map<JobId, Job>, ended: map<JobId, Job>, after: map<JobId, Job>, switches: Option<Switches>,
                       a: Job, b: Job, newId: JobId, now: Micros)
    requires ended.Keys == before.Keys && SameIdentity(a, b) && (b.status.Completed? || !b.kind.Full?)
    requires Succeeds(ended, after, switches, b, true, newId, now)
    ensures Succeeds(before, after, switches, a, b.status.Completed?, newId, now)
  {
  }

  // ----- the three endings -----

  lemma FinishSettles(db: Db, used: set<JobId>, id: JobId, newId: JobId, now: Micros)
    requires LedgerOf(db, used) && id in db.jobs && db.jobs[id].status.Processing? && JobOk(db.jobs[id]) && newId !in used
    ensures var after := Finish(db, id, now, newId);
            && id in after.jobs && Settles(db, after, id, RecCompleted, ProcessingCompleted, StageCompleted, newId, now)
            && DoneRow(db.jobs[id], after.jobs[id], now)
  {
    hide LedgerOf, Logged, WithStatus, HandOff, JobOk, Settles;
    var job := Done(db.jobs[id], now);
    HandOffSettles(db, used, id, job, RecCompleted, ProcessingCompleted, StageCompleted, newId, now,
                   Ended(db, id, job, RecCompleted, Logged(db.log, id, job, ProcessingCompleted, StageCompleted, now)),
                   Finish(db, id, now, newId));
  }

  /** A failed or abandoned attempt: another one if any is left and it may be retried, or the end. */
  lemma FailureSettles(db: Db, used: set<JobId>, id: JobId, note: FailureNote, retry: bool, now: Micros,
                       policy: RetryPolicy, event: ActivityType, newId: JobId)
    requires policy.Valid() && LedgerOf(db, used) && id in db.jobs && db.jobs[id].status.Processing? && JobOk(db.jobs[id])
    requires newId !in used && Ends(event)
    ensures var after := if retry then Requeue(db, id, note, now, policy, event) else GiveUp(db, id, note, now, event, newId);
            && id in after.jobs
            && Settles(db, after, id, if retry then RecQueued else RecFailed, event, note.stage, newId, now)
            && (if retry then RetriedRow(db.jobs[id], after.jobs[id], note, now, policy)
                else GivenUpRow(db.jobs[id], after.jobs[id], note, now))
  {
    hide LedgerOf, Logged, WithStatus, HandOff, Settles;
    DelayIsWait(policy, db.jobs[id].attempts);
    var job := if retry then Requeued(db.jobs[id], note, now, policy) else GivenUp(db.jobs[id], note, now);
    var status := if retry then RecQueued else RecFailed;
    if retry || job.kind.Full? {
      EndSettles(db, used, id, job, status, event, note.stage, newId, now);
    } else {
      HandOffSettles(db, used, id, job, status, event, note.stage, newId, now,
                     Ended(db, id, job, status, Logged(db.log, id, job, event, note.stage, now)),
                     GiveUp(db, id, note, now, event, newId));
    }
  }

  // ----- one step -----

  /** The step takes a running job out of its attempt. */
  ghost predicate Stops(before: map<JobId, Job>, after: map<JobId, Job>, id: JobId) {
    id in before && before[id].status.Processing? && id in after && !after[id].status.Processing?
  }

  /** Only its owner's completion, its owner's failure and its recovery do. */
  lemma StopsByEnding(cfg: Config, w: World, now: Micros, action: Action, id: JobId)
    requires cfg.Valid() && Possible(w, now, action) && WorldCore(w)
    requires Stops(w.db.jobs, Next(cfg, w, now, action).jobs, id)
    ensures
      || (action.DoComplete? && action.claim.id == id && Owns(w.db.jobs, action.claim)
          && Complete(w.db, action.claim, InputOf(w, action.claim), action.outcome, now, action.jobId).Success?)
      || (action.DoFail? && action.claim.id == id && Owns(w.db.jobs, action.claim))
      || (action.DoRecover? && action.id == id)
  {
    hide CoreOf, Answers, Digests, Persist, Successor, Logged, WithStatus, ApplyEdit, NoActive, WithoutRecording, HasJob;
    if action.DoComplete? {
      PersistKeepsJobs(w.db, action.claim, InputOf(w, action.claim), action.outcome);
    }
  }

  lemma PersistKeepsRest(db: Db, claim: ClaimedJob, input: Option<Input>, outcome: Outcome)
    requires Answers(claim.kind, input, outcome) && Persist(db, claim, input, outcome).Success?
    ensures var after := Persist(db, claim, input, outcome).value;
            && after.jobs == db.jobs && after.log == db.log && after.switches == db.switches
            && after.recordings.Keys == db.recordings.Keys
            && forall r :: r in db.recordings ==> after.recordings[r].status == db.recordings[r].status
  {
    hide Answers, PersistRecording, Revisions, KeyPoints;
    if claim.scope.OfRecording? && claim.scope.recording in db.recordings && !outcome.DaySkipped? && !outcome.DaySummarised? {
      ContentKeepsStatus(db.recordings[claim.scope.recording], input, outcome, claim.kind);
    }
  }

  /** A completed job: its row, what is queued behind it, its event, and its recording's status. */
  lemma CompletionIs(cfg: Config, w: World, now: Micros, action: Action)
    requires cfg.Valid() && Possible(w, now, action) && WorldCore(w) && LedgerOf(w.db, w.usedJobs)
    requires action.DoComplete?
             && Complete(w.db, action.claim, InputOf(w, action.claim), action.outcome, now, action.jobId).Success?
    ensures var id, after := action.claim.id, Next(cfg, w, now, action);
            && id in w.db.jobs && id in after.jobs && DoneRow(w.db.jobs[id], after.jobs[id], now)
            && SettlesJobs(w.db.jobs, after.jobs, w.db.switches, id, action.jobId, now)
            && SettlesLog(w.db, after, id, ProcessingCompleted, StageCompleted, action.jobId, now)
            && after.switches == w.db.switches && after.recordings.Keys == w.db.recordings.Keys
            && forall r :: r in w.db.recordings ==>
                 after.recordings[r].status == if w.db.jobs[id].kind.Full? && w.db.jobs[id].scope == OfRecording(r)
                                               then RecCompleted else w.db.recordings[r].status
  {
    hide CoreOf, Answers, Persist, Finish, LedgerOk, Succeeds, JobOk;
    PersistKeepsRest(w.db, action.claim, InputOf(w, action.claim), action.outcome);
    CoreJobOk(w.db, action.claim.id);
    FinishSettles(Persist(w.db, action.claim, InputOf(w, action.claim), action.outcome).value, w.usedJobs, action.claim.id,
                  action.jobId, now);
  }

  /** The note a failed or abandoned attempt leaves, and whether another attempt follows. */
  ghost predicate FailsWith(w: World, now: Micros, action: Action, id: JobId, note: FailureNote, retry: bool) {
    && id in w.db.jobs
    && var job := w.db.jobs[id];
       match action
       case DoFail(claim, failure, _) =>
         && claim.id == id && Owns(w.db.jobs, claim)
         && note == FailureNote(if failure.stage.Some? then failure.stage.value else job.stage, failure.code, now)
         && retry == (failure.retryable && job.attempts < job.maxAttempts)
       case DoRecover(other, _) =>
         && other == id && note == FailureNote(job.stage, "worker_lease_expired", now)
         && retry == (job.attempts < job.maxAttempts)
       case _ => false
  }

  function EventOf(action: Action, retry: bool): ActivityType {
    if action.DoRecover? then LeaseRecovered else if retry then RetryScheduled else ProcessingFailed
  }

  /** A failed or abandoned job: queued again while it may be, given up otherwise. */
  lemma FailureIs(cfg: Config, w: World, now: Micros, action: Action, id: JobId, note: FailureNote, retry: bool)
    requires cfg.Valid() && Possible(w, now, action) && WorldCore(w) && LedgerOf(w.db, w.usedJobs)
    requires FailsWith(w, now, action, id, note, retry)
    ensures var after := Next(cfg, w, now, action);
            && id in after.jobs
            && Settles(w.db, after, id, if retry then RecQueued else RecFailed, EventOf(action, retry), note.stage,
                       action.jobId, now)
            && (if retry then RetriedRow(w.db.jobs[id], after.jobs[id], note, now, cfg.policy)
                else GivenUpRow(w.db.jobs[id], after.jobs[id], note, now))
  {
    hide CoreOf, Requeue, GiveUp, LedgerOk, Settles, ChainOk;
    CoreJobOk(w.db, id);
    FailureSettles(w.db, w.usedJobs, id, note, retry, now, cfg.policy, EventOf(action, retry), action.jobId);
  }

  // ----- along a run -----

  /** Whatever ends an attempt leaves exactly one of three rows, and settles the job table in the one way. */
  lemma AttemptEnds(cfg: Config, worlds: seq<World>, times: seq<Micros>, actions: seq<Action>, i: nat, id: JobId)
    returns (newId: JobId, note: FailureNote)
    requires IsRun(cfg, worlds, times, actions) && i < |actions|
    requires Stops(worlds[i].db.jobs, worlds[i + 1].db.jobs, id)
    ensures SettlesJobs(worlds[i].db.jobs, worlds[i + 1].db.jobs, worlds[i].db.switches, id, newId, times[i])
    ensures var a, b := worlds[i].db.jobs[id], worlds[i + 1].db.jobs[id];
            || DoneRow(a, b, times[i])
            || RetriedRow(a, b, note, times[i], cfg.policy)
            || GivenUpRow(a, b, note, times[i])
  {
    hide WorldCore, Step, Possible, LedgerOf, Settles, SettlesJobs, Complete, Owns;
    RunKeepsFence(cfg, worlds, times, actions, i);
    RunKeepsLedger(cfg, worlds, times, actions, i);
    var w, now, action := worlds[i], times[i], actions[i];
    assert Follows(cfg, w, now, action, worlds[i + 1]);
    Starvation.StepTables(cfg, w, now, action);
    StopsByEnding(cfg, w, now, action, id);
    newId := action.jobId;
    note := FailureNote(w.db.jobs[id].stage, "worker_lease_expired", now);
    if action.DoComplete? {
      CompletionIs(cfg, w, now, action);
    } else {
      var retry := w.db.jobs[id].attempts < w.db.jobs[id].maxAttempts;
      if action.DoFail? {
        note := FailureNote(if action.failure.stage.Some? then action.failure.stage.value else w.db.jobs[id].stage,
                            action.failure.code, now);
        retry := action.failure.retryable && retry;
      }
      FailureIs(cfg, w, now, action, id, note, retry);
      SettlesItsJobs(w.db, worlds[i + 1].db, id, if retry then RecQueued else RecFailed, EventOf(action, retry),
                     note.stage, newId, now);
    }
  }

  lemma SettlesItsJobs(before: Db, after: Db, id: JobId, status: RecordingStatus, event: ActivityType, stage: JobStage,
                       newId: JobId, now: Micros)
    requires id in before.jobs && Settles(before, after, id, status, event, stage, newId, now)
    ensures SettlesJobs(before.jobs, after.jobs, before.switches, id, newId, now)
  {
  }

  /** The kind of the step after this job, once it has ended for good; the kinds switched off are passed over. */
  predicate NextIs(job: Job, completed: bool, switches: Option<Switches>, kind: JobKind) {
    match kind
    case Analysis => job.kind.Full? && completed && AnalysisOn(switches)
    case Translation => HandsOn(job, completed) && TranslationOn(switches) && (job.kind.Full? ==> !AnalysisOn(switches))
    case _ => false
  }

  /** At most one job of this scope is queued or running: this one. */
  ghost predicate OnlyActive(jobs: map<JobId, Job>, scope: Scope, which: Option<JobId>) {
    && (which.Some? ==> which.value in jobs && jobs[which.value].scope == scope)
    && forall id :: id in jobs && jobs[id].scope == scope ==> (Active(jobs[id]) <==> which == Some(id))
  }

  /** After an attempt has ended, the recording has an active job if and only if the job goes on itself or a later
      step is switched on; then it is that one, queued a microsecond later with every attempt still to come. */
  lemma EndedJobHandsOn(cfg: Config, worlds: seq<World>, times: seq<Micros>, actions: seq<Action>, i: nat, id: JobId)
    returns (newId: JobId)
    requires IsRun(cfg, worlds, times, actions) && i < |actions|
    requires Stops(worlds[i].db.jobs, worlds[i + 1].db.jobs, id)
    ensures var before, after, switches := worlds[i].db.jobs, worlds[i + 1].db.jobs, worlds[i].db.switches;
            var job, completed := before[id], after[id].status.Completed?;
            if after[id].status.Queued? then
              after.Keys == before.Keys && OnlyActive(after, job.scope, Some(id))
            else if NextIs(job, completed, switches, Analysis) then
              QueuedNext(before, after, job, newId, Analysis, times[i]) && OnlyActive(after, job.scope, Some(newId))
            else if NextIs(job, completed, switches, Translation) then
              QueuedNext(before, after, job, newId, Translation, times[i]) && OnlyActive(after, job.scope, Some(newId))
            else
              after.Keys == before.Keys && OnlyActive(after, job.scope, None)
  {
    hide AllJobs, AllWaiting, Step, Possible;
    var note;
    newId, note := AttemptEnds(cfg, worlds, times, actions, i, id);
    RunKeepsFence(cfg, worlds, times, actions, i);
    EndedIsTerminal(worlds[i].db.jobs[id], worlds[i + 1].db.jobs[id], note, times[i], cfg.policy);
    SettledHandsOn(worlds[i].db.jobs, worlds[i + 1].db.jobs, worlds[i].db.switches, id, newId, times[i]);
  }

  lemma EndedIsTerminal(a: Job, b: Job, note: FailureNote, now: Micros, policy: RetryPolicy)
    requires DoneRow(a, b, now) || RetriedRow(a, b, note, now, policy) || GivenUpRow(a, b, note, now)
    ensures b.scope == a.scope && (b.status.Queued? || Terminal(b))
  {
  }

  lemma SettledHandsOn(before: map<JobId, Job>, after: map<JobId, Job>, switches: Option<Switches>, id: JobId,
                       newId: JobId, now: Micros)
    requires id in before && SettlesJobs(before, after, switches, id, newId, now) && OneActive(before) && Active(before[id])
    requires after[id].scope == before[id].scope && (after[id].status.Queued? || Terminal(after[id]))
    ensures var job, completed := before[id], after[id].status.Completed?;
            if after[id].status.Queued? then
              after.Keys == before.Keys && OnlyActive(after, job.scope, Some(id))
            else if NextIs(job, completed, switches, Analysis) then
              QueuedNext(before, after, job, newId, Analysis, now) && OnlyActive(after, job.scope, Some(newId))
            else if NextIs(job, completed, switches, Translation) then
              QueuedNext(before, after, job, newId, Translation, now) && OnlyActive(after, job.scope, Some(newId))
            else
              after.Keys == before.Keys && OnlyActive(after, job.scope, None)
  {
    var which := if after[id].status.Queued? then Some(id) else if after.Keys == before.Keys then None else Some(newId);
    forall other | other in after && after[other].scope == before[id].scope
      ensures Active(after[other]) <==> which == Some(other)
    {
      assert other in before || other == newId;
    }
  }

  // ----- a retry waits -----

  /** A queued job is claimed by nobody before it is available. */
  lemma {:induction false} ClaimsWait(cfg: Config, worlds: seq<World>, times: seq<Micros>, actions: seq<Action>,
                                      i: nat, j: nat, id: JobId)
    requires IsRun(cfg, worlds, times, actions) && i <= j < |actions|
    requires id in worlds[i].db.jobs && worlds[i].db.jobs[id].status.Queued?
    requires actions[j].DoClaim? && actions[j].id == id
    ensures times[j] >= worlds[i].db.jobs[id].availableAt
    decreases j - i
  {
    hide WorldCore, Step, Possible;
    assert Follows(cfg, worlds[i], times[i], actions[i], worlds[i + 1]);
    RunKeepsFence(cfg, worlds, times, actions, i);
    if actions[i].DoClaim? && actions[i].id == id {
      ClaimIsDue(cfg, worlds[i], times[i], actions[i]);
      TimesGrow(cfg, worlds, times, actions, i, j);
    } else {
      Starvation.QueuedWaits(cfg, worlds[i], times[i], actions[i], worlds[i + 1], id);
      ClaimsWait(cfg, worlds, times, actions, i + 1, j, id);
    }
  }

  lemma ClaimIsDue(cfg: Config, w: World, now: Micros, action: Action)
    requires cfg.Valid() && Possible(w, now, action) && action.DoClaim?
    ensures action.id in w.db.jobs && w.db.jobs[action.id].availableAt <= now && w.db.jobs[action.id].status.Queued?
  {
  }

  lemma {:induction false} TimesGrow(cfg: Config, worlds: seq<World>, times: seq<Micros>, actions: seq<Action>, i: nat, j: nat)
    requires IsRun(cfg, worlds, times, actions) && i <= j < |actions|
    ensures times[i] <= times[j]
  {
    hide Step, Possible;
    if i < j {
      TimesGrow(cfg, worlds, times, actions, i, j - 1);
      assert Follows(cfg, worlds[j - 1], times[j - 1], actions[j - 1], worlds[j - 1 + 1]);
      assert Follows(cfg, worlds[j], times[j], actions[j], worlds[j + 1]);
      Starvation.TimeMoves(cfg, worlds[j - 1], times[j - 1], actions[j - 1]);
      Starvation.TimeMoves(cfg, worlds[j], times[j], actions[j]);
    }
  }

  /** A failure or a recovery that queues a job again makes it wait: nothing claims it before its delay is over,
      and from that moment, while nothing has claimed it, it is queued unchanged for every worker of its kind. */
  lemma RetryWaits(cfg: Config, worlds: seq<World>, times: seq<Micros>, actions: seq<Action>, i: nat, j: nat, id: JobId)
    requires IsRun(cfg, worlds, times, actions) && i < j < |worlds|
    requires Stops(worlds[i].db.jobs, worlds[i + 1].db.jobs, id) && worlds[i + 1].db.jobs[id].status.Queued?
    ensures worlds[i].db.jobs[id].attempts >= 1
    ensures var due := times[i] + WaitAfter(cfg.policy.baseDelay, cfg.policy.maxDelay, worlds[i].db.jobs[id].attempts);
            && (j < |actions| && actions[j].DoClaim? && actions[j].id == id ==> times[j] >= due)
            && ((forall k :: i < k < j && actions[k].DoClaim? ==> actions[k].id != id) ==>
                  && id in worlds[j].db.jobs && worlds[j].db.jobs[id] == worlds[i + 1].db.jobs[id]
                  && forall now, kinds :: Claimable(worlds[j].db.jobs[id], now, kinds) <==>
                       now >= due && (kinds.None? || worlds[i].db.jobs[id].kind in kinds.value))
  {
    hide WorldCore, Follows, SettlesJobs, WaitAfter;
    var newId, note := AttemptEnds(cfg, worlds, times, actions, i, id);
    if j < |actions| && actions[j].DoClaim? && actions[j].id == id {
      ClaimsWait(cfg, worlds, times, actions, i + 1, j, id);
    }
    if forall k :: i < k < j && actions[k].DoClaim? ==> actions[k].id != id {
      Starvation.WaitsUnclaimed(cfg, worlds, times, actions, i + 1, j, id, worlds[i + 1].db.jobs[id]);
    }
  }
}
