/** One worker's round: claim a job, process it, and end the claim one way or the other (jobs/worker.py). */
module Workers {
  import opened Prelude
  import opened Days
  import opened Schema
  import opened Queue
  import opened Translations
  import opened Services
  import opened Jobs
  import opened Protocol
  import opened Fencing
  import Keeping
  import Sentences
  import TranslationWrites
  import opened Tables
  import opened Persisters
  import opened LeaseQueue

  /** What became of the processing itself. */
  datatype Work =
    | LeaseLost
    | Raised(failure: JobFailure)
    | Crashed
    | Produced(input: Option<Input>, outcome: Outcome)

  /** An exception that is not one of the program's own is retried, with nothing of its text kept. */
  const Unexpected: JobFailure := JobFailure("unexpected_processing_failure", true, None)

  /** The two errors a result writer raises for good; anything else it trips over is unexpected. */
  function PersistFailure(error: string): JobFailure {
    if error == "recording_missing" || error == "daily_summary_day_changed" then JobFailure(error, false, None)
    else Unexpected
  }

  function Recorded(db: Db, claim: ClaimedJob, failure: JobFailure, now: Micros, policy: RetryPolicy, newId: JobId): Db
    requires policy.Valid()
  {
    OrElse(Fail(db, claim, failure, now, policy, newId), db)
  }

  /** The tables once the worker is done with a claim. */
  function Settled(db: Db, claim: ClaimedJob, work: Work, now: Micros, policy: RetryPolicy, newId: JobId): Db
    requires policy.Valid() && (work.Produced? ==> Answers(claim.kind, work.input, work.outcome))
  {
    match work
    case LeaseLost => db
    case Raised(failure) => Recorded(db, claim, failure, now, policy, newId)
    case Crashed => Recorded(db, claim, Unexpected, now, policy, newId)
    case Produced(input, outcome) =>
      match Services.Complete(db, claim, input, outcome, now, newId)
      case Success(after) => after
      case Failure(error) =>
        if !Owns(db.jobs, claim) then db else Recorded(db, claim, PersistFailure(error), now, policy, newId)
  }

  /** Unless the lease was lost, the job is not left running under the claim, whatever went wrong. */
  lemma SettlingEndsClaim(db: Db, claim: ClaimedJob, work: Work, now: Micros, policy: RetryPolicy, newId: JobId)
    requires policy.Valid() && (work.Produced? ==> Answers(claim.kind, work.input, work.outcome))
    requires Owns(db.jobs, claim) && JobOk(db.jobs[claim.id]) && !work.LeaseLost?
    ensures !Owns(Settled(db, claim, work, now, policy, newId).jobs, claim)
  {
    hide Owns, Services.Complete, Fail, Answers, JobOk;
    match work
    case Raised(failure) => FailureStops(db, claim, failure, now, policy, newId);
    case Crashed => FailureStops(db, claim, Unexpected, now, policy, newId);
    case Produced(input, outcome) =>
      match Services.Complete(db, claim, input, outcome, now, newId)
      case Success(_) => CompletionStops(db, claim, input, outcome, now, newId);
      case Failure(error) => FailureStops(db, claim, PersistFailure(error), now, policy, newId);
  }

  /** The row of a failed attempt: queued again if the failure may be retried and an attempt is left, else failed,
      with the code and the stage of the failure. */
  predicate FailedRow(before: Job, after: Job, code: string, retryable: bool, stage: Option<JobStage>, now: Micros) {
    && after.attempts == before.attempts
    && after.failure == Some(FailureNote(if stage.Some? then stage.value else before.stage, code, now))
    && (if retryable && before.attempts < before.maxAttempts then after.status.Queued? && after.availableAt > now
        else after.status.Failed? && after.finishedAt == Some(now))
  }

  lemma FailLeaves(db: Db, claim: ClaimedJob, failure: JobFailure, now: Micros, policy: RetryPolicy, newId: JobId)
    requires policy.Valid() && Owns(db.jobs, claim) && JobOk(db.jobs[claim.id]) && newId !in db.jobs
    ensures claim.id in Recorded(db, claim, failure, now, policy, newId).jobs
    ensures FailedRow(db.jobs[claim.id], Recorded(db, claim, failure, now, policy, newId).jobs[claim.id],
                      failure.code, failure.retryable, failure.stage, now)
  {
    hide Logged, WithStatus, Successor, ChainOk;
  }

  lemma CompleteLeaves(db: Db, claim: ClaimedJob, input: Option<Input>, outcome: Outcome, now: Micros, newId: JobId)
    requires Answers(claim.kind, input, outcome) && newId !in db.jobs
    requires Services.Complete(db, claim, input, outcome, now, newId).Success?
    ensures var after := Services.Complete(db, claim, input, outcome, now, newId).value.jobs;
            claim.id in after && after[claim.id].status.Completed? && after[claim.id].finishedAt == Some(now)
  {
    hide Logged, WithStatus, Successor, Answers, Persist;
    PersistKeepsJobs(db, claim, input, outcome);
  }

  lemma WhyRefused(w: World, claim: ClaimedJob, input: Option<Input>, outcome: Outcome, now: Micros, newId: JobId)
    requires Fenced(w) && Holds(w, claim) && Owns(w.db.jobs, claim) && Answers(claim.kind, input, outcome)
    requires Services.Complete(w.db, claim, input, outcome, now, newId).Failure?
    ensures PersistFailure(Services.Complete(w.db, claim, input, outcome, now, newId).error)
         == if outcome.DaySummarised? then JobFailure("daily_summary_day_changed", false, None)
            else JobFailure("unexpected_processing_failure", true, None)
    ensures outcome.DaySummarised? || outcome.Transcribed?
  {
    hide AllWaiting, OneActive, TokensOk, Finish, Retranscribed, Sentences.Grouped, RenderingsOf, Revisions,
         TranslationWrites.Written, KeyPoints;
    OwnedIsLatest(w, claim);
    Keeping.CoreJobOk(w.db, claim.id);
  }

  /** How an owned claim ends: a result that lands completes the job; a failure of the program's own says itself
      whether it may be retried; anything unexpected may, and a day that changed under its summary may not. */
  lemma SettlingDecides(w: World, claim: ClaimedJob, work: Work, now: Micros, policy: RetryPolicy, newId: JobId)
    requires policy.Valid() && (work.Produced? ==> Answers(claim.kind, work.input, work.outcome)) && newId !in w.usedJobs
    requires Fenced(w) && Holds(w, claim) && Owns(w.db.jobs, claim)
    ensures var after := Settled(w.db, claim, work, now, policy, newId);
            && claim.id in after.jobs
            && var a, b := w.db.jobs[claim.id], after.jobs[claim.id];
               match work
               case LeaseLost => after == w.db
               case Raised(failure) => FailedRow(a, b, failure.code, failure.retryable, failure.stage, now)
               case Crashed => FailedRow(a, b, "unexpected_processing_failure", true, None, now)
               case Produced(input, outcome) =>
                 if Services.Complete(w.db, claim, input, outcome, now, newId).Success? then
                   b.status.Completed? && b.finishedAt == Some(now)
                 else if outcome.DaySummarised? then FailedRow(a, b, "daily_summary_day_changed", false, None, now)
                 else outcome.Transcribed? && FailedRow(a, b, "unexpected_processing_failure", true, None, now)
  {
    hide AllJobs, AllWaiting, OneActive, TokensOk, Services.Complete, Fail, Answers, FailedRow, JobOk, PersistFailure;
    Keeping.CoreJobOk(w.db, claim.id);
    match work
    case LeaseLost =>
    case Raised(failure) => FailLeaves(w.db, claim, failure, now, policy, newId);
    case Crashed => FailLeaves(w.db, claim, Unexpected, now, policy, newId);
    case Produced(input, outcome) =>
      match Services.Complete(w.db, claim, input, outcome, now, newId)
      case Success(_) => CompleteLeaves(w.db, claim, input, outcome, now, newId);
      case Failure(error) =>
        WhyRefused(w, claim, input, outcome, now, newId);
        FailLeaves(w.db, claim, PersistFailure(error), now, policy, newId);
  }

  class Worker {
    const queue: JobQueue
    const kinds: Option<set<JobKind>>

    constructor (queue: JobQueue, kinds: Option<set<JobKind>>)
      ensures this.queue == queue && this.kinds == kinds
    {
      this.queue, this.kinds := queue, kinds;
    }

    /** Claims and settles at most one job. The processing is a parameter; other transactions that run while it
        works are the steps of a run and not part of this call. */
    method RunOnce(now: Micros, token: Token, process: ClaimedJob -> Work, later: Micros, newId: JobId)
      returns (processed: bool)
      requires queue.policy.Valid() && StartsDistinct(queue.db.recordings)
      requires forall claim :: process(claim).Produced? ==>
                 Answers(claim.kind, process(claim).input, process(claim).outcome)
      modifies queue.db
      ensures !processed <==> forall id :: id in old(queue.db.jobs) ==> !Claimable(old(queue.db.jobs)[id], now, kinds)
      ensures !processed ==> queue.db.Contents() == old(queue.db.Contents())
      ensures processed ==> exists id ::
                && IsFirst(old(queue.db.jobs), id, now, kinds)
                && var claimed := Claim(old(queue.db.Contents()), id, now, token, queue.workerId, queue.lease);
                   var claim := ClaimOf(id, claimed.jobs[id], token, queue.workerId);
                   queue.db.Contents() == Settled(claimed, claim, process(claim), later, queue.policy, newId)
    {
      hide Answers, Logged, WithStatus, Services.Complete, Fail, DistinctStarts, IsFirst;
      var claimed := queue.ClaimNext(now, kinds, token);
      if claimed.None? {
        return false;
      }
      var claim := claimed.value;
      ghost var before := queue.db.Contents();
      StatusKeepsStarts(old(queue.db.recordings), before.jobs[claim.id], RecProcessing);
      var work := process(claim);
      match work {
        case LeaseLost =>
        case Raised(failure) => RecordFailure(claim, failure, later, newId);
        case Crashed => RecordFailure(claim, Unexpected, later, newId);
        case Produced(input, outcome) =>
          var done := queue.Complete(claim, input, outcome, later, newId);
          if done.Failure? && Owns(queue.db.jobs, claim) {
            RecordFailure(claim, PersistFailure(done.error), later, newId);
          }
      }
      return true;
    }

    /** A failure of a claim that was lost meanwhile is ignored. */
    method RecordFailure(claim: ClaimedJob, failure: JobFailure, now: Micros, newId: JobId)
      requires queue.policy.Valid()
      modifies queue.db
      ensures queue.db.Contents() == Recorded(old(queue.db.Contents()), claim, failure, now, queue.policy, newId)
    {
      var r := queue.Fail(claim, failure, now, newId);
    }
  }

  lemma StatusKeepsStarts(recordings: map<RecordingId, Recording>, job: Job, status: RecordingStatus)
    requires StartsDistinct(recordings)
    ensures StartsDistinct(WithStatus(recordings, job, status))
  {
    hide DistinctStarts;
  }
}
