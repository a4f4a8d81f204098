/** The lease-based queue over mutable tables (jobs/queue.py); a call that fails leaves the tables as they were. */
module LeaseQueue {
  import opened Prelude
  import opened Days
  import opened Schema
  import opened Queue
  import opened Services
  import opened Tables
  import opened Persisters

  // ----- what a recovery query selects -----

  /** Oldest lease first, a missing lease last, then oldest job; ties in any order. */
  predicate RecoversBefore(a: Job, b: Job) {
    || (a.leaseExpiresAt.Some? && b.leaseExpiresAt.None?)
    || (a.leaseExpiresAt.Some? && b.leaseExpiresAt.Some? && a.leaseExpiresAt.value < b.leaseExpiresAt.value)
    || (a.leaseExpiresAt == b.leaseExpiresAt && a.createdAt < b.createdAt)
  }

  predicate IsExpired(jobs: map<JobId, Job>, id: JobId, now: Micros) {
    id in jobs && Expired(jobs[id], now)
  }

  predicate Distinct(ids: seq<JobId>) {
    forall i, j :: 0 <= i < j < |ids| ==> ids[i] != ids[j]
  }

  /** The oldest expired leases, at most limit of them and as many as there are. */
  ghost predicate OldestExpired(jobs: map<JobId, Job>, now: Micros, limit: nat, batch: seq<JobId>) {
    && |batch| <= limit && Distinct(batch)
    && (forall i :: 0 <= i < |batch| ==> IsExpired(jobs, batch[i], now))
    && (forall i, j :: 0 <= i < j < |batch| ==> !RecoversBefore(jobs[batch[j]], jobs[batch[i]]))
    && (forall id, i :: IsExpired(jobs, id, now) && id !in batch && 0 <= i < |batch| ==>
          !RecoversBefore(jobs[id], jobs[batch[i]]))
    && (|batch| < limit ==> forall id :: IsExpired(jobs, id, now) ==> id in batch)
  }

  /** The first n recoveries of a batch, one transaction on the tables. */
  function RecoverFirst(db: Db, batch: seq<JobId>, newIds: seq<JobId>, n: nat, now: Micros, policy: RetryPolicy): Result<Db>
    requires policy.Valid() && n <= |batch| <= |newIds|
  {
    if n == 0 then Success(db)
    else
      match RecoverFirst(db, batch, newIds, n - 1, now, policy)
      case Failure(error) => Failure(error)
      case Success(mid) =>
        if batch[n - 1] in mid.jobs then Recover(mid, batch[n - 1], now, policy, newIds[n - 1]) else Failure("missing")
  }

  /** How many of the first n have an attempt left. */
  function Retryable(jobs: map<JobId, Job>, batch: seq<JobId>, n: nat): nat
    requires n <= |batch| && forall i :: 0 <= i < |batch| ==> batch[i] in jobs
  {
    if n == 0 then 0 else Retryable(jobs, batch, n - 1) + if CanRetry(true, jobs[batch[n - 1]]) then 1 else 0
  }

  datatype RecoverySummary = RecoverySummary(requeued: nat, failed: nat)

  class JobQueue {
    const db: Database
    const workerId: string
    const lease: Micros
    const policy: RetryPolicy

    constructor (db: Database, workerId: string, lease: Micros, policy: RetryPolicy)
      requires policy.Valid() && lease > 0
      ensures this.db == db && this.workerId == workerId && this.lease == lease && this.policy == policy
    {
      this.db, this.workerId, this.lease, this.policy := db, workerId, lease, policy;
    }

    /** The row a claim query orders first, if any row qualifies. */
    method FirstClaimable(now: Micros, kinds: Option<set<JobKind>>) returns (first: Option<JobId>)
      ensures first.Some? ==> IsFirst(db.jobs, first.value, now, kinds)
      ensures first.None? ==> forall id :: id in db.jobs ==> !Claimable(db.jobs[id], now, kinds)
    {
      first := None;
      var unseen := db.jobs.Keys;
      while unseen != {}
        invariant unseen <= db.jobs.Keys
        invariant first.Some? ==> first.value in db.jobs - unseen && Claimable(db.jobs[first.value], now, kinds)
        invariant forall id :: id in db.jobs && id !in unseen && Claimable(db.jobs[id], now, kinds) ==>
                    first.Some? && (id != first.value ==> Before(db.jobs[first.value], first.value, db.jobs[id], id))
        decreases |unseen|
      {
        var id :| id in unseen;
        unseen := unseen - {id};
        if Claimable(db.jobs[id], now, kinds) {
          if first.None? || Before(db.jobs[id], id, db.jobs[first.value], first.value) {
            first := Some(id);
          }
        }
      }
    }

    /** Leases the first available job, or nothing when no job is available. */
    method ClaimNext(now: Micros, kinds: Option<set<JobKind>>, token: Token) returns (claim: Option<ClaimedJob>)
      modifies db
      ensures claim.None? <==> forall id :: id in old(db.jobs) ==> !Claimable(old(db.jobs)[id], now, kinds)
      ensures claim.None? ==> db.Contents() == old(db.Contents())
      ensures claim.Some? ==>
                && IsFirst(old(db.jobs), claim.value.id, now, kinds)
                && db.Contents() == Claim(old(db.Contents()), claim.value.id, now, token, workerId, lease)
                && claim.value == ClaimOf(claim.value.id, db.jobs[claim.value.id], token, workerId)
    {
      var first := FirstClaimable(now, kinds);
      if first.None? {
        return None;
      }
      var id := first.value;
      var job := db.jobs[id];
      job := job.(status := Processing, stage := ClaimedStage(job.kind), attempts := job.attempts + 1);
      job := job.(workerId := Some(workerId), claimToken := Some(token), claimedAt := Some(now));
      job := job.(heartbeatAt := Some(now), leaseExpiresAt := Some(now + lease));
      if job.startedAt.None? {
        job := job.(startedAt := Some(now));
      }
      job := job.(finishedAt := None, failure := None);
      db.jobs := db.jobs[id := job];
      db.MoveStatus(job, RecProcessing);
      db.AppendJobActivity(id, job, ProcessingStarted, job.stage, now);
      claim := Some(ClaimOf(id, job, token, workerId));
    }

    method Heartbeat(claim: ClaimedJob, now: Micros) returns (r: Result<()>)
      modifies db
      ensures r.Success? <==> Owns(old(db.jobs), claim)
      ensures var after := Queue.Heartbeat(old(db.Contents()), claim, now, lease);
              && r.Success? == after.Success? && (r.Failure? ==> r.error == after.error)
              && db.Contents() == if after.Success? then after.value else old(db.Contents())
    {
      if !Owns(db.jobs, claim) {
        return Failure("ClaimLostError");
      }
      var job := db.jobs[claim.id].(heartbeatAt := Some(now), leaseExpiresAt := Some(now + lease));
      db.jobs := db.jobs[claim.id := job];
      r := Success(());
    }

    method AdvanceStage(claim: ClaimedJob, stage: JobStage, now: Micros) returns (r: Result<()>)
      modifies db
      ensures r.Success? <==> Owns(old(db.jobs), claim) && !stage.StageQueued? && !stage.StageCompleted?
      ensures var after := Queue.AdvanceStage(old(db.Contents()), claim, stage, now, lease);
              && r.Success? == after.Success? && (r.Failure? ==> r.error == after.error)
              && db.Contents() == if after.Success? then after.value else old(db.Contents())
    {
      if stage.StageQueued? || stage.StageCompleted? {
        return Failure("ValueError");
      }
      if !Owns(db.jobs, claim) {
        return Failure("ClaimLostError");
      }
      var job := db.jobs[claim.id].(stage := stage, heartbeatAt := Some(now), leaseExpiresAt := Some(now + lease));
      db.jobs := db.jobs[claim.id := job];
      db.AppendJobActivity(claim.id, AsClaimed(job, claim), StageStarted, stage, now);
      r := Success(());
    }

    /** Marks the job done under the fence and queues what follows it. */
    method Complete(claim: ClaimedJob, input: Option<Input>, outcome: Outcome, now: Micros, newId: JobId)
      returns (r: Result<()>)
      requires Answers(claim.kind, input, outcome) && StartsDistinct(db.recordings)
      modifies db
      ensures !Owns(old(db.jobs), claim) ==> r.Failure?
      ensures var after := Services.Complete(old(db.Contents()), claim, input, outcome, now, newId);
              && r.Success? == after.Success? && (r.Failure? ==> r.error == after.error)
              && db.Contents() == if after.Success? then after.value else old(db.Contents())
    {
      hide Answers, Persist, Logged, HandOff, WithStatus, StartsDistinct;
      if !Owns(db.jobs, claim) {
        return Failure("ClaimLostError");
      }
      r := PersistResults(db, claim, input, outcome);
      if r.Failure? {
        return;
      }
      var job := db.jobs[claim.id];
      job := job.(status := Completed, stage := StageCompleted, finishedAt := Some(now), heartbeatAt := Some(now));
      job := job.(leaseExpiresAt := None, claimToken := None);
      db.jobs := db.jobs[claim.id := job];
      db.MoveStatus(job, RecCompleted);
      db.AppendJobActivity(claim.id, job, ProcessingCompleted, StageCompleted, now);
      db.QueueFollowUp(job, newId, now);
      r := Success(());
    }

    /** Schedules a retry with a growing delay, or gives the job up; says which. */
    method Fail(claim: ClaimedJob, failure: JobFailure, now: Micros, newId: JobId) returns (r: Result<bool>)
      requires policy.Valid()
      modifies db
      ensures r.Success? ==> Owns(old(db.jobs), claim)
      ensures r.Success? ==> r.value == CanRetry(failure.retryable, old(db.jobs)[claim.id])
      ensures var after := Queue.Fail(old(db.Contents()), claim, failure, now, policy, newId);
              && r.Success? == after.Success? && (r.Failure? ==> r.error == after.error)
              && db.Contents() == if after.Success? then after.value else old(db.Contents())
    {
      hide Logged, HandOff, WithStatus;
      if !Owns(db.jobs, claim) {
        return Failure("ClaimLostError");
      }
      var job := db.jobs[claim.id];
      var stage := if failure.stage.Some? then failure.stage.value else job.stage;
      var willRetry := CanRetry(failure.retryable, job);
      if willRetry && job.attempts < 1 {
        return Failure("ValueError");
      }
      job := job.(failure := Some(FailureNote(stage, failure.code, now)));
      job := job.(claimToken := None, workerId := None, claimedAt := None, heartbeatAt := None, leaseExpiresAt := None);
      if willRetry {
        job := job.(status := Queued, stage := StageQueued, availableAt := now + policy.DelayAfter(job.attempts));
        db.jobs := db.jobs[claim.id := job];
        db.MoveStatus(job, RecQueued);
        db.AppendJobActivity(claim.id, job, RetryScheduled, stage, now);
      } else {
        job := job.(status := Failed, finishedAt := Some(now));
        db.jobs := db.jobs[claim.id := job];
        db.MoveStatus(job, RecFailed);
        db.AppendJobActivity(claim.id, job, ProcessingFailed, stage, now);
        if !job.kind.Full? {
          db.QueueFollowUp(job, newId, now);
        }
      }
      r := Success(willRetry);
    }

    // ----- recovery -----

    method NextExpired(now: Micros, taken: seq<JobId>) returns (first: Option<JobId>)
      ensures first.Some? ==> IsExpired(db.jobs, first.value, now) && first.value !in taken
      ensures first.Some? ==> forall id :: IsExpired(db.jobs, id, now) && id !in taken ==>
                !RecoversBefore(db.jobs[id], db.jobs[first.value])
      ensures first.None? ==> forall id :: IsExpired(db.jobs, id, now) ==> id in taken
    {
      first := None;
      var unseen := db.jobs.Keys;
      while unseen != {}
        invariant unseen <= db.jobs.Keys
        invariant first.Some? ==> IsExpired(db.jobs, first.value, now) && first.value !in taken
        invariant forall id :: IsExpired(db.jobs, id, now) && id !in taken && id !in unseen ==>
                    first.Some? && !RecoversBefore(db.jobs[id], db.jobs[first.value])
        decreases |unseen|
      {
        var id :| id in unseen;
        unseen := unseen - {id};
        if IsExpired(db.jobs, id, now) && id !in taken {
          if first.None? || RecoversBefore(db.jobs[id], db.jobs[first.value]) {
            first := Some(id);
          }
        }
      }
    }

    method ExpiredBatch(now: Micros, limit: nat) returns (batch: seq<JobId>)
      ensures OldestExpired(db.jobs, now, limit, batch)
    {
      hide RecoversBefore, Expired;
      batch := [];
      while |batch| < limit
        invariant |batch| <= limit && Distinct(batch)
        invariant forall i :: 0 <= i < |batch| ==> IsExpired(db.jobs, batch[i], now)
        invariant forall i, j :: 0 <= i < j < |batch| ==> !RecoversBefore(db.jobs[batch[j]], db.jobs[batch[i]])
        invariant forall id, i :: IsExpired(db.jobs, id, now) && id !in batch && 0 <= i < |batch| ==>
                    !RecoversBefore(db.jobs[id], db.jobs[batch[i]])
      {
        var next := NextExpired(now, batch);
        if next.None? {
          return;
        }
        batch := batch + [next.value];
      }
    }

    /** Requeues or fails one abandoned lease. */
    method RecoverOne(id: JobId, now: Micros, newId: JobId) returns (r: Result<bool>)
      requires policy.Valid() && id in db.jobs
      modifies db
      ensures r.Success? ==> r.value == CanRetry(true, old(db.jobs)[id])
      ensures r.Success? == Recover(old(db.Contents()), id, now, policy, newId).Success?
      ensures r.Failure? ==> r.error == Recover(old(db.Contents()), id, now, policy, newId).error
      ensures r.Success? ==> db.Contents() == Recover(old(db.Contents()), id, now, policy, newId).value
    {
      hide Logged, HandOff, WithStatus;
      var job := db.jobs[id];
      var stage := job.stage;
      job := job.(failure := Some(FailureNote(stage, "worker_lease_expired", now)));
      job := job.(claimToken := None, workerId := None, claimedAt := None, heartbeatAt := None, leaseExpiresAt := None);
      var canRetry := CanRetry(true, job);
      if canRetry {
        if job.attempts < 1 {
          return Failure("ValueError");
        }
        job := job.(status := Queued, stage := StageQueued, availableAt := now + policy.DelayAfter(job.attempts));
      } else {
        job := job.(status := Failed, finishedAt := Some(now));
      }
      db.jobs := db.jobs[id := job];
      db.AppendJobActivity(id, job, LeaseRecovered, stage, now);
      db.MoveStatus(job, if canRetry then RecQueued else RecFailed);
      if !job.kind.Full? && !canRetry {
        db.QueueFollowUp(job, newId, now);
      }
      r := Success(canRetry);
    }

    /** Recovers the oldest abandoned leases in one transaction and counts what became of them. */
    method RecoverExpired(now: Micros, limit: nat, newIds: seq<JobId>)
      returns (r: Result<RecoverySummary>, ghost batch: seq<JobId>)
      requires policy.Valid() && limit >= 1
      requires |newIds| >= limit && forall i :: 0 <= i < |newIds| ==> newIds[i] !in db.jobs
      modifies db
      ensures OldestExpired(old(db.jobs), now, limit, batch)
      ensures var after := RecoverFirst(old(db.Contents()), batch, newIds, |batch|, now, policy);
              && r.Success? == after.Success? && (r.Failure? ==> r.error == after.error)
              && db.Contents() == if after.Success? then after.value else old(db.Contents())
      ensures r.Success? ==> r.value.requeued == Retryable(old(db.jobs), batch, |batch|)
      ensures r.Success? ==> r.value.requeued + r.value.failed == |batch|
    {
      hide Recover, OldestExpired;
      var begin := db.Contents();
      var rows := ExpiredBatch(now, limit);
      batch := rows;
      BatchRows(begin.jobs, now, limit, rows);
      var requeued, failed := 0, 0;
      for i := 0 to |rows|
        invariant RecoverFirst(begin, rows, newIds, i, now, policy) == Success(db.Contents())
        invariant forall k :: i <= k < |rows| ==> rows[k] in db.jobs && db.jobs[rows[k]] == begin.jobs[rows[k]]
        invariant requeued == Retryable(begin.jobs, rows, i) && requeued + failed == i
      {
        ghost var before := db.Contents();
        var retried := RecoverOne(rows[i], now, newIds[i]);
        if retried.Failure? {
          RecoverFirstStops(begin, rows, newIds, i + 1, now, policy);
          db.Rollback(begin);
          return Failure(retried.error), rows;
        }
        RecoverTouches(before, rows[i], now, policy, newIds[i]);
        if retried.value {
          requeued := requeued + 1;
        } else {
          failed := failed + 1;
        }
      }
      r := Success(RecoverySummary(requeued, failed));
    }
  }

  lemma BatchRows(jobs: map<JobId, Job>, now: Micros, limit: nat, batch: seq<JobId>)
    requires OldestExpired(jobs, now, limit, batch)
    ensures |batch| <= limit && Distinct(batch) && forall i :: 0 <= i < |batch| ==> batch[i] in jobs
  {
  }

  /** A recovery rewrites its own row and may add one more. */
  lemma RecoverTouches(db: Db, id: JobId, now: Micros, policy: RetryPolicy, newId: JobId)
    requires policy.Valid() && id in db.jobs && Recover(db, id, now, policy, newId).Success?
    ensures var after := Recover(db, id, now, policy, newId).value.jobs;
            forall k :: k in db.jobs && k != id && k != newId ==> k in after && after[k] == db.jobs[k]
  {
    hide Logged, WithStatus, Successor;
  }

  /** A batch that fails part way fails as a whole. */
  lemma {:induction false} RecoverFirstStops(db: Db, batch: seq<JobId>, newIds: seq<JobId>, n: nat, now: Micros, policy: RetryPolicy)
    requires policy.Valid() && n <= |batch| <= |newIds|
    requires RecoverFirst(db, batch, newIds, n, now, policy).Failure?
    ensures RecoverFirst(db, batch, newIds, |batch|, now, policy) == RecoverFirst(db, batch, newIds, n, now, policy)
    decreases |batch| - n
  {
    if n < |batch| {
      RecoverFirstStops(db, batch, newIds, n + 1, now, policy);
    }
  }
}
