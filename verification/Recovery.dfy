/** A recovery batch is a stretch of a run: one single-lease step after another, none of which can fail. */
module Recovery {
  import opened Prelude
  import opened Days
  import opened Schema
  import opened Queue
  import opened Services
  import opened Jobs
  import opened Protocol
  import opened Keeping
  import opened LeaseQueue

  /** A stretch of a run: the i-th step recovers the batch's i-th lease. */
  ghost predicate Recovers(cfg: Config, worlds: seq<World>, now: Micros, batch: seq<JobId>, newIds: seq<JobId>) {
    && 0 < |worlds| <= |batch| + 1 <= |newIds| + 1
    && forall i :: 0 <= i < |worlds| - 1 ==> Follows(cfg, worlds[i], now, DoRecover(batch[i], newIds[i]), worlds[i + 1])
  }

  ghost predicate Unused(w: World, newIds: seq<JobId>, n: nat) {
    forall i :: n <= i < |newIds| ==> newIds[i] !in w.usedJobs
  }

  /** The rows of the batch still to come are as the query found them. */
  ghost predicate Pending(w: World, jobs: map<JobId, Job>, batch: seq<JobId>, n: nat) {
    forall i :: n <= i < |batch| ==> batch[i] in jobs && batch[i] in w.db.jobs && w.db.jobs[batch[i]] == jobs[batch[i]]
  }

  lemma RecoverSucceeds(db: Db, id: JobId, now: Micros, policy: RetryPolicy, newId: JobId)
    requires policy.Valid() && id in db.jobs && JobOk(db.jobs[id]) && db.jobs[id].status.Processing?
    ensures var r := Recover(db, id, now, policy, newId); r.Success? && r.value.jobs.Keys <= db.jobs.Keys + {newId}
    ensures !Recover(db, id, now, policy, newId).value.jobs[id].status.Processing? || newId == id
  {
    hide Logged, WithStatus, Successor;
  }

  lemma RecoverStep(cfg: Config, w: World, now: Micros, id: JobId, newId: JobId) returns (after: World)
    requires cfg.Valid() && WorldCore(w) && w.now <= now
    requires IsExpired(w.db.jobs, id, now) && newId !in w.usedJobs
    ensures Follows(cfg, w, now, DoRecover(id, newId), after) && WorldCore(after) && after.now == now
    ensures Recover(w.db, id, now, cfg.policy, newId) == Success(after.db)
    ensures after.usedJobs <= w.usedJobs + {newId}
    ensures forall k :: k in w.db.jobs && k != id ==> k in after.db.jobs && after.db.jobs[k] == w.db.jobs[k]
  {
    hide AllJobs, AllWaiting, OneActive, BuiltFrom, CurrentReadings, Recover, JobOk;
    CoreJobOk(w.db, id);
    RecoverSucceeds(w.db, id, now, cfg.policy, newId);
    RecoverTouches(w.db, id, now, cfg.policy, newId);
    StepKeepsCore(cfg, w, now, DoRecover(id, newId));
    after := Step(cfg, w, now, DoRecover(id, newId));
  }

  /** Every prefix of a recovery batch is such a stretch, and leaves the rest of the batch expired. */
  lemma {:induction false} BatchIsRecoverySteps(cfg: Config, w: World, now: Micros, batch: seq<JobId>,
                                                newIds: seq<JobId>, n: nat)
    returns (worlds: seq<World>)
    requires cfg.Valid() && WorldCore(w) && w.now <= now
    requires n <= |batch| <= |newIds| && Distinct(batch) && Distinct(newIds) && Unused(w, newIds, 0)
    requires forall i :: 0 <= i < |batch| ==> IsExpired(w.db.jobs, batch[i], now)
    ensures |worlds| == n + 1 && worlds[0] == w && Recovers(cfg, worlds, now, batch, newIds)
    ensures WorldCore(worlds[n]) && worlds[n].now <= now
    ensures RecoverFirst(w.db, batch, newIds, n, now, cfg.policy) == Success(worlds[n].db)
    ensures Pending(worlds[n], w.db.jobs, batch, n) && Unused(worlds[n], newIds, n)
  {
    hide CoreOf, Recover, Step, Possible, Expired, Follows;
    if n == 0 {
      worlds := [w];
    } else {
      var before := BatchIsRecoverySteps(cfg, w, now, batch, newIds, n - 1);
      var after := RecoverStep(cfg, before[n - 1], now, batch[n - 1], newIds[n - 1]);
      worlds := before + [after];
    }
  }
}
