/** The tables as mutable state, and the writes several services share
    (activity/repository.py, jobs/queue.py, processing_settings_service.py). */
module Tables {
  import opened Prelude
  import opened Days
  import opened Schema
  import opened Queue
  import opened Services

  class Database {
    var recordings: map<RecordingId, Recording>
    var jobs: map<JobId, Job>
    var summaries: map<Day, Summary>
    var switches: Option<Switches>
    var log: seq<Activity>

    function Contents(): Db
      reads this
    {
      Db(recordings, jobs, summaries, switches, log)
    }

    constructor ()
      ensures Contents() == Db(map[], map[], map[], None, [])
    {
      recordings, jobs, summaries, switches, log := map[], map[], map[], None, [];
    }

    /** Back to where the transaction began. */
    method Rollback(begin: Db)
      modifies this
      ensures Contents() == begin
    {
      recordings, jobs, summaries, switches, log :=
        begin.recordings, begin.jobs, begin.summaries, begin.switches, begin.log;
    }

    // ----- the activity log -----

    method AppendActivity(event: Activity)
      modifies `log
      ensures log == Append(old(log), event)
    {
      var existing := false;
      for i := 0 to |log|
        invariant existing <==> exists k :: 0 <= k < i && SameKey(log[k], event)
        invariant log == old(log)
      {
        if SameKey(log[i], event) {
          existing := true;
        }
      }
      if !existing {
        log := log + [event];
      }
    }

    /** A day summary belongs on no recording's timeline. */
    method AppendJobActivity(id: JobId, job: Job, event: ActivityType, stage: JobStage, at: Micros)
      modifies `log
      ensures log == Logged(old(log), id, job, event, stage, at)
    {
      if job.scope.OfDay? {
        return;
      }
      AppendActivity(Activity(job.scope.recording, id, event, stage, job.attempts, at));
    }

    // ----- recordings and settings -----

    method MoveStatus(job: Job, status: RecordingStatus)
      modifies `recordings
      ensures recordings == WithStatus(old(recordings), job, status)
    {
      if job.kind.Full? && job.scope.OfRecording? && job.scope.recording in recordings {
        var r := job.scope.recording;
        recordings := recordings[r := recordings[r].(status := status)];
      }
    }

    /** Only the switches given change. */
    method UpdateSwitches(analysis: Option<bool>, translation: Option<bool>)
      modifies `switches
      ensures Contents() == SetSwitches(old(Contents()), analysis, translation)
    {
      if switches.None? {
        switches := Some(Switches(true, true));
      }
      if analysis.Some? {
        switches := Some(switches.value.(analysis := analysis.value));
      }
      if translation.Some? {
        switches := Some(switches.value.(translation := translation.value));
      }
    }

    // ----- jobs -----

    /** Whether a queued or running job has this scope. */
    method HasActiveJob(scope: Scope) returns (active: bool)
      ensures active <==> !NoActive(jobs, scope)
    {
      active := false;
      var unseen := jobs.Keys;
      while unseen != {}
        invariant unseen <= jobs.Keys
        invariant active <==> exists id :: id in jobs && id !in unseen && jobs[id].scope == scope && Active(jobs[id])
        decreases |unseen|
      {
        var id :| id in unseen;
        unseen := unseen - {id};
        if jobs[id].scope == scope && Active(jobs[id]) {
          active := true;
        }
      }
    }

    /** Queues the next enabled step behind a job that is already terminal; a step that is off is passed over. */
    method QueueFollowUp(job: Job, newId: JobId, at: Micros)
      modifies `jobs, `log
      ensures Contents() == HandOff(old(Contents()), job, newId, at)
    {
      if job.followUp.None? || job.scope.OfDay? {
        return;
      }
      var automatic := AutomaticFollowUps(switches);
      var followUp := job.followUp;
      while followUp.Some? && !Runs(automatic, followUp.value)
        invariant FirstEnabled(automatic, followUp) == FirstEnabled(automatic, job.followUp)
        decreases ChainLength(followUp)
      {
        followUp := ChainedFollowUp(followUp.value);
      }
      if followUp.None? {
        return;
      }
      var queuedAt := at + 1;
      var next := FreshJob(job.scope, followUp.value, ChainedFollowUp(followUp.value), job.maxAttempts, queuedAt, at);
      jobs := jobs[newId := next];
      AppendJobActivity(newId, next, JobQueued, StageQueued, queuedAt);
    }
  }
}
