/** Requests, edits and deletion on mutable tables (recording_service.py, daily_service.py); a refused call
    leaves the tables as they were. */
module RecordingDesk {
  import opened Prelude
  import opened Days
  import opened Translations
  import opened Grounding
  import opened Schema
  import opened Queue
  import opened Services
  import opened Tables

  class RecordingService {
    const db: Database
    const maxAttempts: nat

    constructor (db: Database, maxAttempts: nat)
      ensures this.db == db && this.maxAttempts == maxAttempts
    {
      this.db, this.maxAttempts := db, maxAttempts;
    }

    /** Creates, retries or reprocesses; at most one job of a recording is ever active. */
    method RequestWork(request: Request, recording: RecordingId, jobId: JobId, now: Micros) returns (r: Result<()>)
      modifies db
      ensures var after := Enqueue(old(db.Contents()), request, recording, jobId, now, maxAttempts);
              && r.Success? == after.Success?
              && (r.Failure? ==> r.error == after.error)
              && db.Contents() == if after.Success? then after.value else old(db.Contents())
    {
      hide NoActive, Logged, WithStatus;
      if recording !in db.recordings {
        return Failure("recording_not_found");
      }
      if !Allowed(request, db.recordings[recording].status) {
        return Failure("not_allowed");
      }
      var active := db.HasActiveJob(OfRecording(recording));
      if active {
        return Failure("job_already_active");
      }
      if request.ReprocessTranslation? && db.recordings[recording].segments == [] {
        return Failure("transcript_not_ready");
      }
      var kind := RequestedKind(request);
      var job := FreshJob(OfRecording(recording), kind, if kind.Full? then ChainedFollowUp(kind) else None,
                          maxAttempts, now, now);
      db.MoveStatus(job, RecQueued);
      db.jobs := db.jobs[jobId := job];
      db.AppendJobActivity(jobId, job, if request.CreateJob? then JobQueued else ManualRetryQueued, StageQueued, now);
      r := Success(());
    }

    method QueueDaySummary(day: Day, jobId: JobId, now: Micros) returns (r: Result<()>)
      modifies db
      ensures var after := QueueSummary(old(db.Contents()), day, jobId, now, maxAttempts);
              && r.Success? == after.Success?
              && (r.Failure? ==> r.error == after.error)
              && db.Contents() == if after.Success? then after.value else old(db.Contents())
    {
      hide NoActive, Digests;
      if Digests(db.recordings, day) == map[] {
        return Failure("daily_summary_not_available");
      }
      var active := db.HasActiveJob(OfDay(day));
      if active {
        return Failure("daily_summary_job_active");
      }
      db.jobs := db.jobs[jobId := FreshJob(OfDay(day), DailySummary, None, maxAttempts, now, now)];
      r := Success(());
    }

    method HasAnyJob(recording: RecordingId) returns (found: bool)
      ensures found <==> HasJob(db.jobs, recording)
    {
      found := false;
      var unseen := db.jobs.Keys;
      while unseen != {}
        invariant unseen <= db.jobs.Keys
        invariant found <==> exists id :: id in db.jobs && id !in unseen && db.jobs[id].scope == OfRecording(recording)
        decreases |unseen|
      {
        var id :| id in unseen;
        unseen := unseen - {id};
        if db.jobs[id].scope == OfRecording(recording) {
          found := true;
        }
      }
    }

    /** Saves an edit if nobody else changed the same content meanwhile and no job is at work on it. */
    method SaveEdit(recording: RecordingId, expectedRevision: nat, edit: Edit) returns (r: Result<()>)
      modifies db
      ensures var after := Save(old(db.Contents()), recording, expectedRevision, edit);
              && r.Success? == after.Success?
              && (r.Failure? ==> r.error == after.error)
              && db.Contents() == if after.Success? then after.value else old(db.Contents())
    {
      hide NoActive, HasJob, ApplyEdit;
      if recording !in db.recordings {
        return Failure("recording_not_found");
      }
      var rec := db.recordings[recording];
      if RevisionFor(rec, edit) != expectedRevision {
        return Failure("revision_conflict");
      }
      var active := db.HasActiveJob(OfRecording(recording));
      if active {
        return Failure("job_already_active");
      }
      if edit.EditAnalysis? && !AllStand(Segments(rec.segments), edit.reading.quotes) {
        return Failure("analysis_quote_not_grounded");
      }
      var worked := HasAnyJob(recording);
      if edit.EditAnalysis? && rec.analysis.None? && !worked {
        return Failure("analysis_not_ready");
      }
      var saved := ApplyEdit(rec, edit);
      if saved.Failure? {
        return Failure(saved.error);
      }
      db.recordings := db.recordings[recording := saved.value];
      r := Success(());
    }

    /** Removes a recording with everything written from it, the summary of its day included. */
    method DeleteRecording(recording: RecordingId) returns (r: Result<()>)
      modifies db
      ensures var after := Delete(old(db.Contents()), recording);
              && r.Success? == after.Success?
              && (r.Failure? ==> r.error == after.error)
              && db.Contents() == if after.Success? then after.value else old(db.Contents())
    {
      hide NoActive, WithoutRecording, JobsWithout;
      if recording !in db.recordings {
        return Failure("recording_not_found");
      }
      var active := db.HasActiveJob(OfRecording(recording));
      if active {
        return Failure("recording_delete_active");
      }
      var day := DayOf(db.recordings[recording].startedAt);
      db.log := WithoutRecording(db.log, recording);
      db.summaries := db.summaries - {day};
      db.jobs := JobsWithout(db.jobs, OfRecording(recording));
      db.recordings := db.recordings - {recording};
      r := Success(());
    }

    /** Queues an analysis for every listed recording that allows one and counts the others. */
    method ReprocessAnalyses(ids: seq<RecordingId>, newIds: seq<JobId>, now: Micros) returns (queued: nat, skipped: nat)
      requires |newIds| >= |ids|
      modifies db
      ensures db.Contents() == Reprocessed(old(db.Contents()), ids, newIds, |ids|, now, maxAttempts)
      ensures queued + skipped == |ids|
    {
      queued, skipped := 0, 0;
      for i := 0 to |ids|
        invariant db.Contents() == Reprocessed(old(db.Contents()), ids, newIds, i, now, maxAttempts)
        invariant queued + skipped == i
      {
        var r := RequestWork(ReprocessAnalysis, ids[i], newIds[i], now);
        if r.Success? {
          queued := queued + 1;
        } else {
          skipped := skipped + 1;
        }
      }
    }
  }

  /** A batch is one independent transaction per recording. */
  ghost function Reprocessed(db: Db, ids: seq<RecordingId>, newIds: seq<JobId>, n: nat, now: Micros, maxAttempts: nat): Db
    requires n <= |ids| <= |newIds|
  {
    if n == 0 then db
    else
      var before := Reprocessed(db, ids, newIds, n - 1, now, maxAttempts);
      var r := Enqueue(before, ReprocessAnalysis, ids[n - 1], newIds[n - 1], now, maxAttempts);
      if r.Success? then r.value else before
  }
}
