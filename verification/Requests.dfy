/** What uploads, requests, deletions and summaries store, row by row. */
module Requests {
  import opened Prelude
  import opened Days
  import opened Schema
  import opened Queue
  import opened Services
  import opened Jobs
  import opened Protocol
  import opened Keeping
  import opened Fencing
  import opened Ledger
  import Summaries
  import DayReads

  /** A job nobody has claimed yet. */
  predicate IsNewJob(job: Job, scope: Scope, kind: JobKind, followUp: Option<JobKind>, maxAttempts: nat,
                     availableAt: Micros, createdAt: Micros)
  {
    job == Job(scope, kind, followUp, Queued, StageQueued, 0, maxAttempts, availableAt, createdAt,
               None, None, None, None, None, None, None, None)
  }

  lemma FirstEventIsLogged(jobs: map<JobId, Job>, log: seq<Activity>, used: set<JobId>, id: JobId, job: Job,
                           event: ActivityType, at: Micros)
    requires LedgerOk(jobs, log, used) && id !in used && job.scope.OfRecording? && job.attempts == 0
    ensures Logged(log, id, job, event, StageQueued, at)
         == log + [Activity(job.scope.recording, id, event, StageQueued, 0, at)]
  {
    RecordedAfresh(jobs, log, used, id, job, Activity(job.scope.recording, id, event, StageQueued, 0, at));
  }

  /** An upload stores an empty recording and its transcription job, dated by its arrival. */
  lemma UploadStores(cfg: Config, w: World, now: Micros, action: Action)
    requires cfg.Valid() && Possible(w, now, action) && LedgerOf(w.db, w.usedJobs) && action.DoUpload?
    ensures var after := Next(cfg, w, now, action);
            && after.recordings == w.db.recordings[action.recording :=
                 Recording(RecQueued, action.startedAt, action.duration, [], 0, None, 0, [], 0)]
            && action.jobId in after.jobs && after.jobs == w.db.jobs[action.jobId := after.jobs[action.jobId]]
            && IsNewJob(after.jobs[action.jobId], OfRecording(action.recording), Full, Some(Analysis), cfg.maxAttempts,
                        action.uploadedAt, now)
            && after.log == w.db.log + [Activity(action.recording, action.jobId, JobQueued, StageQueued, 0, action.uploadedAt)]
            && after.summaries == w.db.summaries && after.switches == w.db.switches
  {
    hide LedgerOk, Logged;
    FirstEventIsLogged(w.db.jobs, w.db.log, w.usedJobs, action.jobId, Next(cfg, w, now, action).jobs[action.jobId], JobQueued,
                       action.uploadedAt);
  }

  /** A retry needs a failed recording, a full run a completed or failed one, a script nothing, and the later steps
      a completed one. */
  predicate Permits(status: RecordingStatus, request: Request) {
    match request
    case CreateJob => true
    case Retry => status.RecFailed?
    case Reprocess => status.RecFailed? || status.RecCompleted?
    case ReprocessAnalysis => status.RecCompleted?
    case ReprocessTranslation => status.RecCompleted?
  }

  predicate AsksFor(request: Request, kind: JobKind, followUp: Option<JobKind>) {
    match request
    case ReprocessAnalysis => kind.Analysis? && followUp.None?
    case ReprocessTranslation => kind.Translation? && followUp.None?
    case _ => kind.Full? && followUp == Some(Analysis)
  }

  /** A request is accepted exactly when its recording permits it and none of its jobs is waiting or running; it
      queues one job, at once, and a full one also puts the recording back in the queue. */
  lemma RequestQueues(cfg: Config, w: World, now: Micros, action: Action)
    requires cfg.Valid() && Possible(w, now, action) && WorldCore(w) && LedgerOf(w.db, w.usedJobs) && action.DoEnqueue?
    ensures var after, r := Next(cfg, w, now, action), action.recording;
            && (action.jobId in after.jobs <==>
                  && r in w.db.recordings && Permits(w.db.recordings[r].status, action.request)
                  && (forall id :: id in w.db.jobs && w.db.jobs[id].scope == OfRecording(r) ==> Terminal(w.db.jobs[id]))
                  && (action.request.ReprocessTranslation? ==> w.db.recordings[r].segments != []))
            && (action.jobId !in after.jobs ==> after == w.db)
  {
    hide LedgerOk, Logged, WithStatus, CoreOf;
  }

  lemma RequestStores(cfg: Config, w: World, now: Micros, action: Action)
    requires cfg.Valid() && Possible(w, now, action) && WorldCore(w) && LedgerOf(w.db, w.usedJobs) && action.DoEnqueue?
    requires action.jobId in Next(cfg, w, now, action).jobs
    ensures var after, r, id := Next(cfg, w, now, action), action.recording, action.jobId;
            && after.jobs == w.db.jobs[id := after.jobs[id]] && AsksFor(action.request, after.jobs[id].kind, after.jobs[id].followUp)
            && IsNewJob(after.jobs[id], OfRecording(r), after.jobs[id].kind, after.jobs[id].followUp, cfg.maxAttempts, now, now)
            && after.log == w.db.log + [Activity(r, id, if action.request.CreateJob? then JobQueued else ManualRetryQueued,
                                                 StageQueued, 0, now)]
            && after.recordings.Keys == w.db.recordings.Keys
            && (forall s :: s in w.db.recordings ==>
                  after.recordings[s] == if s == r && after.jobs[id].kind.Full? then w.db.recordings[s].(status := RecQueued)
                                         else w.db.recordings[s])
            && after.summaries == w.db.summaries && after.switches == w.db.switches
  {
    hide LedgerOk, Logged, CoreOf, NoActive;
    FirstEventIsLogged(w.db.jobs, w.db.log, w.usedJobs, action.jobId, Next(cfg, w, now, action).jobs[action.jobId],
                       if action.request.CreateJob? then JobQueued else ManualRetryQueued, now);
  }

  // ----- deletion -----

  /** What is left of the log are the entries of the other recordings, each in its place. */
  lemma {:induction false} LogPlaces(log: seq<Activity>, recording: RecordingId) returns (from: seq<nat>)
    ensures Increasing(from) && (forall j :: 0 <= j < |from| ==> from[j] < |log|)
    ensures forall i :: 0 <= i < |log| ==> (log[i].recording != recording <==> i in from)
    ensures |WithoutRecording(log, recording)| == |from|
    ensures forall j :: 0 <= j < |from| ==> WithoutRecording(log, recording)[j] == log[from[j]]
  {
    hide Increasing;
    if log == [] {
      from := [];
      NoPlaces();
    } else {
      var n := |log| - 1;
      var front := LogPlaces(log[..n], recording);
      from := PlaceAppended(front, n, log[n].recording != recording);
    }
  }

  /** A deletion is accepted exactly while no job of the recording is waiting or running. It takes the recording,
      its jobs, its log entries and the summary of its day in Japan, and nothing else. */
  lemma DeletionRemoves(w: World, recording: RecordingId) returns (from: seq<nat>)
    ensures var r := Delete(w.db, recording);
            && (r.Success? <==>
                  && recording in w.db.recordings
                  && forall id :: id in w.db.jobs && w.db.jobs[id].scope == OfRecording(recording) ==>
                       !w.db.jobs[id].status.Queued? && !w.db.jobs[id].status.Processing?)
            && (r.Success? ==>
                  && (forall s :: s in r.value.recordings <==> s in w.db.recordings && s != recording)
                  && (forall s :: s in r.value.recordings ==> r.value.recordings[s] == w.db.recordings[s])
                  && (forall id :: id in r.value.jobs <==> id in w.db.jobs && w.db.jobs[id].scope != OfRecording(recording))
                  && (forall id :: id in r.value.jobs ==> r.value.jobs[id] == w.db.jobs[id])
                  && (forall day :: day in r.value.summaries <==>
                        && day in w.db.summaries
                        && !DayReads.BeganOn(w.db.recordings[recording].startedAt, day))
                  && (forall day :: day in r.value.summaries ==> r.value.summaries[day] == w.db.summaries[day])
                  && r.value.switches == w.db.switches
                  && Increasing(from) && |r.value.log| == |from|
                  && (forall j :: 0 <= j < |from| ==> from[j] < |w.db.log| && r.value.log[j] == w.db.log[from[j]])
                  && (forall i :: 0 <= i < |w.db.log| ==> (w.db.log[i].recording != recording <==> i in from)))
  {
    hide WithoutRecording, DayOf;
    from := LogPlaces(w.db.log, recording);
    if recording in w.db.recordings {
      forall day
        ensures DayOf(w.db.recordings[recording].startedAt) == day <==>
                  DayReads.BeganOn(w.db.recordings[recording].startedAt, day)
      {
        WindowIsDay(w.db.recordings[recording].startedAt, day);
      }
    }
  }

  /** Only the switches given change, and a missing settings row counts as both on. */
  lemma SwitchesChange(db: Db, analysis: Option<bool>, translation: Option<bool>)
    ensures var after := SetSwitches(db, analysis, translation);
            && after.switches.Some? && after == db.(switches := after.switches)
            && after.switches.value.analysis
               == (if analysis.Some? then analysis.value else db.switches.None? || db.switches.value.analysis)
            && after.switches.value.translation
               == (if translation.Some? then translation.value else db.switches.None? || db.switches.value.translation)
  {
  }

  // ----- a summary -----

  /** A key point is kept exactly when its number names a recording of the prompt, in the order given. */
  lemma {:induction false} KeyPointPlaces(points: seq<nat>, numbering: map<nat, RecordingId>) returns (from: seq<nat>)
    ensures Increasing(from) && |KeyPoints(points, numbering)| == |from|
    ensures forall j :: 0 <= j < |from| ==> from[j] < |points|
    ensures forall i :: 0 <= i < |points| ==> (points[i] in numbering <==> i in from)
    ensures forall j :: 0 <= j < |from| ==>
              points[from[j]] in numbering && KeyPoints(points, numbering)[j] == numbering[points[from[j]]]
  {
    hide Increasing, KeyPoints;
    if points == [] {
      from := [];
      NoPlaces();
      NoKeyPoints(numbering);
    } else {
      var n := |points| - 1;
      var front := KeyPointPlaces(points[..n], numbering);
      from := PlaceAppended(front, n, points[n] in numbering);
      LastKeyPoint(points, numbering);
    }
  }

  lemma NoKeyPoints(numbering: map<nat, RecordingId>)
    ensures KeyPoints([], numbering) == []
  {
  }

  lemma LastKeyPoint(points: seq<nat>, numbering: map<nat, RecordingId>)
    requires points != []
    ensures var n := |points| - 1;
            KeyPoints(points, numbering) == if points[n] in numbering
                                            then KeyPoints(points[..n], numbering) + [numbering[points[n]]]
                                            else KeyPoints(points[..n], numbering)
  {
  }

  /** A summary that lands says what its worker wrote, names the recordings the worker was shown, and its sources are
      the day's readable recordings, each at its revision of this moment. */
  lemma SummaryIsOfTheDay(cfg: Config, w: World, now: Micros, action: Action, day: Day)
    requires cfg.Valid() && Possible(w, now, action) && action.DoComplete? && action.outcome.DaySummarised?
    requires action.claim.scope == OfDay(day)
    requires Complete(w.db, action.claim, InputOf(w, action.claim), action.outcome, now, action.jobId).Success?
    ensures InputOf(w, action.claim).Some? && InputOf(w, action.claim).value.DayRead?
    ensures var after := Next(cfg, w, now, action).summaries;
            && day in after && after == w.db.summaries[day := after[day]]
            && after[day].status.AnalysisDone? && after[day].text == action.outcome.text
            && after[day].keyPoints == KeyPoints(action.outcome.points, InputOf(w, action.claim).value.numbering)
            && forall r :: (r in after[day].sources <==> DayReads.Readable(w.db.recordings, day, r))
                           && (r in after[day].sources ==>
                                 r in w.db.recordings && after[day].sources[r] == w.db.recordings[r].analysisRevision)
  {
    hide Next, DayReads.Readable, Revisions, KeyPoints, Digests, Answers;
    SummaryLands(cfg, w, now, action, day);
    forall r
      ensures r in Revisions(w.db.recordings, day) <==> DayReads.Readable(w.db.recordings, day, r)
      ensures r in Revisions(w.db.recordings, day) ==>
                r in w.db.recordings && Revisions(w.db.recordings, day)[r] == w.db.recordings[r].analysisRevision
    {
      DayReads.DayReadIs(w.db.recordings, day, r);
      DayReads.ReadableIsThere(w.db.recordings, day, r);
    }
  }

  lemma SummaryLands(cfg: Config, w: World, now: Micros, action: Action, day: Day)
    requires cfg.Valid() && Possible(w, now, action) && action.DoComplete? && action.outcome.DaySummarised?
    requires action.claim.scope == OfDay(day)
    requires Complete(w.db, action.claim, InputOf(w, action.claim), action.outcome, now, action.jobId).Success?
    ensures InputOf(w, action.claim).Some? && InputOf(w, action.claim).value.DayRead?
    ensures Next(cfg, w, now, action).summaries == w.db.summaries[day :=
              Summary(AnalysisDone, action.outcome.text,
                      KeyPoints(action.outcome.points, InputOf(w, action.claim).value.numbering),
                      Revisions(w.db.recordings, day))]
  {
    hide Logged, Successor, Revisions, KeyPoints, Digests, WithStatus;
  }
}
