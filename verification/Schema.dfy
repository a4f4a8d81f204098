/** The tables a run of the system reads and writes (db/models.py, db/activity_models.py). */
module Schema {
  import opened Prelude
  import opened Days
  import opened Translations
  import opened Grounding

  type RecordingId = nat
  type JobId = nat
  type Token = nat

  datatype RecordingStatus = RecUploaded | RecQueued | RecProcessing | RecCompleted | RecFailed

  datatype JobStatus = Queued | Processing | Completed | Failed

  datatype JobKind = Full | Analysis | Translation | DailySummary

  datatype JobStage =
    | StageQueued | Preprocessing | Transcribing | Diarizing | Merging | Translating | Analyzing | StageCompleted

  /** A job names a recording or a day, never both. */
  datatype Scope = OfRecording(recording: RecordingId) | OfDay(day: Day)

  datatype FailureNote = FailureNote(stage: JobStage, code: string, at: Micros)

  datatype Job = Job(
    scope: Scope,
    kind: JobKind,
    followUp: Option<JobKind>,
    status: JobStatus,
    stage: JobStage,
    attempts: nat,
    maxAttempts: nat,
    availableAt: Micros,
    createdAt: Micros,
    workerId: Option<string>,
    claimToken: Option<Token>,
    claimedAt: Option<Micros>,
    heartbeatAt: Option<Micros>,
    leaseExpiresAt: Option<Micros>,
    startedAt: Option<Micros>,
    finishedAt: Option<Micros>,
    failure: Option<FailureNote>)

  datatype AnalysisStatus = AnalysisDone | AnalysisSkipped | AnalysisFailed | AnalysisStale

  /** A stored reading of a transcript: its quotations, and a Japanese description that decides whether a day can use it. */
  datatype Reading = Reading(descriptionJa: Option<string>, quotes: seq<Quoted>, body: string)

  datatype AnalysisRow = AnalysisRow(status: AnalysisStatus, reading: Option<Reading>)

  /** A recording with the rows that belong to it and are deleted with it. */
  datatype Recording = Recording(
    status: RecordingStatus,
    startedAt: Micros,
    duration: real,
    segments: seq<SegmentRow>,
    transcriptRevision: nat,
    analysis: Option<AnalysisRow>,
    analysisRevision: nat,
    translations: seq<TranslationRow>,
    translationRevision: nat)

  datatype Summary = Summary(
    status: AnalysisStatus,
    text: string,
    keyPoints: seq<RecordingId>,
    sources: map<RecordingId, nat>)

  datatype Switches = Switches(analysis: bool, translation: bool)

  datatype ActivityType =
    | JobQueued | ProcessingStarted | StageStarted | RetryScheduled | LeaseRecovered
    | ProcessingCompleted | ProcessingFailed | ManualRetryQueued

  datatype Activity = Activity(
    recording: RecordingId, job: JobId, event: ActivityType, stage: JobStage, attempt: nat, at: Micros)

  /** switches is None while the single settings row is missing. */
  datatype Db = Db(
    recordings: map<RecordingId, Recording>,
    jobs: map<JobId, Job>,
    summaries: map<Day, Summary>,
    switches: Option<Switches>,
    log: seq<Activity>)

  predicate Active(job: Job) {
    job.status.Queued? || job.status.Processing?
  }

  /** No queued or running job has this scope. */
  ghost predicate NoActive(jobs: map<JobId, Job>, scope: Scope) {
    forall id :: id in jobs && jobs[id].scope == scope ==> !Active(jobs[id])
  }
}
