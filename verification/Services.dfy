/** Every transaction outside the queue's own: uploads, requests, edits, deletion and the result
    persisters (recording_service.py, daily_service.py, worker_runtime.py). */
module Services {
  import opened Prelude
  import opened Text
  import opened Days
  import opened Sentences
  import opened Translations
  import opened TranslationWrites
  import opened TranscriptEdit
  import opened Grounding
  import opened Schema
  import opened Queue

  // ----- what a transaction makes of one recording -----

  /** A fresh transcript: manual renderings are carried, the analysis written from the old words goes stale. */
  function CommitTranscript(rec: Recording, rows: seq<SegmentRow>): Result<Recording> {
    match Retranscribed(rec.segments, rec.translations, rows)
    case Failure(_) => Failure("ValueError")
    case Success(carried) =>
      var outdated := rec.analysis.Some? && rec.analysis.value.status.AnalysisDone?;
      Success(rec.(
        segments := rows,
        transcriptRevision := rec.transcriptRevision + 1,
        analysis := if outdated then Some(rec.analysis.value.(status := AnalysisStale)) else rec.analysis,
        analysisRevision := rec.analysisRevision + if outdated then 1 else 0,
        translations := carried,
        translationRevision := rec.translationRevision + 1))
  }

  /** A run without a reading never erases the one a recording has. */
  function CommitAnalysis(rec: Recording, status: AnalysisStatus, reading: Option<Reading>): Recording {
    if !status.AnalysisDone? && rec.analysis.Some? && rec.analysis.value.reading.Some? then rec
    else rec.(analysis := Some(AnalysisRow(status, reading)), analysisRevision := rec.analysisRevision + 1)
  }

  function CommitTranslations(rec: Recording, renderings: Option<seq<Rendering>>): Recording {
    rec.(translations := if renderings.Some? then Written(rec.segments, rec.translations, renderings.value)
                         else rec.translations,
         translationRevision := rec.translationRevision + 1)
  }

  function SaveTranscript(rec: Recording, updates: seq<SegmentUpdate>): Result<Recording> {
    match Edited(rec.segments, updates, rec.duration)
    case Failure(error) => Failure(error)
    case Success(rows) =>
      Success(rec.(
        segments := rows,
        transcriptRevision := rec.transcriptRevision + 1,
        translations := AllStale(rec.translations),
        translationRevision := rec.translationRevision + if rec.translations == [] then 0 else 1,
        analysis := if rec.analysis.Some? then Some(rec.analysis.value.(status := AnalysisStale)) else None,
        analysisRevision := rec.analysisRevision + if rec.analysis.Some? then 1 else 0))
  }

  function SaveAnalysis(rec: Recording, reading: Reading): Recording {
    rec.(analysis := Some(AnalysisRow(AnalysisDone, Some(reading))), analysisRevision := rec.analysisRevision + 1)
  }

  function SaveTranslations(rec: Recording, updates: seq<Update>): Result<Recording> {
    match EditRows(rec.segments, rec.translations, updates)
    case Failure(error) => Failure(error)
    case Success(rows) => Success(rec.(translations := rows, translationRevision := rec.translationRevision + 1))
  }

  // ----- the day a summary is built from -----

  /** What a day summary can read of a recording: its current reading, when it describes anything. */
  function DigestOf(rec: Recording): Option<Reading> {
    if rec.analysis.Some? && rec.analysis.value.status.AnalysisDone? && rec.analysis.value.reading.Some?
       && rec.analysis.value.reading.value.descriptionJa.Some?
       && !Blank(rec.analysis.value.reading.value.descriptionJa.value)
    then rec.analysis.value.reading else None
  }

  predicate OnDay(rec: Recording, day: Day) {
    InWindow(rec.startedAt, day) && DigestOf(rec).Some?
  }

  /** The day's digests, by recording. */
  function Digests(recordings: map<RecordingId, Recording>, day: Day): map<RecordingId, Reading> {
    map r | r in recordings && OnDay(recordings[r], day) :: DigestOf(recordings[r]).value
  }

  /** The day's revision snapshot. A list with one entry per recording, compared after sorting, is a map. */
  function Revisions(recordings: map<RecordingId, Recording>, day: Day): map<RecordingId, nat> {
    map r | r in recordings && OnDay(recordings[r], day) :: recordings[r].analysisRevision
  }

  /** A summary of a day whose analyses moved on since it was written. */
  predicate IsStale(db: Db, day: Day) {
    && day in db.summaries && db.summaries[day].status.AnalysisDone?
    && Revisions(db.recordings, day) != db.summaries[day].sources
  }

  /** Model-supplied indices become recording ids; an index that names no digest is dropped. */
  function KeyPoints(points: seq<nat>, numbering: map<nat, RecordingId>): seq<RecordingId> {
    if points == [] then []
    else
      var n := |points| - 1;
      KeyPoints(points[..n], numbering) + if points[n] in numbering then [numbering[points[n]]] else []
  }

  // ----- result persisters, run inside the completing transaction -----

  /** What a worker read, after its claim, for the job it is running. */
  datatype Input =
    | TranscriptRead(segments: seq<SegmentRow>)
    | DayRead(numbering: map<nat, RecordingId>, revisions: map<RecordingId, nat>, digests: map<RecordingId, Reading>)

  /** What its processing returned. */
  datatype Outcome =
    | Transcribed(rows: seq<SegmentRow>)
    | Analysed(status: AnalysisStatus, reading: Option<Reading>)
    | Rendered(replies: seq<string>)
    | RenderSkipped
    | DaySummarised(text: string, points: seq<nat>)
    | DaySkipped

  /** The outcome answers this kind of job, from this input; provider failures never get here. */
  predicate Answers(kind: JobKind, input: Option<Input>, outcome: Outcome) {
    match outcome
    case Transcribed(_) => kind.Full?
    case Analysed(status, _) => kind.Analysis? && input.Some? && input.value.TranscriptRead? && (status.AnalysisDone? || status.AnalysisSkipped?)
    case RenderSkipped => kind.Translation? && input.Some? && input.value.TranscriptRead?
    case Rendered(replies) =>
      && kind.Translation? && input.Some? && input.value.TranscriptRead?
      && var grouped := Grouped(Segments(input.value.segments), MAX_SENTENCE_CHARS);
         grouped.Success? && |replies| == |grouped.value|
    case DaySummarised(_, points) => kind.DailySummary? && input.Some? && input.value.DayRead?
    case DaySkipped => kind.DailySummary? && input.Some? && input.value.DayRead?
  }

  function RenderingsOf(input: Input, replies: seq<string>): seq<Rendering>
    requires input.TranscriptRead?
    requires Grouped(Segments(input.segments), MAX_SENTENCE_CHARS).Success?
    requires |replies| == |Grouped(Segments(input.segments), MAX_SENTENCE_CHARS).value|
  {
    Translate(Grouped(Segments(input.segments), MAX_SENTENCE_CHARS).value, replies)
  }

  function PersistRecording(rec: Recording, input: Option<Input>, outcome: Outcome, kind: JobKind): Result<Recording>
    requires Answers(kind, input, outcome) && !outcome.DaySummarised? && !outcome.DaySkipped?
  {
    match outcome
    case Transcribed(rows) => CommitTranscript(rec, rows)
    case Analysed(status, reading) => Success(CommitAnalysis(rec, status, reading))
    case Rendered(replies) => Success(CommitTranslations(rec, Some(RenderingsOf(input.value, replies))))
    case RenderSkipped => Success(CommitTranslations(rec, None))
  }

  /** The day's write lands only while the day still holds what the summary was built from. */
  function PersistSummary(db: Db, day: Day, input: Input, text: string, points: seq<nat>): Result<Db>
    requires input.DayRead?
  {
    if Revisions(db.recordings, day) != input.revisions then Failure("daily_summary_day_changed")
    else Success(db.(summaries := db.summaries[day :=
                       Summary(AnalysisDone, text, KeyPoints(points, input.numbering), input.revisions)]))
  }

  function Persist(db: Db, claim: ClaimedJob, input: Option<Input>, outcome: Outcome): Result<Db>
    requires Answers(claim.kind, input, outcome)
  {
    match claim.scope
    case OfDay(day) =>
      if outcome.DaySkipped? then Success(db)
      else if outcome.DaySummarised? then PersistSummary(db, day, input.value, outcome.text, outcome.points)
      else Failure("scope")
    case OfRecording(recording) =>
      if outcome.DaySkipped? || outcome.DaySummarised? then Failure("scope")
      else if recording !in db.recordings then Failure("recording_missing")
      else
        match PersistRecording(db.recordings[recording], input, outcome, claim.kind)
        case Failure(error) => Failure(error)
        case Success(rec) => Success(db.(recordings := db.recordings[recording := rec]))
  }

  /** Results and completion commit together, behind the fence. */
  function Complete(db: Db, claim: ClaimedJob, input: Option<Input>, outcome: Outcome, now: Micros, newId: JobId)
    : Result<Db>
    requires Answers(claim.kind, input, outcome)
  {
    if !Owns(db.jobs, claim) then Failure("ClaimLostError")
    else
      match Persist(db, claim, input, outcome)
      case Failure(error) => Failure(error)
      case Success(persisted) => Success(Finish(persisted, claim.id, now, newId))
  }

  // ----- uploads and requests -----

  function NewRecording(startedAt: Micros, duration: real): Recording {
    Recording(RecQueued, startedAt, duration, [], 0, None, 0, [], 0)
  }

  function Upload(db: Db, recording: RecordingId, startedAt: Micros, duration: real, jobId: JobId,
                  uploadedAt: Micros, now: Micros, maxAttempts: nat): Db
  {
    var job := FreshJob(OfRecording(recording), Full, ChainedFollowUp(Full), maxAttempts, uploadedAt, now);
    db.(recordings := db.recordings[recording := NewRecording(startedAt, duration)],
        jobs := db.jobs[jobId := job],
        log := Logged(db.log, jobId, job, JobQueued, StageQueued, uploadedAt))
  }

  /** The ways a person or a script asks for work on a recording. */
  datatype Request = Retry | Reprocess | ReprocessAnalysis | ReprocessTranslation | CreateJob

  function RequestedKind(request: Request): JobKind {
    match request
    case ReprocessAnalysis => Analysis
    case ReprocessTranslation => Translation
    case _ => Full
  }

  predicate Allowed(request: Request, status: RecordingStatus) {
    match request
    case Retry => status.RecFailed?
    case Reprocess => status.RecCompleted? || status.RecFailed?
    case CreateJob => true
    case _ => status.RecCompleted?
  }

  ghost function Enqueue(db: Db, request: Request, recording: RecordingId, jobId: JobId, now: Micros, maxAttempts: nat)
    : Result<Db>
  {
    if recording !in db.recordings then Failure("recording_not_found")
    else if !Allowed(request, db.recordings[recording].status) then Failure("not_allowed")
    else if !NoActive(db.jobs, OfRecording(recording)) then Failure("job_already_active")
    else if request.ReprocessTranslation? && db.recordings[recording].segments == [] then Failure("transcript_not_ready")
    else
      var kind := RequestedKind(request);
      var job := FreshJob(OfRecording(recording), kind, if kind.Full? then ChainedFollowUp(kind) else None,
                          maxAttempts, now, now);
      Success(db.(jobs := db.jobs[jobId := job],
                  recordings := WithStatus(db.recordings, job, RecQueued),
                  log := Logged(db.log, jobId, job, if request.CreateJob? then JobQueued else ManualRetryQueued,
                                StageQueued, now)))
  }

  ghost function QueueSummary(db: Db, day: Day, jobId: JobId, now: Micros, maxAttempts: nat): Result<Db> {
    if Digests(db.recordings, day) == map[] then Failure("daily_summary_not_available")
    else if !NoActive(db.jobs, OfDay(day)) then Failure("daily_summary_job_active")
    else Success(db.(jobs := db.jobs[jobId := FreshJob(OfDay(day), DailySummary, None, maxAttempts, now, now)]))
  }

  // ----- edits and deletion, refused while a job is active -----

  datatype Edit =
    | EditTranscript(segments: seq<SegmentUpdate>)
    | EditAnalysis(reading: Reading)
    | EditTranslations(rows: seq<Update>)

  function RevisionFor(rec: Recording, edit: Edit): nat {
    match edit
    case EditTranscript(_) => rec.transcriptRevision
    case EditAnalysis(_) => rec.analysisRevision
    case EditTranslations(_) => rec.translationRevision
  }

  function ApplyEdit(rec: Recording, edit: Edit): Result<Recording> {
    match edit
    case EditTranscript(updates) => SaveTranscript(rec, updates)
    case EditAnalysis(reading) => Success(SaveAnalysis(rec, reading))
    case EditTranslations(updates) => SaveTranslations(rec, updates)
  }

  ghost predicate HasJob(jobs: map<JobId, Job>, recording: RecordingId) {
    exists id :: id in jobs && jobs[id].scope == OfRecording(recording)
  }

  ghost function Save(db: Db, recording: RecordingId, expectedRevision: nat, edit: Edit): Result<Db> {
    if recording !in db.recordings then Failure("recording_not_found")
    else
      var rec := db.recordings[recording];
      if RevisionFor(rec, edit) != expectedRevision then Failure("revision_conflict")
      else if !NoActive(db.jobs, OfRecording(recording)) then Failure("job_already_active")
      else if edit.EditAnalysis? && !AllStand(Segments(rec.segments), edit.reading.quotes) then
        Failure("analysis_quote_not_grounded")
      else if edit.EditAnalysis? && rec.analysis.None? && !HasJob(db.jobs, recording) then Failure("analysis_not_ready")
      else
        match ApplyEdit(rec, edit)
        case Failure(error) => Failure(error)
        case Success(saved) => Success(db.(recordings := db.recordings[recording := saved]))
  }

  function WithoutRecording(log: seq<Activity>, recording: RecordingId): seq<Activity> {
    if log == [] then []
    else
      var rest := WithoutRecording(log[..|log| - 1], recording);
      if log[|log| - 1].recording == recording then rest else rest + [log[|log| - 1]]
  }

  function JobsWithout(jobs: map<JobId, Job>, scope: Scope): map<JobId, Job> {
    map id | id in jobs && jobs[id].scope != scope :: jobs[id]
  }

  /** Deletion takes the recording's rows, its jobs, and the summary of its day with it. */
  ghost function Delete(db: Db, recording: RecordingId): Result<Db> {
    if recording !in db.recordings then Failure("recording_not_found")
    else if !NoActive(db.jobs, OfRecording(recording)) then Failure("recording_delete_active")
    else
      Success(db.(recordings := db.recordings - {recording},
                  jobs := JobsWithout(db.jobs, OfRecording(recording)),
                  summaries := db.summaries - {DayOf(db.recordings[recording].startedAt)},
                  log := WithoutRecording(db.log, recording)))
  }

  /** Only the switches given change; a missing settings row starts from the defaults. */
  function SetSwitches(db: Db, analysis: Option<bool>, translation: Option<bool>): Db {
    var stored := AutomaticFollowUps(db.switches);
    db.(switches := Some(Switches(if analysis.Some? then analysis.value else stored.analysis,
                                  if translation.Some? then translation.value else stored.translation)))
  }
}
