/** Runs of the whole system: any interleaving of atomic transactions by workers, people and recovery,
    where a crashed worker is one that takes no further step. */
module Protocol {
  import opened Prelude
  import opened Days
  import opened Schema
  import opened Queue
  import opened Services
  import opened Translations
  import opened TranslationWrites

  datatype Config = Config(maxAttempts: nat, lease: Micros, policy: RetryPolicy) {
    predicate Valid() {
      maxAttempts >= 1 && lease > 0 && policy.Valid()
    }
  }

  /** The tables and the clock, what the workers remember, and three histories that no transition reads:
      every identifier ever used, the reading each analysis revision stood for, and the readings each
      stored summary was built from. */
  datatype World = World(
    db: Db,
    now: Micros,
    issued: map<Token, ClaimedJob>,
    inputs: map<Token, Input>,
    usedJobs: set<JobId>,
    usedRecordings: set<RecordingId>,
    readings: map<(RecordingId, nat), Option<Reading>>,
    builtFrom: map<Day, map<RecordingId, Reading>>)

  datatype Action =
    | DoUpload(recording: RecordingId, startedAt: Micros, duration: real, jobId: JobId, uploadedAt: Micros)
    | DoEnqueue(request: Request, recording: RecordingId, jobId: JobId)
    | DoQueueSummary(day: Day, jobId: JobId)
    | DoClaim(id: JobId, worker: string, kinds: Option<set<JobKind>>, token: Token)
    | DoHeartbeat(claim: ClaimedJob)
    | DoAdvance(claim: ClaimedJob, stage: JobStage)
    | DoRead(claim: ClaimedJob, numbering: map<nat, RecordingId>)
    | DoComplete(claim: ClaimedJob, outcome: Outcome, jobId: JobId)
    | DoFail(claim: ClaimedJob, failure: JobFailure, jobId: JobId)
    | DoRecover(id: JobId, jobId: JobId)
    | DoSave(recording: RecordingId, expectedRevision: nat, edit: Edit)
    | DoDelete(recording: RecordingId)
    | DoSetSwitches(analysis: Option<bool>, translation: Option<bool>)

  const Empty: World := World(Db(map[], map[], map[], None, []), 0, map[], map[], {}, {}, map[], map[])

  function InputOf(w: World, claim: ClaimedJob): Option<Input> {
    if claim.token in w.inputs then Some(w.inputs[claim.token]) else None
  }

  /** What the surroundings guarantee of a step: fresh identifiers, a claim that was really handed out,
      the job a claim query selects, the rows a recovery query selects, processing results of the right form. */
  ghost predicate Possible(w: World, now: Micros, action: Action) {
    && w.now <= now
    && match action
       case DoUpload(recording, _, _, jobId, uploadedAt) =>
         recording !in w.usedRecordings && jobId !in w.usedJobs && uploadedAt <= now
       case DoEnqueue(_, _, jobId) => jobId !in w.usedJobs
       case DoQueueSummary(_, jobId) => jobId !in w.usedJobs
       case DoClaim(id, _, kinds, token) => token !in w.issued && IsFirst(w.db.jobs, id, now, kinds)
       case DoHeartbeat(claim) => Holds(w, claim)
       case DoAdvance(claim, _) => Holds(w, claim)
       case DoRead(claim, numbering) =>
         && Holds(w, claim)
         && (claim.scope.OfDay? ==> numbering.Values == Digests(w.db.recordings, claim.scope.day).Keys)
       case DoComplete(claim, outcome, jobId) =>
         && Holds(w, claim) && jobId !in w.usedJobs && Answers(claim.kind, InputOf(w, claim), outcome)
         && (outcome.Transcribed? ==> WellNumbered(outcome.rows))
       case DoFail(claim, _, jobId) => Holds(w, claim) && jobId !in w.usedJobs
       case DoRecover(id, jobId) =>
         id in w.db.jobs && Expired(w.db.jobs[id], now) && jobId !in w.usedJobs
       case DoSave(_, _, edit) => edit.EditTranscript? ==> TranscriptEdit.AllValid(edit.segments)
       case DoDelete(_) => true
       case DoSetSwitches(_, _) => true
  }

  import TranscriptEdit

  /** Some worker was handed this claim. */
  predicate Holds(w: World, claim: ClaimedJob) {
    claim.token in w.issued && w.issued[claim.token] == claim
  }

  /** The tables after a step; a refused transaction leaves them as they were. */
  ghost function Next(cfg: Config, w: World, now: Micros, action: Action): Db
    requires cfg.Valid() && Possible(w, now, action)
  {
    var db := w.db;
    match action
    case DoUpload(recording, startedAt, duration, jobId, uploadedAt) =>
      Upload(db, recording, startedAt, duration, jobId, uploadedAt, now, cfg.maxAttempts)
    case DoEnqueue(request, recording, jobId) => OrElse(Enqueue(db, request, recording, jobId, now, cfg.maxAttempts), db)
    case DoQueueSummary(day, jobId) => OrElse(QueueSummary(db, day, jobId, now, cfg.maxAttempts), db)
    case DoClaim(id, worker, _, token) => Claim(db, id, now, token, worker, cfg.lease)
    case DoHeartbeat(claim) => OrElse(Heartbeat(db, claim, now, cfg.lease), db)
    case DoAdvance(claim, stage) => OrElse(AdvanceStage(db, claim, stage, now, cfg.lease), db)
    case DoRead(_, _) => db
    case DoComplete(claim, outcome, jobId) => OrElse(Complete(db, claim, InputOf(w, claim), outcome, now, jobId), db)
    case DoFail(claim, failure, jobId) => OrElse(Fail(db, claim, failure, now, cfg.policy, jobId), db)
    case DoRecover(id, jobId) => OrElse(Recover(db, id, now, cfg.policy, jobId), db)
    case DoSave(recording, expectedRevision, edit) => OrElse(Save(db, recording, expectedRevision, edit), db)
    case DoDelete(recording) => OrElse(Delete(db, recording), db)
    case DoSetSwitches(analysis, translation) => SetSwitches(db, analysis, translation)
  }

  function OrElse(r: Result<Db>, db: Db): Db {
    if r.Success? then r.value else db
  }

  function ReadInput(db: Db, claim: ClaimedJob, numbering: map<nat, RecordingId>): Input {
    match claim.scope
    case OfDay(day) => DayRead(numbering, Revisions(db.recordings, day), Digests(db.recordings, day))
    case OfRecording(recording) =>
      TranscriptRead(if recording in db.recordings then db.recordings[recording].segments else [])
  }

  ghost function Issued(w: World, action: Action): map<Token, ClaimedJob>
    requires action.DoClaim? ==> action.id in w.db.jobs
  {
    if action.DoClaim? then
      w.issued[action.token := ClaimOf(action.id, w.db.jobs[action.id].(attempts := w.db.jobs[action.id].attempts + 1),
                                       action.token, action.worker)]
    else w.issued
  }

  ghost function Inputs(w: World, action: Action): map<Token, Input> {
    if action.DoRead? then w.inputs[action.claim.token := ReadInput(w.db, action.claim, action.numbering)]
    else w.inputs
  }

  /** The reading every live recording's current analysis revision stands for. */
  function CurrentReadings(recordings: map<RecordingId, Recording>): map<(RecordingId, nat), Option<Reading>> {
    map r | r in recordings :: (r, recordings[r].analysisRevision) := DigestOf(recordings[r])
  }

  /** A summary is built from what its worker read. */
  ghost predicate Summarises(cfg: Config, w: World, now: Micros, action: Action)
    requires cfg.Valid() && Possible(w, now, action)
  {
    && action.DoComplete? && action.outcome.DaySummarised? && action.claim.scope.OfDay?
    && Complete(w.db, action.claim, InputOf(w, action.claim), action.outcome, now, action.jobId).Success?
  }

  ghost function BuiltFrom(cfg: Config, w: World, now: Micros, action: Action): map<Day, map<RecordingId, Reading>>
    requires cfg.Valid() && Possible(w, now, action)
  {
    if Summarises(cfg, w, now, action) then
      w.builtFrom[action.claim.scope.day := InputOf(w, action.claim).value.digests]
    else w.builtFrom
  }

  /** The job identifier a step draws, whether or not it comes to use it. */
  function Drawn(action: Action): set<JobId> {
    match action
    case DoUpload(_, _, _, jobId, _) => {jobId}
    case DoEnqueue(_, _, jobId) => {jobId}
    case DoQueueSummary(_, jobId) => {jobId}
    case DoComplete(_, _, jobId) => {jobId}
    case DoFail(_, _, jobId) => {jobId}
    case DoRecover(_, jobId) => {jobId}
    case _ => {}
  }

  ghost function Step(cfg: Config, w: World, now: Micros, action: Action): World
    requires cfg.Valid() && Possible(w, now, action)
  {
    var db := Next(cfg, w, now, action);
    World(db, now, Issued(w, action), Inputs(w, action),
          w.usedJobs + Drawn(action) + db.jobs.Keys, w.usedRecordings + db.recordings.Keys,
          w.readings + CurrentReadings(db.recordings),
          BuiltFrom(cfg, w, now, action))
  }

  /** A run from the empty system: worlds[i + 1] follows worlds[i] by actions[i] at times[i]. */
  ghost predicate IsRun(cfg: Config, worlds: seq<World>, times: seq<Micros>, actions: seq<Action>) {
    && cfg.Valid()
    && |worlds| == |actions| + 1 && |times| == |actions|
    && worlds[0] == Empty
    && forall i :: 0 <= i < |actions| ==> Follows(cfg, worlds[i], times[i], actions[i], worlds[i + 1])
  }

  ghost predicate Follows(cfg: Config, w: World, now: Micros, action: Action, after: World) {
    cfg.Valid() && Possible(w, now, action) && after == Step(cfg, w, now, action)
  }
}
