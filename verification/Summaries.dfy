/** Day summaries as a guarded cache: what they name, and when they are reported stale. */
module Summaries {
  import opened Prelude
  import opened Days
  import Sentences
  import Translations
  import TranslationWrites
  import TranscriptEdit
  import opened Schema
  import opened Queue
  import opened Services
  import opened Jobs
  import opened Protocol
  import opened Keeping
  import opened Fencing

  // ----- every writer of an analysis bumps its revision -----

  /** A recording never moves in time, and its reading changes only together with its revision. */
  predicate SameReading(a: Recording, b: Recording) {
    && b.startedAt == a.startedAt
    && (b.analysisRevision > a.analysisRevision
        || (b.analysisRevision == a.analysisRevision && DigestOf(b) == DigestOf(a)))
  }

  lemma PersisterKeepsReading(rec: Recording, input: Option<Input>, outcome: Outcome, kind: JobKind)
    requires Answers(kind, input, outcome) && !outcome.DaySummarised? && !outcome.DaySkipped?
    ensures var r := PersistRecording(rec, input, outcome, kind);
            r.Success? ==> SameReading(rec, r.value)
  {
    hide Translations.Retranscribed, TranslationWrites.Written, Sentences.Grouped, RenderingsOf;
  }

  lemma EditKeepsReading(rec: Recording, edit: Edit)
    ensures ApplyEdit(rec, edit).Success? ==> SameReading(rec, ApplyEdit(rec, edit).value)
  {
    hide TranscriptEdit.Edited, TranslationWrites.EditRows;
  }

  /** Over one step: recordings keep their readings or move their revisions, and new ones are really new. */
  ghost predicate ReadingsMove(before: map<RecordingId, Recording>, after: map<RecordingId, Recording>, used: set<RecordingId>) {
    forall r :: r in after ==> if r in before then SameReading(before[r], after[r]) else r !in used
  }

  lemma StatusKeepsReadings(recordings: map<RecordingId, Recording>, job: Job, status: RecordingStatus, used: set<RecordingId>)
    ensures ReadingsMove(recordings, WithStatus(recordings, job, status), used)
  {
  }

  lemma PersistMovesReadings(db: Db, claim: ClaimedJob, input: Option<Input>, outcome: Outcome, used: set<RecordingId>)
    requires Answers(claim.kind, input, outcome)
    ensures var r := Persist(db, claim, input, outcome);
            r.Success? ==> ReadingsMove(db.recordings, r.value.recordings, used) && r.value.recordings.Keys == db.recordings.Keys
  {
    hide PersistRecording, Answers, Revisions, DigestOf, KeyPoints;
    if claim.scope.OfRecording? && !outcome.DaySummarised? && !outcome.DaySkipped? && claim.scope.recording in db.recordings {
      PersisterKeepsReading(db.recordings[claim.scope.recording], input, outcome, claim.kind);
    }
  }

  lemma MovesCompose(a: map<RecordingId, Recording>, b: map<RecordingId, Recording>, c: map<RecordingId, Recording>,
                     used: set<RecordingId>)
    requires ReadingsMove(a, b, used) && ReadingsMove(b, c, used) && b.Keys == a.Keys
    ensures ReadingsMove(a, c, used)
  {
    hide DigestOf;
  }

  lemma CompleteMovesReadings(db: Db, claim: ClaimedJob, input: Option<Input>, outcome: Outcome, now: Micros,
                              newId: JobId, used: set<RecordingId>)
    requires Answers(claim.kind, input, outcome)
    ensures ReadingsMove(db.recordings, OrElse(Complete(db, claim, input, outcome, now, newId), db).recordings, used)
  {
    hide Persist, Answers, Logged, Successor, WithStatus, ReadingsMove;
    NothingMoves(db.recordings, used);
    PersistMovesReadings(db, claim, input, outcome, used);
    PersistKeepsJobs(db, claim, input, outcome);
    var p := Persist(db, claim, input, outcome);
    if Owns(db.jobs, claim) && p.Success? {
      var done := Done(db.jobs[claim.id], now);
      StatusKeepsReadings(p.value.recordings, done, RecCompleted, used);
      MovesCompose(db.recordings, p.value.recordings, WithStatus(p.value.recordings, done, RecCompleted), used);
    }
  }

  lemma NothingMoves(recordings: map<RecordingId, Recording>, used: set<RecordingId>)
    ensures ReadingsMove(recordings, recordings, used)
  {
  }

  lemma EndMovesReadings(db: Db, id: JobId, note: FailureNote, now: Micros, policy: RetryPolicy, event: ActivityType,
                         newId: JobId, used: set<RecordingId>)
    requires id in db.jobs && policy.Valid()
    ensures ReadingsMove(db.recordings, GiveUp(db, id, note, now, event, newId).recordings, used)
    ensures GiveUp(db, id, note, now, event, newId).summaries == db.summaries
    ensures db.jobs[id].attempts >= 1 ==> ReadingsMove(db.recordings, Requeue(db, id, note, now, policy, event).recordings, used)
    ensures db.jobs[id].attempts >= 1 ==> Requeue(db, id, note, now, policy, event).summaries == db.summaries
  {
    hide Logged, Successor, WithStatus, ReadingsMove;
    StatusKeepsReadings(db.recordings, GivenUp(db.jobs[id], note, now), RecFailed, used);
    if db.jobs[id].attempts >= 1 {
      StatusKeepsReadings(db.recordings, Requeued(db.jobs[id], note, now, policy), RecQueued, used);
    }
  }

  lemma FailuresMoveReadings(cfg: Config, w: World, now: Micros, action: Action)
    requires cfg.Valid() && Possible(w, now, action) && (action.DoFail? || action.DoRecover?)
    ensures ReadingsMove(w.db.recordings, Next(cfg, w, now, action).recordings, w.usedRecordings)
    ensures Next(cfg, w, now, action).summaries == w.db.summaries
  {
    hide GiveUp, Requeue, ReadingsMove;
    NothingMoves(w.db.recordings, w.usedRecordings);
    match action
    case DoFail(claim, failure, jobId) =>
      if Owns(w.db.jobs, claim) {
        var job := w.db.jobs[claim.id];
        var note := FailureNote(if failure.stage.Some? then failure.stage.value else job.stage, failure.code, now);
        EndMovesReadings(w.db, claim.id, note, now, cfg.policy, RetryScheduled, jobId, w.usedRecordings);
        EndMovesReadings(w.db, claim.id, note, now, cfg.policy, ProcessingFailed, jobId, w.usedRecordings);
      }
    case DoRecover(id, jobId) =>
      var note := FailureNote(w.db.jobs[id].stage, "worker_lease_expired", now);
      EndMovesReadings(w.db, id, note, now, cfg.policy, LeaseRecovered, jobId, w.usedRecordings);
  }

  lemma EditsMoveReadings(db: Db, recording: RecordingId, expectedRevision: nat, edit: Edit, used: set<RecordingId>)
    ensures ReadingsMove(db.recordings, OrElse(Save(db, recording, expectedRevision, edit), db).recordings, used)
    ensures ReadingsMove(db.recordings, OrElse(Delete(db, recording), db).recordings, used)
  {
    hide ApplyEdit, NoActive, WithoutRecording, JobsWithout, HasJob, DigestOf;
    if recording in db.recordings {
      EditKeepsReading(db.recordings[recording], edit);
    }
  }

  lemma StepMovesReadings(cfg: Config, w: World, now: Micros, action: Action)
    requires cfg.Valid() && Possible(w, now, action) && WorldCore(w)
    ensures ReadingsMove(w.db.recordings, Next(cfg, w, now, action).recordings, w.usedRecordings)
  {
    hide CoreOf, ReadingsMove, Complete, Fail, Recover, Save, Delete, Answers, Digests, Logged, WithStatus, NoActive;
    var db, used := w.db, w.usedRecordings;
    NothingMoves(db.recordings, used);
    match action
    case DoUpload(recording, startedAt, duration, _, _) => NewMoves(db.recordings, used, recording, NewRecording(startedAt, duration));
    case DoEnqueue(request, recording, jobId) =>
      var kind := RequestedKind(request);
      StatusKeepsReadings(db.recordings,
        FreshJob(OfRecording(recording), kind, if kind.Full? then ChainedFollowUp(kind) else None, cfg.maxAttempts, now, now),
        RecQueued, used);
    case DoClaim(id, worker, _, token) =>
      StatusKeepsReadings(db.recordings, Claimed(db.jobs[id], now, token, worker, cfg.lease), RecProcessing, used);
    case DoComplete(claim, outcome, jobId) => CompleteMovesReadings(db, claim, InputOf(w, claim), outcome, now, jobId, used);
    case DoFail(_, _, _) => FailuresMoveReadings(cfg, w, now, action);
    case DoRecover(_, _) => FailuresMoveReadings(cfg, w, now, action);
    case DoSave(recording, expectedRevision, edit) => EditsMoveReadings(db, recording, expectedRevision, edit, used);
    case DoDelete(recording) => EditsMoveReadings(db, recording, 0, EditTranslations([]), used);
    case _ =>
  }

  lemma NewMoves(recordings: map<RecordingId, Recording>, used: set<RecordingId>, r: RecordingId, rec: Recording)
    requires recordings.Keys <= used && r !in used
    ensures ReadingsMove(recordings, recordings[r := rec], used)
  {
    hide DigestOf;
  }

  // ----- the history of readings -----

  /** Each live revision stands for the reading of that moment, and no revision from the future is known. */
  ghost predicate HistoryOk(w: World) {
    && (forall r :: r in w.db.recordings ==>
          (r, w.db.recordings[r].analysisRevision) in w.readings
          && w.readings[(r, w.db.recordings[r].analysisRevision)] == DigestOf(w.db.recordings[r]))
    && (forall key :: key in w.readings ==>
          key.0 in w.usedRecordings
          && (key.0 in w.db.recordings ==> key.1 <= w.db.recordings[key.0].analysisRevision))
  }

  lemma StepExtendsHistory(cfg: Config, w: World, now: Micros, action: Action)
    requires cfg.Valid() && Possible(w, now, action) && WorldCore(w) && HistoryOk(w)
    ensures HistoryOk(Step(cfg, w, now, action))
    ensures var after := Step(cfg, w, now, action).readings;
            forall key :: key in w.readings ==> key in after && after[key] == w.readings[key]
  {
    hide CoreOf, Next, Issued, Inputs, BuiltFrom, DigestOf;
    StepMovesReadings(cfg, w, now, action);
    var after := Step(cfg, w, now, action);
    HistoryExtends(w, after);
  }

  lemma HistoryExtends(w: World, after: World)
    requires HistoryOk(w) && w.db.recordings.Keys <= w.usedRecordings
    requires ReadingsMove(w.db.recordings, after.db.recordings, w.usedRecordings)
    requires after.usedRecordings == w.usedRecordings + after.db.recordings.Keys
    requires after.readings == w.readings + CurrentReadings(after.db.recordings)
    ensures HistoryOk(after)
    ensures forall key :: key in w.readings ==> key in after.readings && after.readings[key] == w.readings[key]
  {
    hide DigestOf, CurrentReadings;
    var current := CurrentReadings(after.db.recordings);
    CurrentIs(after.db.recordings);
    forall key | key in w.readings
      ensures key in after.readings && after.readings[key] == w.readings[key]
    {
      if key in current {
        assert key.0 in after.db.recordings && key.1 == after.db.recordings[key.0].analysisRevision;
        assert SameReading(w.db.recordings[key.0], after.db.recordings[key.0]);
      }
    }
  }

  lemma CurrentIs(recordings: map<RecordingId, Recording>)
    ensures forall r :: r in recordings ==>
              (r, recordings[r].analysisRevision) in CurrentReadings(recordings)
              && CurrentReadings(recordings)[(r, recordings[r].analysisRevision)] == DigestOf(recordings[r])
    ensures forall key :: key in CurrentReadings(recordings) ==>
              key.0 in recordings && key.1 == recordings[key.0].analysisRevision
  {
    hide DigestOf;
    var current := CurrentReadings(recordings);
    forall r | r in recordings
      ensures (r, recordings[r].analysisRevision) in current
      ensures current[(r, recordings[r].analysisRevision)] == DigestOf(recordings[r])
    {
      assert (r, recordings[r].analysisRevision) in current;
    }
  }

  // ----- what a summary names and was built from -----

  /** The reading was this recording's at this revision. */
  ghost predicate Backed(readings: map<(RecordingId, nat), Option<Reading>>, r: RecordingId, revision: nat, reading: Reading) {
    (r, revision) in readings && readings[(r, revision)] == Some(reading)
  }

  ghost predicate AllBacked(readings: map<(RecordingId, nat), Option<Reading>>, revisions: map<RecordingId, nat>,
                            digests: map<RecordingId, Reading>)
  {
    && digests.Keys == revisions.Keys
    && forall r :: r in revisions && r in digests ==> Backed(readings, r, revisions[r], digests[r])
  }

  ghost predicate DayInputOk(readings: map<(RecordingId, nat), Option<Reading>>, input: Input) {
    input.DayRead? ==> AllBacked(readings, input.revisions, input.digests) && input.numbering.Values <= input.digests.Keys
  }

  ghost predicate DayInputsOk(w: World) {
    forall token :: token in w.inputs ==>
      && DayInputOk(w.readings, w.inputs[token])
      && (w.inputs[token].DayRead? ==> token in w.issued && w.issued[token].scope.OfDay?)
  }

  /** Every recording a summary names, as a source or in a key point, exists and lies on that day. */
  ghost predicate NamesLive(recordings: map<RecordingId, Recording>, day: Day, summary: Summary) {
    && (forall r :: r in summary.sources ==> r in recordings && DayOf(recordings[r].startedAt) == day)
    && (forall r :: r in summary.keyPoints ==> r in summary.sources)
  }

  ghost predicate SummaryOk(w: World, day: Day)
    requires day in w.db.summaries
  {
    && w.db.summaries[day].status.AnalysisDone?
    && NamesLive(w.db.recordings, day, w.db.summaries[day])
    && day in w.builtFrom && AllBacked(w.readings, w.db.summaries[day].sources, w.builtFrom[day])
  }

  ghost predicate SummariesOk(w: World) {
    forall day :: day in w.db.summaries ==> SummaryOk(w, day)
  }

  lemma {:induction false} KeyPointsNameDigests(points: seq<nat>, numbering: map<nat, RecordingId>)
    ensures forall r :: r in KeyPoints(points, numbering) ==> r in numbering.Values
  {
    if points != [] {
      KeyPointsNameDigests(points[..|points| - 1], numbering);
    }
  }

  lemma ReadIsBacked(w: World, claim: ClaimedJob, numbering: map<nat, RecordingId>)
    requires HistoryOk(w)
    requires claim.scope.OfDay? ==> numbering.Values == Digests(w.db.recordings, claim.scope.day).Keys
    ensures DayInputOk(w.readings, ReadInput(w.db, claim, numbering))
  {
    hide DigestOf;
  }

  lemma BackedGrows(readings: map<(RecordingId, nat), Option<Reading>>, after: map<(RecordingId, nat), Option<Reading>>,
                    revisions: map<RecordingId, nat>, digests: map<RecordingId, Reading>)
    requires AllBacked(readings, revisions, digests)
    requires forall key :: key in readings ==> key in after && after[key] == readings[key]
    ensures AllBacked(after, revisions, digests)
  {
  }

  lemma StepKeepsDayInputs(cfg: Config, w: World, now: Micros, action: Action)
    requires cfg.Valid() && Possible(w, now, action) && WorldCore(w) && HistoryOk(w) && DayInputsOk(w)
    ensures DayInputsOk(Step(cfg, w, now, action))
  {
    hide CoreOf, Next, BuiltFrom, HistoryOk, CurrentReadings, AllBacked, Digests, Revisions, Answers;
    StepExtendsHistory(cfg, w, now, action);
    var after := Step(cfg, w, now, action);
    forall token | token in after.inputs
      ensures DayInputOk(after.readings, after.inputs[token])
      ensures after.inputs[token].DayRead? ==> token in after.issued && after.issued[token].scope.OfDay?
    {
      if action.DoRead? && token == action.claim.token {
        ReadIsBacked(w, action.claim, action.numbering);
        assert DayInputOk(w.readings, after.inputs[token]);
      } else {
        assert DayInputOk(w.readings, w.inputs[token]);
      }
      if after.inputs[token].DayRead? {
        BackedGrows(w.readings, after.readings, after.inputs[token].revisions, after.inputs[token].digests);
      }
    }
  }

  // ----- the only transactions that write or clear a summary -----

  /** The guarded write: the day still holds exactly what the worker read. */
  ghost predicate WritesSummary(w: World, action: Action, after: Db, day: Day) {
    && action.DoComplete? && action.outcome.DaySummarised? && action.claim.scope == OfDay(day)
    && InputOf(w, action.claim).Some? && InputOf(w, action.claim).value.DayRead?
    && var input := InputOf(w, action.claim).value;
       && Revisions(w.db.recordings, day) == input.revisions
       && after.summaries == w.db.summaries[day := Summary(AnalysisDone, action.outcome.text,
                                                           KeyPoints(action.outcome.points, input.numbering), input.revisions)]
  }

  lemma CompleteWritesSummary(w: World, action: Action, now: Micros)
    requires action.DoComplete? && Answers(action.claim.kind, InputOf(w, action.claim), action.outcome)
    ensures var r := Complete(w.db, action.claim, InputOf(w, action.claim), action.outcome, now, action.jobId);
            && (r.Success? ==> r.value.recordings.Keys == w.db.recordings.Keys)
            && (r.Success? && action.outcome.DaySummarised? ==>
                  action.claim.scope.OfDay? && WritesSummary(w, action, r.value, action.claim.scope.day))
            && (r.Success? && !action.outcome.DaySummarised? ==> r.value.summaries == w.db.summaries)
  {
    hide PersistRecording, Logged, Successor, Revisions, KeyPoints;
  }

  lemma StepMovesSummaries(cfg: Config, w: World, now: Micros, action: Action)
    requires cfg.Valid() && Possible(w, now, action)
    ensures var after := Next(cfg, w, now, action);
            || (after.summaries == w.db.summaries && w.db.recordings.Keys <= after.recordings.Keys
                && !Summarises(cfg, w, now, action))
            || (exists day :: WritesSummary(w, action, after, day) && after.recordings.Keys == w.db.recordings.Keys
                              && Summarises(cfg, w, now, action))
            || (action.DoDelete? && action.recording in w.db.recordings
                && after.recordings == w.db.recordings - {action.recording}
                && after.summaries == w.db.summaries - {DayOf(w.db.recordings[action.recording].startedAt)}
                && !Summarises(cfg, w, now, action))
  {
    hide Complete, Answers, Digests, Logged, WithStatus, NoActive, ApplyEdit, Successor, WithoutRecording, HasJob,
         WritesSummary, Fail, Recover;
    match action
    case DoComplete(_, _, _) => CompleteWritesSummary(w, action, now);
    case DoFail(claim, failure, jobId) => FailuresKeepSummaries(cfg, w, now, action);
    case DoRecover(id, jobId) => FailuresKeepSummaries(cfg, w, now, action);
    case DoEnqueue(request, recording, jobId) =>
      var kind := RequestedKind(request);
      StatusKeepsKeys(w.db.recordings,
        FreshJob(OfRecording(recording), kind, if kind.Full? then ChainedFollowUp(kind) else None, cfg.maxAttempts, now, now),
        RecQueued);
    case DoClaim(id, worker, _, token) =>
      StatusKeepsKeys(w.db.recordings, Claimed(w.db.jobs[id], now, token, worker, cfg.lease), RecProcessing);
    case _ =>
  }

  lemma StatusKeepsKeys(recordings: map<RecordingId, Recording>, job: Job, status: RecordingStatus)
    ensures WithStatus(recordings, job, status).Keys == recordings.Keys
  {
  }

  lemma FailuresKeepSummaries(cfg: Config, w: World, now: Micros, action: Action)
    requires cfg.Valid() && Possible(w, now, action) && (action.DoFail? || action.DoRecover?)
    ensures Next(cfg, w, now, action).summaries == w.db.summaries
    ensures Next(cfg, w, now, action).recordings.Keys == w.db.recordings.Keys
  {
    hide Logged, WithStatus, HandOff;
    var db := w.db;
    forall job, status
      ensures WithStatus(db.recordings, job, status).Keys == db.recordings.Keys
    {
      StatusKeepsKeys(db.recordings, job, status);
    }
    forall after: Db, job, newId
      ensures HandOff(after, job, newId, now).recordings == after.recordings
      ensures HandOff(after, job, newId, now).summaries == after.summaries
    {
      HandOffKeepsRows(after, job, newId, now);
    }
  }

  lemma HandOffKeepsRows(db: Db, job: Job, newId: JobId, now: Micros)
    ensures HandOff(db, job, newId, now).recordings == db.recordings
    ensures HandOff(db, job, newId, now).summaries == db.summaries
  {
    hide Logged, Successor;
  }

  lemma WrittenIsOk(cfg: Config, w: World, now: Micros, action: Action, day: Day)
    requires cfg.Valid() && Possible(w, now, action) && WorldCore(w) && HistoryOk(w) && DayInputsOk(w)
    requires WritesSummary(w, action, Next(cfg, w, now, action), day) && Summarises(cfg, w, now, action)
    ensures day in Step(cfg, w, now, action).db.summaries && SummaryOk(Step(cfg, w, now, action), day)
  {
    hide CoreOf, HistoryOk, CurrentReadings, Next, Issued, Inputs, Summarises, Answers, AllBacked, KeyPoints, DigestOf, InWindow;
    StepExtendsHistory(cfg, w, now, action);
    StepMovesReadings(cfg, w, now, action);
    KeepsRecordings(cfg, w, now, action);
    var input := w.inputs[action.claim.token];
    assert DayInputOk(w.readings, input);
    KeyPointsNameDigests(action.outcome.points, input.numbering);
    BackedGrows(w.readings, Step(cfg, w, now, action).readings, input.revisions, input.digests);
    forall r | r in input.revisions
      ensures r in w.db.recordings && DayOf(w.db.recordings[r].startedAt) == day
    {
      WindowIsDay(w.db.recordings[r].startedAt, day);
    }
    KeysOfBacked(w.readings, input.revisions, input.digests);
  }

  lemma KeysOfBacked(readings: map<(RecordingId, nat), Option<Reading>>, revisions: map<RecordingId, nat>,
                     digests: map<RecordingId, Reading>)
    requires AllBacked(readings, revisions, digests)
    ensures digests.Keys == revisions.Keys
  {
  }

  lemma KeepsRecordings(cfg: Config, w: World, now: Micros, action: Action)
    requires cfg.Valid() && Possible(w, now, action) && !action.DoDelete?
    ensures w.db.recordings.Keys <= Next(cfg, w, now, action).recordings.Keys
  {
    hide Next, WritesSummary, Summarises;
    StepMovesSummaries(cfg, w, now, action);
  }

  lemma KeptIsOk(cfg: Config, w: World, now: Micros, action: Action, day: Day)
    requires cfg.Valid() && Possible(w, now, action) && WorldCore(w) && HistoryOk(w) && SummariesOk(w)
    requires var after := Step(cfg, w, now, action);
             && day in w.db.summaries && day in after.db.summaries
             && after.db.summaries[day] == w.db.summaries[day]
             && day in after.builtFrom && (day in w.builtFrom ==> after.builtFrom[day] == w.builtFrom[day])
             && forall r :: r in w.db.recordings && r !in after.db.recordings ==> DayOf(w.db.recordings[r].startedAt) != day
    ensures SummaryOk(Step(cfg, w, now, action), day)
  {
    hide CoreOf, HistoryOk, CurrentReadings, Next, Issued, Inputs, BuiltFrom, AllBacked, DigestOf, DayOf;
    StepExtendsHistory(cfg, w, now, action);
    StepMovesReadings(cfg, w, now, action);
    assert SummaryOk(w, day);
    BackedGrows(w.readings, Step(cfg, w, now, action).readings, w.db.summaries[day].sources, w.builtFrom[day]);
  }

  lemma StepKeepsSummaries(cfg: Config, w: World, now: Micros, action: Action)
    requires cfg.Valid() && Possible(w, now, action) && WorldCore(w)
    requires HistoryOk(w) && DayInputsOk(w) && SummariesOk(w)
    ensures SummariesOk(Step(cfg, w, now, action))
  {
    hide CoreOf, HistoryOk, CurrentReadings, Next, Issued, Inputs, SummaryOk, Summarises, Answers, DayOf, Digests, KeyPoints, Revisions;
    StepMovesSummaries(cfg, w, now, action);
    var after := Step(cfg, w, now, action);
    forall day | day in after.db.summaries
      ensures SummaryOk(after, day)
    {
      if Summarises(cfg, w, now, action) {
        var d :| WritesSummary(w, action, Next(cfg, w, now, action), d) && after.db.recordings.Keys == w.db.recordings.Keys;
        SummaryScope(cfg, w, now, action, d);
        if day == d {
          WrittenIsOk(cfg, w, now, action, d);
        } else {
          HasBuilt(w, day);
          KeptIsOk(cfg, w, now, action, day);
        }
      } else {
        HasBuilt(w, day);
        KeptIsOk(cfg, w, now, action, day);
      }
    }
  }

  lemma HasBuilt(w: World, day: Day)
    requires SummariesOk(w) && day in w.db.summaries
    ensures day in w.builtFrom
  {
    assert SummaryOk(w, day);
  }

  lemma SummaryScope(cfg: Config, w: World, now: Micros, action: Action, day: Day)
    requires cfg.Valid() && Possible(w, now, action) && Summarises(cfg, w, now, action)
    requires WritesSummary(w, action, Next(cfg, w, now, action), day)
    ensures action.claim.scope == OfDay(day)
    ensures BuiltFrom(cfg, w, now, action) == w.builtFrom[day := InputOf(w, action.claim).value.digests]
  {
  }

  // ----- over whole runs -----

  ghost predicate Cached(w: World) {
    WorldCore(w) && HistoryOk(w) && DayInputsOk(w) && SummariesOk(w)
  }

  lemma {:induction false} RunKeepsCache(cfg: Config, worlds: seq<World>, times: seq<Micros>, actions: seq<Action>, i: nat)
    requires IsRun(cfg, worlds, times, actions) && i < |worlds|
    ensures Cached(worlds[i])
  {
    hide Step, Possible, CoreOf, HistoryOk, DayInputsOk, SummariesOk;
    if i == 0 {
      EmptyCache();
    } else {
      RunKeepsCache(cfg, worlds, times, actions, i - 1);
      assert Follows(cfg, worlds[i - 1], times[i - 1], actions[i - 1], worlds[i - 1 + 1]);
      StepKeepsCache(cfg, worlds[i - 1], times[i - 1], actions[i - 1]);
    }
  }

  lemma EmptyCache()
    ensures Cached(Empty)
  {
  }

  lemma StepKeepsCache(cfg: Config, w: World, now: Micros, action: Action)
    requires cfg.Valid() && Possible(w, now, action) && Cached(w)
    ensures Cached(Step(cfg, w, now, action))
  {
    hide CoreOf, HistoryOk, DayInputsOk, SummariesOk, Next, Issued, Inputs, BuiltFrom, CurrentReadings, Answers;
    StepKeepsCore(cfg, w, now, action);
    StepExtendsHistory(cfg, w, now, action);
    StepKeepsDayInputs(cfg, w, now, action);
    StepKeepsSummaries(cfg, w, now, action);
  }

  /** In every reachable state every recording a stored summary names exists and lies on that day: deleted
      content never comes back, however reading, model call, deletion, re-analysis and write interleave. */
  lemma DeletedNeverReappears(cfg: Config, worlds: seq<World>, times: seq<Micros>, actions: seq<Action>, i: nat, day: Day)
    requires IsRun(cfg, worlds, times, actions) && i < |worlds| && day in worlds[i].db.summaries
    ensures NamesLive(worlds[i].db.recordings, day, worlds[i].db.summaries[day])
  {
    hide Step, Possible, CoreOf, HistoryOk, DayInputsOk, NamesLive;
    RunKeepsCache(cfg, worlds, times, actions, i);
    assert SummaryOk(worlds[i], day);
  }

  /** In every reachable state a summary that is not reported stale was built from precisely the readings
      the day holds now: the same recordings, each with the same content. */
  lemma StalenessIsExact(cfg: Config, worlds: seq<World>, times: seq<Micros>, actions: seq<Action>, i: nat, day: Day)
    requires IsRun(cfg, worlds, times, actions) && i < |worlds| && day in worlds[i].db.summaries
    requires !IsStale(worlds[i].db, day)
    ensures day in worlds[i].builtFrom && worlds[i].builtFrom[day] == Digests(worlds[i].db.recordings, day)
  {
    hide Step, Possible, CoreOf, DayInputsOk, NamesLive;
    RunKeepsCache(cfg, worlds, times, actions, i);
    assert SummaryOk(worlds[i], day);
    SameRevisionsSameReadings(worlds[i], day);
  }

  lemma SameRevisionsSameReadings(w: World, day: Day)
    requires HistoryOk(w) && day in w.builtFrom
    requires AllBacked(w.readings, Revisions(w.db.recordings, day), w.builtFrom[day])
    ensures w.builtFrom[day] == Digests(w.db.recordings, day)
  {
    hide DigestOf, InWindow;
    var digests := Digests(w.db.recordings, day);
    forall r | r in digests
      ensures r in w.builtFrom[day] && w.builtFrom[day][r] == digests[r]
    {
      assert r in Revisions(w.db.recordings, day);
      assert Backed(w.readings, r, Revisions(w.db.recordings, day)[r], w.builtFrom[day][r]);
    }
  }
}
