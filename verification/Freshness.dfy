/** What a worker read is what its commit is applied to, and what that makes of the transcript's tables. */
module Freshness {
  import opened Prelude
  import opened Days
  import opened Sentences
  import opened Translations
  import opened TranslationWrites
  import TranscriptEdit
  import opened Schema
  import opened Queue
  import opened Services
  import opened Jobs
  import opened Protocol
  import opened Keeping
  import opened Fencing

  // ----- which transactions move a transcript -----

  ghost predicate SameTranscript(before: map<RecordingId, Recording>, after: map<RecordingId, Recording>, r: RecordingId) {
    r in before ==> r in after && after[r].segments == before[r].segments
  }

  ghost predicate FullJobRuns(jobs: map<JobId, Job>, r: RecordingId) {
    exists id :: id in jobs && jobs[id].scope == OfRecording(r) && jobs[id].kind.Full? && Active(jobs[id])
  }

  lemma StatusKeepsTranscript(recordings: map<RecordingId, Recording>, job: Job, status: RecordingStatus, r: RecordingId)
    ensures SameTranscript(recordings, WithStatus(recordings, job, status), r)
  {
  }

  lemma PersistKeepsTranscript(db: Db, claim: ClaimedJob, input: Option<Input>, outcome: Outcome, r: RecordingId)
    requires Answers(claim.kind, input, outcome) && Persist(db, claim, input, outcome).Success?
    ensures SameTranscript(db.recordings, Persist(db, claim, input, outcome).value.recordings, r)
         || (outcome.Transcribed? && claim.scope == OfRecording(r))
  {
    hide Written, Retranscribed, Sentences.Grouped, RenderingsOf;
  }

  lemma FinishKeepsTranscript(db: Db, id: JobId, now: Micros, newId: JobId, r: RecordingId)
    requires id in db.jobs
    ensures SameTranscript(db.recordings, Finish(db, id, now, newId).recordings, r)
  {
    hide Logged, Successor;
  }

  lemma CompleteKeepsTranscript(db: Db, claim: ClaimedJob, input: Option<Input>, outcome: Outcome, now: Micros,
                                newId: JobId, r: RecordingId)
    requires CoreOf(db) && Answers(claim.kind, input, outcome)
    requires Owns(db.jobs, claim) ==> claim == ClaimOf(claim.id, db.jobs[claim.id], claim.token, claim.workerId)
    ensures SameTranscript(db.recordings, OrElse(Complete(db, claim, input, outcome, now, newId), db).recordings, r)
         || FullJobRuns(db.jobs, r)
  {
    hide CoreOf, Persist, Finish;
    if Owns(db.jobs, claim) {
      PersistKeepsJobs(db, claim, input, outcome);
      var p := Persist(db, claim, input, outcome);
      if p.Success? {
        PersistKeepsTranscript(db, claim, input, outcome, r);
        FinishKeepsTranscript(p.value, claim.id, now, newId, r);
      }
    }
  }

  lemma EndKeepsTranscript(db: Db, id: JobId, note: FailureNote, now: Micros, policy: RetryPolicy, event: ActivityType,
                           newId: JobId, r: RecordingId)
    requires id in db.jobs && policy.Valid()
    ensures SameTranscript(db.recordings, GiveUp(db, id, note, now, event, newId).recordings, r)
    ensures db.jobs[id].attempts >= 1 ==>
              SameTranscript(db.recordings, Requeue(db, id, note, now, policy, event).recordings, r)
  {
    hide Logged, Successor;
  }

  lemma SaveKeepsTranscript(db: Db, recording: RecordingId, expectedRevision: nat, edit: Edit, r: RecordingId)
    ensures SameTranscript(db.recordings, OrElse(Save(db, recording, expectedRevision, edit), db).recordings, r)
         || NoActive(db.jobs, OfRecording(r))
    ensures SameTranscript(db.recordings, OrElse(Delete(db, recording), db).recordings, r)
         || NoActive(db.jobs, OfRecording(r))
  {
    hide ApplyEdit, NoActive, WithoutRecording, JobsWithout, HasJob;
  }

  /** A transcript moves only while nothing is queued or running for it, or under its own transcription. */
  lemma StepMovesTranscript(cfg: Config, w: World, now: Micros, action: Action, r: RecordingId)
    requires cfg.Valid() && Possible(w, now, action) && Fenced(w)
    ensures SameTranscript(w.db.recordings, Next(cfg, w, now, action).recordings, r)
         || NoActive(w.db.jobs, OfRecording(r)) || FullJobRuns(w.db.jobs, r)
  {
    hide CoreOf, TokensOk, Complete, GiveUp, Requeue, Recover, Fail, Save, Delete, Answers, Digests, Logged, WithStatus,
         NoActive, FullJobRuns, Owns;
    var db := w.db;
    match action
    case DoComplete(claim, outcome, jobId) =>
      if Owns(db.jobs, claim) {
        OwnedIsLatest(w, claim);
      }
      CompleteKeepsTranscript(db, claim, InputOf(w, claim), outcome, now, jobId, r);
    case DoFail(claim, failure, jobId) => FailKeepsTranscript(db, claim, failure, now, cfg.policy, jobId, r);
    case DoRecover(id, jobId) => RecoverKeepsTranscript(db, id, now, cfg.policy, jobId, r);
    case DoSave(recording, expectedRevision, edit) => SaveKeepsTranscript(db, recording, expectedRevision, edit, r);
    case DoDelete(recording) => SaveKeepsTranscript(db, recording, 0, EditTranslations([]), r);
    case DoClaim(id, worker, _, token) =>
      StatusKeepsTranscript(db.recordings, Claimed(db.jobs[id], now, token, worker, cfg.lease), RecProcessing, r);
    case DoEnqueue(request, recording, jobId) =>
      EnqueueKeepsTranscript(db, request, recording, jobId, now, cfg.maxAttempts, r);
    case DoUpload(recording, _, _, _, _) => assert r in db.recordings ==> r != recording;
    case _ =>
  }

  lemma EnqueueKeepsTranscript(db: Db, request: Request, recording: RecordingId, jobId: JobId, now: Micros,
                               maxAttempts: nat, r: RecordingId)
    ensures SameTranscript(db.recordings, OrElse(Enqueue(db, request, recording, jobId, now, maxAttempts), db).recordings, r)
  {
    hide NoActive, Logged;
  }

  lemma FailKeepsTranscript(db: Db, claim: ClaimedJob, failure: JobFailure, now: Micros, policy: RetryPolicy,
                            newId: JobId, r: RecordingId)
    requires policy.Valid()
    ensures SameTranscript(db.recordings, OrElse(Fail(db, claim, failure, now, policy, newId), db).recordings, r)
  {
    hide GiveUp, Requeue;
    if Owns(db.jobs, claim) {
      var job := db.jobs[claim.id];
      var note := FailureNote(if failure.stage.Some? then failure.stage.value else job.stage, failure.code, now);
      EndKeepsTranscript(db, claim.id, note, now, policy, RetryScheduled, newId, r);
      EndKeepsTranscript(db, claim.id, note, now, policy, ProcessingFailed, newId, r);
    }
  }

  lemma RecoverKeepsTranscript(db: Db, id: JobId, now: Micros, policy: RetryPolicy, newId: JobId, r: RecordingId)
    requires policy.Valid() && id in db.jobs
    ensures SameTranscript(db.recordings, OrElse(Recover(db, id, now, policy, newId), db).recordings, r)
  {
    hide GiveUp, Requeue;
    EndKeepsTranscript(db, id, FailureNote(db.jobs[id].stage, "worker_lease_expired", now), now, policy, LeaseRecovered, newId, r);
  }

  // ----- what a worker read is current for as long as it owns its job -----

  predicate ReadsTranscript(kind: JobKind) {
    kind.Analysis? || kind.Translation?
  }

  ghost predicate InputOk(w: World, token: Token) {
    && token in w.issued && token in w.inputs
    && var claim := w.issued[token];
       ReadsTranscript(claim.kind) && Owns(w.db.jobs, claim) ==>
         && claim.scope.OfRecording? && claim.scope.recording in w.db.recordings
         && w.inputs[token] == TranscriptRead(w.db.recordings[claim.scope.recording].segments)
  }

  ghost predicate InputsOk(w: World) {
    forall token :: token in w.inputs ==> InputOk(w, token)
  }

  lemma OwnedHasRecording(w: World, claim: ClaimedJob)
    requires Fenced(w) && Holds(w, claim) && Owns(w.db.jobs, claim) && !claim.kind.DailySummary?
    ensures claim.scope.OfRecording? && claim.scope.recording in w.db.recordings
  {
    hide OneActive, AllWaiting, TokensOk;
    OwnedIsLatest(w, claim);
    CoreJobOk(w.db, claim.id);
  }

  lemma StepKeepsInput(cfg: Config, w: World, now: Micros, action: Action, token: Token)
    requires cfg.Valid() && Possible(w, now, action) && Fenced(w) && InputsOk(w)
    requires token in Step(cfg, w, now, action).inputs
    ensures InputOk(Step(cfg, w, now, action), token)
  {
    hide CoreOf, TokensOk, Next, BuiltFrom, CurrentReadings, Digests, Answers, WellNumbered;
    var after := Step(cfg, w, now, action);
    StepKeepsCore(cfg, w, now, action);
    StepKeepsTokens(cfg, w, now, action);
    if action.DoRead? && action.claim.token == token {
      ReadIsCurrent(cfg, w, now, action);
    } else {
      assert InputOk(w, token);
      var claim := w.issued[token];
      HeldByToken(w, token);
      if ReadsTranscript(claim.kind) && Owns(after.db.jobs, claim) {
        if !Owns(w.db.jobs, claim) {
          LostStaysLost(cfg, w, now, action, claim);
        } else {
          var r := claim.scope.recording;
          StepMovesTranscript(cfg, w, now, action, r);
          ActiveExcludes(w, claim);
        }
      }
    }
  }

  lemma HeldByToken(w: World, token: Token)
    requires Fenced(w) && token in w.issued
    ensures Holds(w, w.issued[token])
  {
  }

  lemma ReadIsCurrent(cfg: Config, w: World, now: Micros, action: Action)
    requires cfg.Valid() && Possible(w, now, action) && Fenced(w) && action.DoRead?
    ensures InputOk(Step(cfg, w, now, action), action.claim.token)
  {
    hide CoreOf, TokensOk, BuiltFrom, CurrentReadings, Digests;
    var claim := action.claim;
    if ReadsTranscript(claim.kind) && Owns(w.db.jobs, claim) {
      OwnedHasRecording(w, claim);
    }
  }

  /** An owned analysis or translation job is active, and is the only active job of its recording. */
  lemma ActiveExcludes(w: World, claim: ClaimedJob)
    requires Fenced(w) && Holds(w, claim) && Owns(w.db.jobs, claim) && ReadsTranscript(claim.kind)
    ensures claim.scope.OfRecording? && claim.id in w.db.jobs
    ensures forall id :: id in w.db.jobs && w.db.jobs[id].scope == claim.scope ==> (Active(w.db.jobs[id]) <==> id == claim.id)
    ensures !NoActive(w.db.jobs, claim.scope) && !FullJobRuns(w.db.jobs, claim.scope.recording)
  {
    hide AllJobs, AllWaiting, TokensOk;
    OwnedHasRecording(w, claim);
    OwnedIsLatest(w, claim);
  }

  // ----- the transcript's own tables -----

  ghost predicate ContentOk(rec: Recording) {
    WellNumbered(rec.segments) && TableOk(rec.segments, rec.translations)
  }

  ghost predicate ContentsOk(recordings: map<RecordingId, Recording>) {
    forall r :: r in recordings ==> ContentOk(recordings[r])
  }

  lemma TranscriptionKeepsContent(rec: Recording, rows: seq<SegmentRow>)
    requires WellNumbered(rows) && CommitTranscript(rec, rows).Success?
    ensures ContentOk(CommitTranscript(rec, rows).value)
  {
    hide Capture, Carry, TableOk, WellNumbered;
    var preserved := Capture(rec.segments, rec.translations).value;
    CarryKeepsTable(rows, preserved);
  }

  lemma RenderingKeepsContent(rec: Recording, input: Input, replies: seq<string>)
    requires ContentOk(rec) && input == TranscriptRead(rec.segments)
    requires Grouped(Segments(input.segments), MAX_SENTENCE_CHARS).Success?
    requires |replies| == |Grouped(Segments(input.segments), MAX_SENTENCE_CHARS).value|
    ensures ContentOk(CommitTranslations(rec, Some(RenderingsOf(input, replies))))
    ensures Aligned(rec.segments, RenderingsOf(input, replies))
  {
    hide Grouped, TableOk, WellNumbered, Written, Segments, Translate, Aligned;
    TranslateIsAligned(rec.segments, Grouped(Segments(rec.segments), MAX_SENTENCE_CHARS).value, replies);
    RunKeepsTable(rec.segments, rec.translations, RenderingsOf(input, replies));
  }

  lemma EditKeepsContent(rec: Recording, edit: Edit)
    requires ContentOk(rec) && ApplyEdit(rec, edit).Success?
    ensures ContentOk(ApplyEdit(rec, edit).value)
  {
    hide TranscriptEdit.Edited, EditRows, TableOk, WellNumbered, AllStale;
    match edit
    case EditTranscript(updates) =>
      TranscriptEdit.EditedIsRenumbering(rec.segments, updates, rec.duration);
      StaleKeepsTable(rec.segments, TranscriptEdit.Edited(rec.segments, updates, rec.duration).value, rec.translations);
    case EditAnalysis(_) =>
    case EditTranslations(updates) => EditKeepsTable(rec.segments, rec.translations, updates);
  }

  lemma PersistKeepsContent(w: World, claim: ClaimedJob, outcome: Outcome)
    requires ContentsOk(w.db.recordings) && InputsOk(w) && Holds(w, claim) && Owns(w.db.jobs, claim)
    requires Answers(claim.kind, InputOf(w, claim), outcome) && (outcome.Transcribed? ==> WellNumbered(outcome.rows))
    ensures var r := Persist(w.db, claim, InputOf(w, claim), outcome);
            r.Success? ==> ContentsOk(r.value.recordings)
  {
    hide ContentOk, CommitTranscript, CommitTranslations, WellNumbered, Grouped, RenderingsOf, Segments, Revisions, KeyPoints;
    if claim.token in w.inputs {
      assert InputOk(w, claim.token);
    }
    if claim.scope.OfRecording? && claim.scope.recording in w.db.recordings {
      var rec := w.db.recordings[claim.scope.recording];
      assert ContentOk(rec);
      match outcome
      case Transcribed(rows) =>
        if CommitTranscript(rec, rows).Success? {
          TranscriptionKeepsContent(rec, rows);
        }
      case Rendered(replies) => RenderingKeepsContent(rec, w.inputs[claim.token], replies);
      case RenderSkipped => SkippedKeepsContent(rec);
      case Analysed(status, reading) => AnalysisKeepsContent(rec, CommitAnalysis(rec, status, reading));
      case _ =>
    }
  }

  lemma SkippedKeepsContent(rec: Recording)
    requires ContentOk(rec)
    ensures ContentOk(CommitTranslations(rec, None))
  {
    hide WellNumbered, TableOk;
  }

  lemma AnalysisKeepsContent(rec: Recording, after: Recording)
    requires ContentOk(rec) && after.segments == rec.segments && after.translations == rec.translations
    ensures ContentOk(after)
  {
    hide WellNumbered, TableOk;
  }

  lemma StatusKeepsContents(recordings: map<RecordingId, Recording>, job: Job, status: RecordingStatus)
    requires ContentsOk(recordings)
    ensures ContentsOk(WithStatus(recordings, job, status))
  {
    hide WellNumbered, TableOk;
  }

  lemma FinishKeepsContents(db: Db, id: JobId, now: Micros, newId: JobId)
    requires id in db.jobs && ContentsOk(db.recordings)
    ensures ContentsOk(Finish(db, id, now, newId).recordings)
  {
    hide Logged, Successor, ContentsOk, WithStatus;
    StatusKeepsContents(db.recordings, Done(db.jobs[id], now), RecCompleted);
  }

  lemma CompleteKeepsContents(w: World, claim: ClaimedJob, outcome: Outcome, now: Micros, newId: JobId)
    requires ContentsOk(w.db.recordings) && InputsOk(w) && Holds(w, claim)
    requires Answers(claim.kind, InputOf(w, claim), outcome) && (outcome.Transcribed? ==> WellNumbered(outcome.rows))
    ensures ContentsOk(OrElse(Complete(w.db, claim, InputOf(w, claim), outcome, now, newId), w.db).recordings)
  {
    hide ContentsOk, Persist, Finish, Answers, WellNumbered;
    if Owns(w.db.jobs, claim) {
      PersistKeepsContent(w, claim, outcome);
      PersistKeepsJobs(w.db, claim, InputOf(w, claim), outcome);
      var p := Persist(w.db, claim, InputOf(w, claim), outcome);
      if p.Success? {
        FinishKeepsContents(p.value, claim.id, now, newId);
      }
    }
  }

  lemma EndKeepsContents(db: Db, id: JobId, note: FailureNote, now: Micros, policy: RetryPolicy, event: ActivityType, newId: JobId)
    requires id in db.jobs && policy.Valid() && ContentsOk(db.recordings)
    ensures ContentsOk(GiveUp(db, id, note, now, event, newId).recordings)
    ensures db.jobs[id].attempts >= 1 ==> ContentsOk(Requeue(db, id, note, now, policy, event).recordings)
  {
    hide Logged, Successor, ContentsOk, WithStatus;
    StatusKeepsContents(db.recordings, GivenUp(db.jobs[id], note, now), RecFailed);
    if db.jobs[id].attempts >= 1 {
      StatusKeepsContents(db.recordings, Requeued(db.jobs[id], note, now, policy), RecQueued);
    }
  }

  lemma FailKeepsContents(db: Db, claim: ClaimedJob, failure: JobFailure, now: Micros, policy: RetryPolicy, newId: JobId)
    requires policy.Valid() && ContentsOk(db.recordings)
    ensures ContentsOk(OrElse(Fail(db, claim, failure, now, policy, newId), db).recordings)
  {
    hide GiveUp, Requeue, ContentsOk;
    if Owns(db.jobs, claim) {
      var job := db.jobs[claim.id];
      var note := FailureNote(if failure.stage.Some? then failure.stage.value else job.stage, failure.code, now);
      EndKeepsContents(db, claim.id, note, now, policy, RetryScheduled, newId);
      EndKeepsContents(db, claim.id, note, now, policy, ProcessingFailed, newId);
    }
  }

  lemma RecoverKeepsContents(db: Db, id: JobId, now: Micros, policy: RetryPolicy, newId: JobId)
    requires policy.Valid() && id in db.jobs && ContentsOk(db.recordings)
    ensures ContentsOk(OrElse(Recover(db, id, now, policy, newId), db).recordings)
  {
    hide GiveUp, Requeue, ContentsOk;
    EndKeepsContents(db, id, FailureNote(db.jobs[id].stage, "worker_lease_expired", now), now, policy, LeaseRecovered, newId);
  }

  lemma EditsKeepContents(db: Db, recording: RecordingId, expectedRevision: nat, edit: Edit)
    requires ContentsOk(db.recordings)
    ensures ContentsOk(OrElse(Save(db, recording, expectedRevision, edit), db).recordings)
    ensures ContentsOk(OrElse(Delete(db, recording), db).recordings)
  {
    hide ApplyEdit, NoActive, WithoutRecording, JobsWithout, HasJob, ContentOk;
    if recording in db.recordings && ApplyEdit(db.recordings[recording], edit).Success? {
      EditKeepsContent(db.recordings[recording], edit);
    }
  }

  lemma RequestsKeepContents(cfg: Config, w: World, now: Micros, action: Action)
    requires cfg.Valid() && Possible(w, now, action) && ContentsOk(w.db.recordings)
    requires action.DoUpload? || action.DoEnqueue?
    ensures ContentsOk(Next(cfg, w, now, action).recordings)
  {
    hide Logged, NoActive, WithStatus, ContentOk;
    match action
    case DoUpload(_, startedAt, duration, _, _) => NewIsOk(startedAt, duration);
    case DoEnqueue(request, recording, jobId) =>
      var kind := RequestedKind(request);
      StatusKeepsContents(w.db.recordings,
        FreshJob(OfRecording(recording), kind, if kind.Full? then ChainedFollowUp(kind) else None, cfg.maxAttempts, now, now),
        RecQueued);
  }

  lemma NewIsOk(startedAt: Micros, duration: real)
    ensures ContentOk(NewRecording(startedAt, duration))
  {
  }

  lemma StepKeepsContents(cfg: Config, w: World, now: Micros, action: Action)
    requires cfg.Valid() && Possible(w, now, action) && InputsOk(w) && ContentsOk(w.db.recordings)
    ensures ContentsOk(Next(cfg, w, now, action).recordings)
  {
    hide InputsOk, ContentsOk, Complete, Fail, Recover, Save, Delete, Enqueue, Upload, Answers, Digests, Logged, WithStatus,
         NoActive, WellNumbered;
    var db := w.db;
    match action
    case DoUpload(_, _, _, _, _) => RequestsKeepContents(cfg, w, now, action);
    case DoEnqueue(_, _, _) => RequestsKeepContents(cfg, w, now, action);
    case DoClaim(id, worker, _, token) =>
      StatusKeepsContents(db.recordings, Claimed(db.jobs[id], now, token, worker, cfg.lease), RecProcessing);
    case DoComplete(claim, outcome, jobId) => CompleteKeepsContents(w, claim, outcome, now, jobId);
    case DoFail(claim, failure, jobId) => FailKeepsContents(db, claim, failure, now, cfg.policy, jobId);
    case DoRecover(id, jobId) => RecoverKeepsContents(db, id, now, cfg.policy, jobId);
    case DoSave(recording, expectedRevision, edit) => EditsKeepContents(db, recording, expectedRevision, edit);
    case DoDelete(recording) => EditsKeepContents(db, recording, 0, EditTranslations([]));
    case _ =>
  }

  // ----- over whole runs -----

  ghost predicate Fresh(w: World) {
    Fenced(w) && InputsOk(w) && ContentsOk(w.db.recordings)
  }

  lemma StepKeepsFresh(cfg: Config, w: World, now: Micros, action: Action)
    requires cfg.Valid() && Possible(w, now, action) && Fresh(w)
    ensures Fresh(Step(cfg, w, now, action))
  {
    hide CoreOf, TokensOk, Next, InputOk, ContentsOk, BuiltFrom, CurrentReadings, Issued, Inputs;
    StepKeepsCore(cfg, w, now, action);
    StepKeepsTokens(cfg, w, now, action);
    StepKeepsContents(cfg, w, now, action);
    forall token | token in Step(cfg, w, now, action).inputs
      ensures InputOk(Step(cfg, w, now, action), token)
    {
      StepKeepsInput(cfg, w, now, action, token);
    }
  }

  /** In every reachable state the translation table of every recording is whole, and what the owner of an
      analysis or translation job read is the transcript as it stands. */
  lemma {:induction false} RunKeepsFresh(cfg: Config, worlds: seq<World>, times: seq<Micros>, actions: seq<Action>, i: nat)
    requires IsRun(cfg, worlds, times, actions) && i < |worlds|
    ensures Fresh(worlds[i])
  {
    hide Step, Possible, CoreOf, TokensOk, InputOk, ContentOk;
    if i == 0 {
      RunKeepsFence(cfg, worlds, times, actions, 0);
    } else {
      RunKeepsFresh(cfg, worlds, times, actions, i - 1);
      assert Follows(cfg, worlds[i - 1], times[i - 1], actions[i - 1], worlds[i - 1 + 1]);
      StepKeepsFresh(cfg, worlds[i - 1], times[i - 1], actions[i - 1]);
    }
  }

  /** When an owned analysis or translation commits, its recording is there and its transcript is, segment
      for segment and id for id, the one the job read. */
  lemma CommitSeesWhatItRead(cfg: Config, worlds: seq<World>, times: seq<Micros>, actions: seq<Action>, i: nat)
    requires IsRun(cfg, worlds, times, actions) && i < |actions|
    requires actions[i].DoComplete? && ReadsTranscript(actions[i].claim.kind) && Owns(worlds[i].db.jobs, actions[i].claim)
    ensures var claim := actions[i].claim;
            && claim.scope.OfRecording? && claim.scope.recording in worlds[i].db.recordings
            && InputOf(worlds[i], claim) == Some(TranscriptRead(worlds[i].db.recordings[claim.scope.recording].segments))
  {
    hide Step, CoreOf, TokensOk, ContentsOk;
    RunKeepsFresh(cfg, worlds, times, actions, i);
    assert Follows(cfg, worlds[i], times[i], actions[i], worlds[i + 1]);
    assert InputOk(worlds[i], actions[i].claim.token);
  }

  /** The replies of a translation that commits are one for each sentence of the transcript as it stands. */
  lemma RepliesMatchSentences(cfg: Config, worlds: seq<World>, times: seq<Micros>, actions: seq<Action>, i: nat)
    requires IsRun(cfg, worlds, times, actions) && i < |actions|
    requires actions[i].DoComplete? && actions[i].outcome.Rendered? && Owns(worlds[i].db.jobs, actions[i].claim)
    ensures var claim := actions[i].claim;
            && claim.scope.OfRecording? && claim.scope.recording in worlds[i].db.recordings
            && var rec := worlds[i].db.recordings[claim.scope.recording];
               && InputOf(worlds[i], claim) == Some(TranscriptRead(rec.segments))
               && var grouped := Grouped(Segments(rec.segments), MAX_SENTENCE_CHARS);
                  grouped.Success? && |actions[i].outcome.replies| == |grouped.value|
  {
    hide Step, CoreOf, TokensOk, InputsOk, Grouped, Segments, Owns;
    assert Follows(cfg, worlds[i], times[i], actions[i], worlds[i + 1]);
    assert Answers(actions[i].claim.kind, InputOf(worlds[i], actions[i].claim), actions[i].outcome);
    CommitSeesWhatItRead(cfg, worlds, times, actions, i);
  }

  /** So no rendering of a translation run is ever dropped as misplaced, and after its commit every sentence
      of the transcript has exactly one row: the administrator's own, or a fresh one recording its words. */
  lemma TranslationCommitIsExact(cfg: Config, worlds: seq<World>, times: seq<Micros>, actions: seq<Action>, i: nat, k: nat)
    returns (sentences: seq<Sentence>, row: nat)
    requires IsRun(cfg, worlds, times, actions) && i < |actions|
    requires actions[i].DoComplete? && actions[i].outcome.Rendered? && Owns(worlds[i].db.jobs, actions[i].claim)
    requires k < |actions[i].outcome.replies|
    ensures actions[i].claim.scope.OfRecording?
    ensures actions[i].claim.scope.recording in worlds[i].db.recordings
    ensures actions[i].claim.scope.recording in worlds[i + 1].db.recordings
    ensures |actions[i].outcome.replies| == |sentences|
    ensures var rec := worlds[i].db.recordings[actions[i].claim.scope.recording];
            var after := worlds[i + 1].db.recordings[actions[i].claim.scope.recording];
            && Grouped(Segments(rec.segments), MAX_SENTENCE_CHARS) == Success(sentences)
            && after.segments == rec.segments
            && Aligned(rec.segments, Translate(sentences, actions[i].outcome.replies))
            && 0 <= sentences[k].startSequence <= sentences[k].endSequence < |rec.segments|
            && row < |after.translations|
            && FreshOrManual(rec.segments, rec.translations, sentences[k], actions[i].outcome.replies[k], after.translations[row])
            && forall j :: 0 <= j < |after.translations| && j != row ==>
                 after.translations[j].startId != after.translations[row].startId
  {
    hide Step, CoreOf, TokensOk, InputsOk, Grouped, TableOk, Segments, Next, FreshOrManual, Aligned, Written, Owns;
    RunKeepsFresh(cfg, worlds, times, actions, i);
    assert Follows(cfg, worlds[i], times[i], actions[i], worlds[i + 1]);
    RepliesMatchSentences(cfg, worlds, times, actions, i);
    var rec := worlds[i].db.recordings[actions[i].claim.scope.recording];
    var replies := actions[i].outcome.replies;
    sentences := Grouped(Segments(rec.segments), MAX_SENTENCE_CHARS).value;
    TranslateIsAligned(rec.segments, sentences, replies);
    row := RunCoversEverySentence(rec.segments, rec.translations, sentences, replies, k);
    RenderedWrites(cfg, worlds[i], times[i], actions[i], sentences);
  }

  /** What the completing transaction of a translation job leaves on its recording. */
  lemma RenderedWrites(cfg: Config, w: World, now: Micros, action: Action, sentences: seq<Sentence>)
    requires cfg.Valid() && Possible(w, now, action) && action.DoComplete? && action.outcome.Rendered?
    requires Owns(w.db.jobs, action.claim) && action.claim.scope.OfRecording?
    requires action.claim.scope.recording in w.db.recordings
    requires var rec := w.db.recordings[action.claim.scope.recording];
             && InputOf(w, action.claim) == Some(TranscriptRead(rec.segments))
             && Grouped(Segments(rec.segments), MAX_SENTENCE_CHARS) == Success(sentences)
             && |action.outcome.replies| == |sentences|
    ensures var r := action.claim.scope.recording;
            var after := Step(cfg, w, now, action).db.recordings;
            && r in after && after[r].segments == w.db.recordings[r].segments
            && after[r].translations == Written(w.db.recordings[r].segments, w.db.recordings[r].translations,
                                                Translate(sentences, action.outcome.replies))
  {
    hide Grouped, Segments, Translate, Written, Logged, Successor, BuiltFrom, CurrentReadings, Revisions;
  }
}
