/** What each step writes into a recording, column by column, and its revisions along whole runs. */
module ContentMoves {
  import opened Prelude
  import opened Days
  import opened Sentences
  import opened Translations
  import opened TranslationWrites
  import TranscriptEdit
  import Grounding
  import opened Schema
  import opened Queue
  import opened Services
  import opened Jobs
  import opened Protocol
  import opened Keeping
  import opened Fencing
  import Summaries
  import Starvation

  /** A worker's result for this recording lands. */
  ghost predicate CommitLands(cfg: Config, w: World, now: Micros, action: Action, r: RecordingId) {
    && cfg.Valid() && Possible(w, now, action) && action.DoComplete? && action.claim.scope == OfRecording(r)
    && Complete(w.db, action.claim, InputOf(w, action.claim), action.outcome, now, action.jobId).Success?
  }

  /** An edit of this recording is accepted. */
  ghost predicate SaveLands(w: World, action: Action, r: RecordingId) {
    action.DoSave? && action.recording == r && Save(w.db, r, action.expectedRevision, action.edit).Success?
  }

  // ----- what they write -----

  /** A reading of words that are gone: stale, under a new revision. */
  predicate GoesStale(a: Recording, b: Recording) {
    && a.analysis.Some?
    && b.analysis == Some(AnalysisRow(AnalysisStale, a.analysis.value.reading))
    && b.analysisRevision == a.analysisRevision + 1
  }

  predicate SameAnalysis(a: Recording, b: Recording) {
    b.analysis == a.analysis && b.analysisRevision == a.analysisRevision
  }

  predicate SameTranslations(a: Recording, b: Recording) {
    b.translations == a.translations && b.translationRevision == a.translationRevision
  }

  predicate SameWords(a: Recording, b: Recording) {
    b.segments == a.segments && b.transcriptRevision == a.transcriptRevision
  }

  /** A transcription replaces the words, carries the translations and outdates a completed reading; an analysis
      replaces the reading, except that a run without one leaves a stored reading alone; a translation run moves
      the translations, or only their revision when it was skipped. */
  predicate CommitWrites(a: Recording, b: Recording, outcome: Outcome) {
    && b.startedAt == a.startedAt && b.duration == a.duration
    && match outcome
       case Transcribed(rows) =>
         && b.segments == rows && b.transcriptRevision == a.transcriptRevision + 1
         && Retranscribed(a.segments, a.translations, rows) == Success(b.translations)
         && b.translationRevision == a.translationRevision + 1
         && (if a.analysis.Some? && a.analysis.value.status.AnalysisDone? then GoesStale(a, b) else SameAnalysis(a, b))
       case Analysed(status, reading) =>
         && SameWords(a, b) && SameTranslations(a, b)
         && (if !status.AnalysisDone? && a.analysis.Some? && a.analysis.value.reading.Some? then SameAnalysis(a, b)
             else b.analysis == Some(AnalysisRow(status, reading)) && b.analysisRevision == a.analysisRevision + 1)
       case Rendered(_) =>
         SameWords(a, b) && SameAnalysis(a, b) && b.translationRevision == a.translationRevision + 1
       case RenderSkipped =>
         && SameWords(a, b) && SameAnalysis(a, b)
         && b.translations == a.translations && b.translationRevision == a.translationRevision + 1
       case _ => false
  }

  /** An edit of the words leaves every rendering in place but stale, and any reading stale; an edit of the reading
      stores it as completed; an edit of the translations saves their rows. Each raises its own revision. */
  predicate EditWrites(a: Recording, b: Recording, edit: Edit) {
    && b.startedAt == a.startedAt && b.duration == a.duration && b.status == a.status
    && match edit
       case EditTranscript(updates) =>
         && TranscriptEdit.Edited(a.segments, updates, a.duration) == Success(b.segments)
         && b.transcriptRevision == a.transcriptRevision + 1
         && |b.translations| == |a.translations|
         && (forall k :: 0 <= k < |a.translations| ==> b.translations[k] == a.translations[k].(stale := true))
         && b.translationRevision == a.translationRevision + (if |a.translations| > 0 then 1 else 0)
         && (if a.analysis.Some? then GoesStale(a, b) else SameAnalysis(a, b))
       case EditAnalysis(reading) =>
         && SameWords(a, b) && SameTranslations(a, b)
         && b.analysis == Some(AnalysisRow(AnalysisDone, Some(reading))) && b.analysisRevision == a.analysisRevision + 1
       case EditTranslations(updates) =>
         && SameWords(a, b) && SameAnalysis(a, b)
         && EditRows(a.segments, a.translations, updates) == Success(b.translations)
         && b.translationRevision == a.translationRevision + 1
  }

  lemma PersistWrites(rec: Recording, input: Option<Input>, outcome: Outcome, kind: JobKind)
    requires Answers(kind, input, outcome) && !outcome.DaySummarised? && !outcome.DaySkipped?
    requires PersistRecording(rec, input, outcome, kind).Success?
    ensures CommitWrites(rec, PersistRecording(rec, input, outcome, kind).value, outcome)
  {
    hide Retranscribed, Written, Sentences.Grouped, RenderingsOf;
  }

  lemma ApplyWrites(rec: Recording, edit: Edit)
    requires ApplyEdit(rec, edit).Success?
    ensures EditWrites(rec, ApplyEdit(rec, edit).value, edit)
  {
    hide TranscriptEdit.Edited, EditRows;
  }

  lemma StatusIsNoContent(a: Recording, b: Recording, status: RecordingStatus, outcome: Outcome)
    requires CommitWrites(a, b, outcome)
    ensures CommitWrites(a, b.(status := status), outcome)
  {
    hide Retranscribed;
  }

  // ----- one step -----

  lemma CompletionWrites(cfg: Config, w: World, now: Micros, action: Action, r: RecordingId)
    requires cfg.Valid() && Possible(w, now, action) && action.DoComplete?
    requires r in w.db.recordings && r in Next(cfg, w, now, action).recordings
    ensures var a, b := w.db.recordings[r], Next(cfg, w, now, action).recordings[r];
            if CommitLands(cfg, w, now, action, r) then CommitWrites(a, b, action.outcome) else b == a.(status := b.status)
  {
    hide PersistRecording, Logged, Successor, Revisions, KeyPoints, CommitWrites, Answers, Digests;
    var claim, input := action.claim, InputOf(w, action.claim);
    PersistKeepsJobs(w.db, claim, input, action.outcome);
    if CommitLands(cfg, w, now, action, r) {
      var p := PersistRecording(w.db.recordings[r], input, action.outcome, claim.kind);
      PersistWrites(w.db.recordings[r], input, action.outcome, claim.kind);
      StatusIsNoContent(w.db.recordings[r], p.value, Next(cfg, w, now, action).recordings[r].status, action.outcome);
    }
  }

  lemma EndingWritesNothing(db: Db, id: JobId, note: FailureNote, now: Micros, policy: RetryPolicy, event: ActivityType,
                            newId: JobId, r: RecordingId)
    requires id in db.jobs && policy.Valid() && r in db.recordings
    ensures var after := GiveUp(db, id, note, now, event, newId).recordings;
            r in after && after[r] == db.recordings[r].(status := after[r].status)
    ensures db.jobs[id].attempts >= 1 ==>
              var after := Requeue(db, id, note, now, policy, event).recordings;
              r in after && after[r] == db.recordings[r].(status := after[r].status)
  {
    hide Logged, Successor, Requeued;
  }

  lemma FailureWritesNothing(cfg: Config, w: World, now: Micros, action: Action, r: RecordingId)
    requires cfg.Valid() && Possible(w, now, action) && (action.DoFail? || action.DoRecover?)
    requires r in w.db.recordings && r in Next(cfg, w, now, action).recordings
    ensures var after := Next(cfg, w, now, action).recordings;
            after[r] == w.db.recordings[r].(status := after[r].status)
  {
    hide GiveUp, Requeue, Answers, Digests;
    var id := if action.DoFail? then action.claim.id else action.id;
    if id in w.db.jobs {
      var job := w.db.jobs[id];
      if action.DoFail? {
        var note := FailureNote(if action.failure.stage.Some? then action.failure.stage.value else job.stage, action.failure.code, now);
        EndingWritesNothing(w.db, id, note, now, cfg.policy, ProcessingFailed, action.jobId, r);
        EndingWritesNothing(w.db, id, note, now, cfg.policy, RetryScheduled, action.jobId, r);
      } else {
        EndingWritesNothing(w.db, id, FailureNote(job.stage, "worker_lease_expired", now), now, cfg.policy, LeaseRecovered,
                            action.jobId, r);
      }
    }
  }

  /** The only writers of a recording's content are its workers' results and its accepted edits. */
  lemma StepWrites(cfg: Config, w: World, now: Micros, action: Action, r: RecordingId)
    requires cfg.Valid() && Possible(w, now, action) && WorldCore(w)
    requires r in w.db.recordings && r in Next(cfg, w, now, action).recordings
    ensures var a, b := w.db.recordings[r], Next(cfg, w, now, action).recordings[r];
            if CommitLands(cfg, w, now, action, r) then CommitWrites(a, b, action.outcome)
            else if SaveLands(w, action, r) then EditWrites(a, b, action.edit)
            else b == a.(status := b.status)
  {
    hide CoreOf, Complete, Fail, Recover, Answers, Digests, Logged, NoActive, ApplyEdit, CommitWrites, EditWrites, HasJob,
         WithoutRecording;
    match action
    case DoComplete(_, _, _) => CompletionWrites(cfg, w, now, action, r);
    case DoFail(_, _, _) => FailureWritesNothing(cfg, w, now, action, r);
    case DoRecover(_, _) => FailureWritesNothing(cfg, w, now, action, r);
    case DoSave(recording, _, edit) =>
      if SaveLands(w, action, r) {
        ApplyWrites(w.db.recordings[r], edit);
      }
    case _ =>
  }

  // ----- revisions along a run -----

  /** No revision falls, and content moves only together with its own revision. */
  predicate Grows(a: Recording, b: Recording) {
    && b.startedAt == a.startedAt && b.duration == a.duration
    && a.transcriptRevision <= b.transcriptRevision
    && (a.transcriptRevision == b.transcriptRevision ==> b.segments == a.segments)
    && a.analysisRevision <= b.analysisRevision
    && (a.analysisRevision == b.analysisRevision ==> b.analysis == a.analysis)
    && a.translationRevision <= b.translationRevision
    && (a.translationRevision == b.translationRevision ==> b.translations == a.translations)
  }

  lemma CommitGrows(a: Recording, b: Recording, outcome: Outcome)
    requires CommitWrites(a, b, outcome)
    ensures Grows(a, b)
  {
    hide Retranscribed;
  }

  lemma EditGrows(a: Recording, b: Recording, edit: Edit)
    requires EditWrites(a, b, edit)
    ensures Grows(a, b)
  {
    hide TranscriptEdit.Edited, EditRows;
  }

  lemma StepGrows(cfg: Config, w: World, now: Micros, action: Action, after: World, r: RecordingId)
    requires Follows(cfg, w, now, action, after) && WorldCore(w) && r in w.db.recordings && r in after.db.recordings
    ensures Grows(w.db.recordings[r], after.db.recordings[r])
  {
    hide CoreOf, Possible, Step, Next, CommitLands, SaveLands, CommitWrites, EditWrites, Grows;
    Starvation.StepTables(cfg, w, now, action);
    StepWrites(cfg, w, now, action, r);
    LandingKinds(cfg, w, now, action, r);
    var a, b := w.db.recordings[r], after.db.recordings[r];
    if CommitLands(cfg, w, now, action, r) {
      CommitGrows(a, b, action.outcome);
    } else if SaveLands(w, action, r) {
      EditGrows(a, b, action.edit);
    } else {
      StatusGrows(a, b);
    }
  }

  lemma StatusGrows(a: Recording, b: Recording)
    requires b == a.(status := b.status)
    ensures Grows(a, b)
  {
  }

  /** A recording that is gone never comes back under its id. */
  lemma WasThere(cfg: Config, w: World, now: Micros, action: Action, after: World, r: RecordingId)
    requires Follows(cfg, w, now, action, after) && WorldCore(w) && r in w.usedRecordings && r in after.db.recordings
    ensures r in w.db.recordings
  {
    hide CoreOf, Possible, Step, Next, Summaries.SameReading;
    Starvation.StepTables(cfg, w, now, action);
    Summaries.StepMovesReadings(cfg, w, now, action);
  }

  lemma {:induction false} StaysKnown(cfg: Config, worlds: seq<World>, times: seq<Micros>, actions: seq<Action>,
                                      i: nat, j: nat, r: RecordingId)
    requires IsRun(cfg, worlds, times, actions) && i <= j < |worlds| && r in worlds[i].db.recordings
    ensures r in worlds[j].usedRecordings
  {
    hide CoreOf, Possible, Next, Inputs, BuiltFrom, CurrentReadings, Issued;
    if i == j {
      RunKeepsCore(cfg, worlds, times, actions, i);
    } else {
      StaysKnown(cfg, worlds, times, actions, i, j - 1, r);
      assert Follows(cfg, worlds[j - 1], times[j - 1], actions[j - 1], worlds[j - 1 + 1]);
    }
  }

  /** Between two states of a run that hold a recording, it is held throughout and its revisions grow. */
  lemma {:induction false} RunGrows(cfg: Config, worlds: seq<World>, times: seq<Micros>, actions: seq<Action>,
                                    i: nat, j: nat, r: RecordingId)
    requires IsRun(cfg, worlds, times, actions) && i <= j < |worlds|
    requires r in worlds[i].db.recordings && r in worlds[j].db.recordings
    ensures forall k :: i <= k <= j ==> r in worlds[k].db.recordings
    ensures Grows(worlds[i].db.recordings[r], worlds[j].db.recordings[r])
  {
    hide CoreOf, Possible, Step;
    if i < j {
      RunKeepsCore(cfg, worlds, times, actions, j - 1);
      StaysKnown(cfg, worlds, times, actions, i, j - 1, r);
      assert Follows(cfg, worlds[j - 1], times[j - 1], actions[j - 1], worlds[j - 1 + 1]);
      WasThere(cfg, worlds[j - 1], times[j - 1], actions[j - 1], worlds[j], r);
      StepGrows(cfg, worlds[j - 1], times[j - 1], actions[j - 1], worlds[j], r);
      RunGrows(cfg, worlds, times, actions, i, j - 1, r);
    }
  }

  // ----- no update is lost -----

  /** The revision of the content this edit replaces. */
  predicate AtRevision(rec: Recording, edit: Edit, revision: nat) {
    match edit
    case EditTranscript(_) => rec.transcriptRevision == revision
    case EditAnalysis(_) => rec.analysisRevision == revision
    case EditTranslations(_) => rec.translationRevision == revision
  }

  /** Two states of a recording agree on the content this edit replaces. */
  predicate AgreeFor(a: Recording, b: Recording, edit: Edit) {
    match edit
    case EditTranscript(_) => a.segments == b.segments
    case EditAnalysis(_) => a.analysis == b.analysis
    case EditTranslations(_) => a.translations == b.translations
  }

  predicate SameKindOfEdit(a: Edit, b: Edit) {
    (a.EditTranscript? <==> b.EditTranscript?) && (a.EditAnalysis? <==> b.EditAnalysis?)
  }

  lemma SavedAtRevision(w: World, action: Action, r: RecordingId)
    requires SaveLands(w, action, r)
    ensures r in w.db.recordings && AtRevision(w.db.recordings[r], action.edit, action.expectedRevision)
    ensures NoActive(w.db.jobs, OfRecording(r))
  {
    hide NoActive, ApplyEdit, HasJob;
  }

  lemma SavedMovesOn(cfg: Config, w: World, now: Micros, action: Action, after: World, r: RecordingId)
    requires Follows(cfg, w, now, action, after) && WorldCore(w) && SaveLands(w, action, r)
    ensures r in after.db.recordings && AtRevision(after.db.recordings[r], action.edit, action.expectedRevision + 1)
  {
    hide CoreOf, Possible, Step, CommitLands, NoActive, ApplyEdit, HasJob, TranscriptEdit.Edited, EditRows;
    Starvation.StepTables(cfg, w, now, action);
    SavedAtRevision(w, action, r);
    NotACommit(cfg, w, now, action, r);
    StepWrites(cfg, w, now, action, r);
  }

  lemma NotACommit(cfg: Config, w: World, now: Micros, action: Action, r: RecordingId)
    requires action.DoSave?
    ensures !CommitLands(cfg, w, now, action, r)
  {
  }

  /** An accepted edit replaces exactly the content that stood at the revision its author named, whenever that was
      read: nothing written in between is overwritten unseen. */
  lemma SaveReplacesWhatWasSeen(cfg: Config, worlds: seq<World>, times: seq<Micros>, actions: seq<Action>,
                                i: nat, j: nat, r: RecordingId)
    requires IsRun(cfg, worlds, times, actions) && i <= j < |actions| && SaveLands(worlds[j], actions[j], r)
    requires r in worlds[i].db.recordings && AtRevision(worlds[i].db.recordings[r], actions[j].edit, actions[j].expectedRevision)
    ensures r in worlds[j].db.recordings
    ensures AgreeFor(worlds[i].db.recordings[r], worlds[j].db.recordings[r], actions[j].edit)
  {
    hide Follows, SaveLands;
    SavedAtRevision(worlds[j], actions[j], r);
    RunGrows(cfg, worlds, times, actions, i, j, r);
  }

  /** Of two edits of the same content at the same revision at most one is ever accepted. */
  lemma NoLostUpdate(cfg: Config, worlds: seq<World>, times: seq<Micros>, actions: seq<Action>, i: nat, j: nat, r: RecordingId)
    requires IsRun(cfg, worlds, times, actions) && i < |actions| && j < |actions|
    requires SaveLands(worlds[i], actions[i], r) && SaveLands(worlds[j], actions[j], r)
    requires SameKindOfEdit(actions[i].edit, actions[j].edit) && actions[i].expectedRevision == actions[j].expectedRevision
    ensures i == j
  {
    hide Follows, SaveLands, CoreOf;
    var first, second := if i <= j then i else j, if i <= j then j else i;
    if first < second {
      RunKeepsCore(cfg, worlds, times, actions, first);
      assert Follows(cfg, worlds[first], times[first], actions[first], worlds[first + 1]);
      SavedMovesOn(cfg, worlds[first], times[first], actions[first], worlds[first + 1], r);
      SavedAtRevision(worlds[second], actions[second], r);
      RunGrows(cfg, worlds, times, actions, first + 1, second, r);
    }
  }

  // ----- when they land -----

  /** The quotation is a piece of the segment it names. */
  ghost predicate Stands(segments: seq<SegmentRow>, quote: Grounding.Quoted) {
    && 0 <= quote.sequence < |segments|
    && exists before, after :: before + quote.original + after == segments[quote.sequence].segment.text
  }

  lemma {:induction false} NumberedAt(segments: seq<Segment>, sequence: int)
    requires forall i :: 0 <= i < |segments| ==> segments[i].sequence == i
    ensures Grounding.TextAt(segments, sequence) == if 0 <= sequence < |segments| then Some(segments[sequence].text) else None
  {
    if segments != [] && sequence != |segments| - 1 {
      NumberedAt(segments[..|segments| - 1], sequence);
    }
  }

  lemma OccursIs(needle: string, text: string)
    ensures Grounding.Occurs(needle, text) <==> exists before, after :: before + needle + after == text
  {
    if Grounding.Occurs(needle, text) {
      var i :| 0 <= i <= |text| && Grounding.StandsAt(needle, text, i);
      assert text[..i] + needle + text[i + |needle|..] == text;
    }
    if before, after :| before + needle + after == text {
      assert Grounding.StandsAt(needle, text, |before|);
    }
  }

  lemma AllStandIs(segments: seq<SegmentRow>, quotes: seq<Grounding.Quoted>)
    requires WellNumbered(segments)
    ensures Grounding.AllStand(Segments(segments), quotes) <==> forall k :: 0 <= k < |quotes| ==> Stands(segments, quotes[k])
  {
    hide Grounding.TextAt, Grounding.Occurs;
    forall k | 0 <= k < |quotes|
      ensures Stands(segments, quotes[k]) <==>
                Grounding.TextAt(Segments(segments), quotes[k].sequence).Some?
                && Grounding.Occurs(quotes[k].original, Grounding.TextAt(Segments(segments), quotes[k].sequence).value)
    {
      NumberedAt(Segments(segments), quotes[k].sequence);
      if 0 <= quotes[k].sequence < |segments| {
        OccursIs(quotes[k].original, segments[quotes[k].sequence].segment.text);
      }
    }
  }

  /** An edit lands exactly at its revision, while nothing is queued or running for the recording, if it fits. */
  lemma SaveLandsIff(w: World, action: Action, r: RecordingId)
    requires action.DoSave? && action.recording == r && (r in w.db.recordings ==> WellNumbered(w.db.recordings[r].segments))
    ensures SaveLands(w, action, r) <==>
              && r in w.db.recordings && AtRevision(w.db.recordings[r], action.edit, action.expectedRevision)
              && (forall id :: id in w.db.jobs && w.db.jobs[id].scope == OfRecording(r) ==>
                    !w.db.jobs[id].status.Queued? && !w.db.jobs[id].status.Processing?)
              && match action.edit
                 case EditTranscript(updates) => TranscriptEdit.Edited(w.db.recordings[r].segments, updates, w.db.recordings[r].duration).Success?
                 case EditTranslations(updates) => EditRows(w.db.recordings[r].segments, w.db.recordings[r].translations, updates).Success?
                 case EditAnalysis(reading) =>
                   && (forall k :: 0 <= k < |reading.quotes| ==> Stands(w.db.recordings[r].segments, reading.quotes[k]))
                   && (w.db.recordings[r].analysis.Some?
                       || exists id :: id in w.db.jobs && w.db.jobs[id].scope == OfRecording(r))
  {
    hide TranscriptEdit.Edited, EditRows, Stands, Grounding.AllStand, WellNumbered;
    if r in w.db.recordings && action.edit.EditAnalysis? {
      AllStandIs(w.db.recordings[r].segments, action.edit.reading.quotes);
    }
  }

  /** An owner's result lands, except a transcription that cannot carry the manual translations and a summary of a
      day that has changed since it was read. */
  lemma CompletionLandsIff(w: World, claim: ClaimedJob, outcome: Outcome, now: Micros, newId: JobId)
    requires Fenced(w) && Holds(w, claim) && Owns(w.db.jobs, claim) && Answers(claim.kind, InputOf(w, claim), outcome)
    ensures claim.kind.DailySummary? <==> claim.scope.OfDay?
    ensures claim.scope.OfRecording? ==> claim.scope.recording in w.db.recordings
    ensures outcome.Transcribed? ==> claim.scope.OfRecording?
    ensures outcome.DaySummarised? ==> claim.scope.OfDay? && InputOf(w, claim).Some? && InputOf(w, claim).value.DayRead?
    ensures Complete(w.db, claim, InputOf(w, claim), outcome, now, newId).Success? <==>
              && (outcome.Transcribed? ==>
                    var rec := w.db.recordings[claim.scope.recording];
                    Retranscribed(rec.segments, rec.translations, outcome.rows).Success?)
              && (outcome.DaySummarised? ==>
                    Revisions(w.db.recordings, claim.scope.day) == InputOf(w, claim).value.revisions)
  {
    hide AllJobs, AllWaiting, OneActive, TokensOk, Finish, Retranscribed, Grouped, RenderingsOf, Revisions, Written, KeyPoints;
    OwnedIsLatest(w, claim);
    CoreJobOk(w.db, claim.id);
  }

  // ----- a reading is never erased -----

  predicate HasReading(rec: Recording) {
    rec.analysis.Some? && rec.analysis.value.reading.Some?
  }

  /** Whatever happens to a recording, only a completed analysis that has none itself takes its reading away, and
      only a completed analysis or a manual edit replaces it. */
  lemma ReadingIsKept(cfg: Config, w: World, now: Micros, action: Action, r: RecordingId)
    requires cfg.Valid() && Possible(w, now, action) && WorldCore(w)
    requires r in w.db.recordings && r in Next(cfg, w, now, action).recordings && HasReading(w.db.recordings[r])
    ensures var a, b := w.db.recordings[r], Next(cfg, w, now, action).recordings[r];
            || (HasReading(b) && b.analysis.value.reading == a.analysis.value.reading)
            || (action.DoComplete? && action.outcome.Analysed? && action.outcome.status.AnalysisDone?
                && b.analysis == Some(AnalysisRow(AnalysisDone, action.outcome.reading)))
            || (action.DoSave? && action.edit.EditAnalysis? && b.analysis == Some(AnalysisRow(AnalysisDone, Some(action.edit.reading))))
  {
    hide Next, CoreOf, Possible, CommitLands, SaveLands, Retranscribed, TranscriptEdit.Edited, EditRows;
    StepWrites(cfg, w, now, action, r);
    LandingKinds(cfg, w, now, action, r);
  }

  lemma LandingKinds(cfg: Config, w: World, now: Micros, action: Action, r: RecordingId)
    ensures CommitLands(cfg, w, now, action, r) ==> action.DoComplete?
    ensures SaveLands(w, action, r) ==> action.DoSave?
  {
  }
}
