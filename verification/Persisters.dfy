/** The result writers a worker runs inside the completing transaction, on mutable tables (worker_runtime.py). */
module Persisters {
  import opened Prelude
  import opened Days
  import opened Schema
  import opened Queue
  import opened Sentences
  import opened Translations
  import opened TranslationWrites
  import opened Services
  import opened Tables

  /** The table's unique constraint on a recording's sentence starts. */
  ghost predicate StartsDistinct(recordings: map<RecordingId, Recording>) {
    forall r :: r in recordings ==> DistinctStarts(recordings[r].translations)
  }

  /** Replaces the transcript and carries what people wrote over to the new one. */
  method PersistTranscript(db: Database, recording: RecordingId, rows: seq<SegmentRow>) returns (r: Result<()>)
    requires recording in db.recordings
    modifies db`recordings
    ensures var rec := CommitTranscript(old(db.recordings)[recording], rows);
            && r.Success? == rec.Success? && (r.Failure? ==> r.error == rec.error)
            && db.recordings == if rec.Success? then old(db.recordings)[recording := rec.value] else old(db.recordings)
  {
    hide Capture, Carry;
    var rec := db.recordings[recording];
    var preserved := Capture(rec.segments, rec.translations);
    if preserved.Failure? {
      return Failure("ValueError");
    }
    rec := rec.(segments := rows, transcriptRevision := rec.transcriptRevision + 1);
    if rec.analysis.Some? && rec.analysis.value.status.AnalysisDone? {
      rec := rec.(analysis := Some(rec.analysis.value.(status := AnalysisStale)),
                  analysisRevision := rec.analysisRevision + 1);
    }
    var carried := CarryManualTranslations(rows, preserved.value);
    if carried.Failure? {
      return Failure("ValueError");
    }
    rec := rec.(translations := carried.value, translationRevision := rec.translationRevision + 1);
    db.recordings := db.recordings[recording := rec];
    r := Success(());
  }

  method PersistAnalysis(db: Database, recording: RecordingId, status: AnalysisStatus, reading: Option<Reading>)
    requires recording in db.recordings
    modifies db`recordings
    ensures db.recordings == old(db.recordings)[recording := CommitAnalysis(old(db.recordings)[recording], status, reading)]
  {
    var rec := db.recordings[recording];
    var keepsPrevious := rec.analysis.Some? && rec.analysis.value.reading.Some?;
    if !status.AnalysisDone? && keepsPrevious {
      assert db.recordings == db.recordings[recording := rec];
      return;
    }
    rec := rec.(analysis := Some(AnalysisRow(status, reading)));
    db.recordings := db.recordings[recording := rec.(analysisRevision := rec.analysisRevision + 1)];
  }

  /** A skipped run leaves the stored renderings alone, and still counts as a revision. */
  method PersistTranslations(db: Database, recording: RecordingId, renderings: Option<seq<Rendering>>)
    requires recording in db.recordings && DistinctStarts(db.recordings[recording].translations)
    modifies db`recordings
    ensures db.recordings == old(db.recordings)[recording := CommitTranslations(old(db.recordings)[recording], renderings)]
  {
    var rec := db.recordings[recording];
    if renderings.Some? {
      var rows := WriteTranslations(rec.segments, rec.translations, renderings.value);
      rec := rec.(translations := rows);
    }
    db.recordings := db.recordings[recording := rec.(translationRevision := rec.translationRevision + 1)];
  }

  /** The day's summary is written only while the day still matches what it was built from. */
  method PersistDay(db: Database, day: Day, input: Input, text: string, points: seq<nat>) returns (r: Result<()>)
    requires input.DayRead?
    modifies db`summaries
    ensures r.Success? <==> Revisions(old(db.recordings), day) == input.revisions
    ensures var after := PersistSummary(old(db.Contents()), day, input, text, points);
            && r.Success? == after.Success? && (r.Failure? ==> r.error == after.error)
            && db.Contents() == if after.Success? then after.value else old(db.Contents())
  {
    if Revisions(db.recordings, day) != input.revisions {
      return Failure("daily_summary_day_changed");
    }
    db.summaries := db.summaries[day := Summary(AnalysisDone, text, KeyPoints(points, input.numbering), input.revisions)];
    r := Success(());
  }

  /** Whichever writer the job's outcome asks for. */
  method PersistResults(db: Database, claim: ClaimedJob, input: Option<Input>, outcome: Outcome) returns (r: Result<()>)
    requires Answers(claim.kind, input, outcome) && StartsDistinct(db.recordings)
    modifies db`recordings, db`summaries
    ensures var after := Persist(old(db.Contents()), claim, input, outcome);
            && r.Success? == after.Success? && (r.Failure? ==> r.error == after.error)
            && db.Contents() == if after.Success? then after.value else old(db.Contents())
  {
    hide CommitTranscript, CommitAnalysis, CommitTranslations, Grouped, Translate, Revisions, DistinctStarts, KeyPoints;
    match claim.scope
    case OfDay(day) =>
      if outcome.DaySkipped? {
        return Success(());
      } else if outcome.DaySummarised? {
        r := PersistDay(db, day, input.value, outcome.text, outcome.points);
      } else {
        return Failure("scope");
      }
    case OfRecording(recording) =>
      if outcome.DaySkipped? || outcome.DaySummarised? {
        return Failure("scope");
      }
      if recording !in db.recordings {
        return Failure("recording_missing");
      }
      match outcome {
        case Transcribed(rows) => r := PersistTranscript(db, recording, rows);
        case Analysed(status, reading) =>
          PersistAnalysis(db, recording, status, reading);
          r := Success(());
        case Rendered(replies) =>
          PersistTranslations(db, recording, Some(RenderingsOf(input.value, replies)));
          r := Success(());
        case RenderSkipped =>
          PersistTranslations(db, recording, None);
          r := Success(());
      }
  }
}
