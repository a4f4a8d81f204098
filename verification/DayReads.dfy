/** Which recordings a day summary reads, in stored columns, and what rewording one takes away. */
module DayReads {
  import opened Prelude
  import opened Text
  import opened Days
  import opened Schema
  import opened Queue
  import opened Services
  import opened Jobs
  import opened Protocol
  import opened Keeping
  import opened Fencing
  import opened ContentMoves
  import TranscriptEdit
  import Translations
  import TranslationWrites
  import Summaries
  import Starvation

  // ----- membership -----

  predicate Says(text: string) {
    exists i :: 0 <= i < |text| && !IsSpace(text[i])
  }

  /** The moment lies between this day's midnight in Japan, nine hours before midnight UTC, and the next one. */
  predicate BeganOn(moment: Micros, day: Day) {
    day * 86_400_000_000 - 32_400_000_000 <= moment < (day + 1) * 86_400_000_000 - 32_400_000_000
  }

  /** The recording began on this day, its analysis is completed, and its reading, this one, has a Japanese
      description that says something. */
  predicate ReadableOn(rec: Recording, day: Day, reading: Reading) {
    && BeganOn(rec.startedAt, day)
    && rec.analysis == Some(AnalysisRow(AnalysisDone, Some(reading)))
    && reading.descriptionJa.Some? && Says(reading.descriptionJa.value)
  }

  ghost predicate Readable(recordings: map<RecordingId, Recording>, day: Day, r: RecordingId) {
    r in recordings && exists reading :: ReadableOn(recordings[r], day, reading)
  }

  /** The day's readings are exactly those of its readable recordings, and its revisions exactly theirs. */
  lemma DayReadIs(recordings: map<RecordingId, Recording>, day: Day, r: RecordingId)
    ensures r in Digests(recordings, day) <==> Readable(recordings, day, r)
    ensures r in Revisions(recordings, day) <==> Readable(recordings, day, r)
    ensures r in Digests(recordings, day) ==> ReadableOn(recordings[r], day, Digests(recordings, day)[r])
    ensures r in Revisions(recordings, day) ==> Revisions(recordings, day)[r] == recordings[r].analysisRevision
  {
    if r in recordings {
      var rec := recordings[r];
      if OnDay(rec, day) {
        assert ReadableOn(rec, day, DigestOf(rec).value);
      }
      if reading :| ReadableOn(rec, day, reading) {
        assert DigestOf(rec) == Some(reading);
      }
    }
  }

  /** A summary is stale exactly when the day's readable recordings, or their revisions, are no longer those it
      was written from. */
  lemma StaleIff(db: Db, day: Day)
    ensures IsStale(db, day) <==>
              && day in db.summaries && db.summaries[day].status.AnalysisDone?
              && !((forall r :: r in db.summaries[day].sources <==> Readable(db.recordings, day, r))
                   && forall r :: r in db.summaries[day].sources && r in db.recordings ==>
                        db.summaries[day].sources[r] == db.recordings[r].analysisRevision)
  {
    hide Readable, Revisions;
    forall r
      ensures r in Revisions(db.recordings, day) <==> Readable(db.recordings, day, r)
      ensures r in Revisions(db.recordings, day) ==>
                r in db.recordings && Revisions(db.recordings, day)[r] == db.recordings[r].analysisRevision
    {
      DayReadIs(db.recordings, day, r);
      ReadableIsThere(db.recordings, day, r);
    }
    if day in db.summaries {
      var sources, current := db.summaries[day].sources, Revisions(db.recordings, day);
      if forall r :: r in sources <==> r in current {
        assert sources.Keys == current.Keys;
      }
    }
  }

  lemma ReadableIsThere(recordings: map<RecordingId, Recording>, day: Day, r: RecordingId)
    ensures Readable(recordings, day, r) ==> r in recordings
  {
  }

  /** In every reachable state a summary that is not reported stale was built from exactly the readings its day has
      now: those of its readable recordings, as they are stored. */
  lemma CurrentSummaryIsTheDay(cfg: Config, worlds: seq<World>, times: seq<Micros>, actions: seq<Action>, i: nat, day: Day,
                               r: RecordingId)
    requires IsRun(cfg, worlds, times, actions) && i < |worlds| && day in worlds[i].db.summaries
    requires !IsStale(worlds[i].db, day)
    ensures day in worlds[i].builtFrom
    ensures r in worlds[i].builtFrom[day] <==> Readable(worlds[i].db.recordings, day, r)
    ensures r in worlds[i].builtFrom[day] ==>
              r in worlds[i].db.recordings && ReadableOn(worlds[i].db.recordings[r], day, worlds[i].builtFrom[day][r])
  {
    hide IsRun, Digests, ReadableOn, IsStale;
    Summaries.StalenessIsExact(cfg, worlds, times, actions, i, day);
    DayReadIs(worlds[i].db.recordings, day, r);
  }

  /** A day can be queued exactly when it has a readable recording and no job of its own, and then one is. */
  lemma DayIsQueuedIff(cfg: Config, w: World, now: Micros, day: Day, jobId: JobId)
    requires cfg.Valid() && jobId !in w.usedJobs && WorldCore(w)
    ensures var after := OrElse(QueueSummary(w.db, day, jobId, now, cfg.maxAttempts), w.db);
            && (jobId in after.jobs <==>
                  && (exists r :: Readable(w.db.recordings, day, r))
                  && (forall id :: id in w.db.jobs && w.db.jobs[id].scope == OfDay(day) ==> Terminal(w.db.jobs[id])))
            && (jobId in after.jobs ==>
                  after == w.db.(jobs := w.db.jobs[jobId := Job(OfDay(day), DailySummary, None, Queued, StageQueued, 0,
                    cfg.maxAttempts, now, now, None, None, None, None, None, None, None, None)]))
            && (jobId !in after.jobs ==> after == w.db)
  {
    hide CoreOf, Digests, Readable;
    var digests := Digests(w.db.recordings, day);
    forall r
      ensures r in digests <==> Readable(w.db.recordings, day, r)
    {
      DayReadIs(w.db.recordings, day, r);
    }
    if r :| Readable(w.db.recordings, day, r) {
      assert r in digests;
    } else {
      assert digests.Keys == {};
    }
  }

  // ----- a reworded recording is not read -----

  /** No completed analysis stands for the recording. */
  ghost predicate Outdated(recordings: map<RecordingId, Recording>, r: RecordingId) {
    r in recordings && recordings[r].analysis.Some? ==> !recordings[r].analysis.value.status.AnalysisDone?
  }

  lemma OutdatedIsUnreadable(recordings: map<RecordingId, Recording>, day: Day, r: RecordingId)
    requires Outdated(recordings, r)
    ensures !Readable(recordings, day, r)
  {
  }

  /** The step stored other words for the recording, by a person's edit or a new transcription. */
  ghost predicate Rewords(before: map<RecordingId, Recording>, after: map<RecordingId, Recording>, r: RecordingId) {
    && r in before && r in after
    && (after[r].transcriptRevision != before[r].transcriptRevision || after[r].segments != before[r].segments)
  }

  /** A completed analysis of the recording commits, or one is saved by hand. */
  predicate Rereads(action: Action, r: RecordingId) {
    match action
    case DoComplete(claim, outcome, _) =>
      claim.scope == OfRecording(r) && outcome.Analysed? && outcome.status.AnalysisDone?
    case DoSave(recording, _, edit) => recording == r && edit.EditAnalysis?
    case _ => false
  }

  lemma RewordingOutdates(cfg: Config, w: World, now: Micros, action: Action, after: World, r: RecordingId)
    requires Follows(cfg, w, now, action, after) && WorldCore(w) && Rewords(w.db.recordings, after.db.recordings, r)
    ensures Outdated(after.db.recordings, r)
  {
    hide CoreOf, Possible, Step, Next, CommitLands, SaveLands, Translations.Retranscribed, TranscriptEdit.Edited, TranslationWrites.EditRows;
    Starvation.StepTables(cfg, w, now, action);
    StepWrites(cfg, w, now, action, r);
    LandingKinds(cfg, w, now, action, r);
  }

  lemma StaysOutdated(cfg: Config, w: World, now: Micros, action: Action, after: World, r: RecordingId)
    requires Follows(cfg, w, now, action, after) && WorldCore(w) && r in w.usedRecordings
    requires Outdated(w.db.recordings, r) && !Rereads(action, r)
    ensures Outdated(after.db.recordings, r)
  {
    hide CoreOf, Possible, Step, Next, Translations.Retranscribed, TranscriptEdit.Edited, TranslationWrites.EditRows,
         Complete, Save;
    Starvation.StepTables(cfg, w, now, action);
    if r in after.db.recordings {
      WasThere(cfg, w, now, action, after, r);
      StepWrites(cfg, w, now, action, r);
    }
  }

  lemma {:induction false} OutdatedUntilReread(cfg: Config, worlds: seq<World>, times: seq<Micros>, actions: seq<Action>,
                                               i: nat, j: nat, r: RecordingId)
    requires IsRun(cfg, worlds, times, actions) && i < j < |worlds|
    requires Rewords(worlds[i].db.recordings, worlds[i + 1].db.recordings, r)
    requires forall k :: i < k < j ==> !Rereads(actions[k], r)
    ensures Outdated(worlds[j].db.recordings, r) && r in worlds[j].usedRecordings
  {
    hide CoreOf, Follows, Rereads, Outdated;
    RunKeepsCore(cfg, worlds, times, actions, j - 1);
    StaysKnown(cfg, worlds, times, actions, i, j, r);
    assert Follows(cfg, worlds[j - 1], times[j - 1], actions[j - 1], worlds[j - 1 + 1]);
    if i + 1 == j {
      RewordingOutdates(cfg, worlds[i], times[i], actions[i], worlds[j], r);
    } else {
      OutdatedUntilReread(cfg, worlds, times, actions, i, j - 1, r);
      StaysOutdated(cfg, worlds[j - 1], times[j - 1], actions[j - 1], worlds[j], r);
    }
  }

  /** A day read never includes the recording, and a summary written by this step neither. */
  ghost predicate LeavesOut(w: World, action: Action, after: World, r: RecordingId) {
    && (action.DoRead? && action.claim.token in after.inputs && after.inputs[action.claim.token].DayRead? ==>
          r !in after.inputs[action.claim.token].digests && r !in after.inputs[action.claim.token].revisions)
    && (forall day :: day in after.db.summaries ==>
          || (day in w.db.summaries && after.db.summaries[day] == w.db.summaries[day])
          || (r !in after.db.summaries[day].sources && r !in after.db.summaries[day].keyPoints))
  }

  /** From the step that rewords a recording until it is analysed again, by a run or by hand, no day holds a
      reading of it, no worker reads it for a day, no summary is written from it, and no day is queued for it alone. */
  lemma RewordedIsNotRead(cfg: Config, worlds: seq<World>, times: seq<Micros>, actions: seq<Action>, i: nat, j: nat, r: RecordingId)
    requires IsRun(cfg, worlds, times, actions) && i < j < |worlds|
    requires Rewords(worlds[i].db.recordings, worlds[i + 1].db.recordings, r)
    requires forall k :: i < k < j ==> !Rereads(actions[k], r)
    ensures forall day :: !Readable(worlds[j].db.recordings, day, r)
    ensures j < |actions| ==> LeavesOut(worlds[j], actions[j], worlds[j + 1], r)
    ensures j < |actions| && actions[j].DoQueueSummary? && actions[j].jobId in worlds[j + 1].db.jobs ==>
              exists s :: s != r && Readable(worlds[j].db.recordings, actions[j].day, s)
  {
    hide CoreOf, Possible, Step, Rereads, Outdated, Readable, LeavesOut, Rewords;
    OutdatedUntilReread(cfg, worlds, times, actions, i, j, r);
    forall day
      ensures !Readable(worlds[j].db.recordings, day, r)
    {
      OutdatedIsUnreadable(worlds[j].db.recordings, day, r);
    }
    if j < |actions| {
      Summaries.RunKeepsCache(cfg, worlds, times, actions, j + 1);
      RunKeepsCore(cfg, worlds, times, actions, j);
      assert Follows(cfg, worlds[j], times[j], actions[j], worlds[j + 1]);
      UnreadableIsLeftOut(cfg, worlds[j], times[j], actions[j], worlds[j + 1], r);
      if actions[j].DoQueueSummary? && actions[j].jobId in worlds[j + 1].db.jobs {
        QueuedHasReadable(cfg, worlds[j], times[j], actions[j], worlds[j + 1]);
      }
    }
  }

  lemma QueuedHasReadable(cfg: Config, w: World, now: Micros, action: Action, after: World)
    requires Follows(cfg, w, now, action, after) && WorldCore(w) && action.DoQueueSummary? && action.jobId in after.db.jobs
    ensures exists s :: Readable(w.db.recordings, action.day, s)
  {
    hide CoreOf, Readable, QueueSummary, Inputs, BuiltFrom, CurrentReadings, Issued;
    DayIsQueuedIff(cfg, w, now, action.day, action.jobId);
  }

  lemma UnreadableIsLeftOut(cfg: Config, w: World, now: Micros, action: Action, after: World, r: RecordingId)
    requires Follows(cfg, w, now, action, after) && Summaries.SummariesOk(after)
    requires forall day :: !Readable(w.db.recordings, day, r)
    ensures LeavesOut(w, action, after, r)
  {
    hide CoreOf, Possible, Step, Readable, Next, Summaries.AllBacked;
    Starvation.StepTables(cfg, w, now, action);
    if action.DoRead? {
      ReadLeavesOut(cfg, w, now, action, after, r);
    }
    Summaries.StepMovesSummaries(cfg, w, now, action);
    forall day | day in after.db.summaries && !(day in w.db.summaries && after.db.summaries[day] == w.db.summaries[day])
      ensures r !in after.db.summaries[day].sources && r !in after.db.summaries[day].keyPoints
    {
      DayReadIs(w.db.recordings, day, r);
      assert Summaries.SummaryOk(after, day);
    }
  }

  lemma ReadLeavesOut(cfg: Config, w: World, now: Micros, action: Action, after: World, r: RecordingId)
    requires Follows(cfg, w, now, action, after) && action.DoRead?
    requires forall day :: !Readable(w.db.recordings, day, r)
    ensures action.claim.token in after.inputs
    ensures after.inputs[action.claim.token].DayRead? ==>
              r !in after.inputs[action.claim.token].digests && r !in after.inputs[action.claim.token].revisions
  {
    hide CoreOf, Readable, Next, BuiltFrom, CurrentReadings, Issued, Digests, Revisions;
    if action.claim.scope.OfDay? {
      DayReadIs(w.db.recordings, action.claim.scope.day, r);
    }
  }
}
